/// The plain model layer: a model object holds one value per defined field
/// behind accessors that record which fields changed; `save` validates the
/// changed fields and writes them with an insert or an update; `delete`
/// removes the row. The module configures the model class and loads models.
module Models {
  import opened Js
  import opened Schema
  import opened Stores

  // ----- construction -----

  /// The constructor's loop: every key of the data must be a defined field
  /// (reading `.type` of an undefined definition throws), and `id` and `int`
  /// fields are converted with `Number`.
  function FixData(def: Definition, data: Record): (r: Result<Record>)
    ensures r.Ok? <==> forall k :: k in data ==> k in def.fields
    ensures r.Ok? ==> r.value.Keys == data.Keys
    ensures r.Ok? ==> forall k :: k in data ==> r.value[k] == FixDataType(def.fields[k], data[k])
  {
    if forall k :: k in data ==> k in def.fields then Ok(map k | k in data :: FixDataType(def.fields[k], data[k]))
    else Err(Raised("TypeError: Cannot read property 'type' of undefined"))
  }

  /// Building a model from the data of a model built from `data` gives the
  /// same data: the conversion is stable.
  lemma FixDataStable(def: Definition, data: Record)
    requires FixData(def, data).Ok?
    ensures FixData(def, FixData(def, data).value) == FixData(def, data)
  {
    var once := FixData(def, data).value;
    var twice := FixData(def, once);
    assert twice.Ok?;
    forall k | k in once
      ensures twice.value[k] == once[k]
    {
      ToNumberIdempotent(data[k]);
    }
    assert twice.value == once;
  }

  /// A model as it is delivered to a ready handler: the object whose field
  /// accessors return the converted values of its data.
  function ModelValue(def: Definition, row: Record): (r: Result<Value>)
    ensures r.Ok? <==> FixData(def, row).Ok?
    ensures r.Ok? ==> r.value.Obj? && r.value.props == FixData(def, row).value
  {
    match FixData(def, row)
    case Ok(fixed) => Ok(Obj(fixed))
    case Err(e) => Err(e)
  }

  /// `this['_' + key]` of a model with slots `slots`.
  function Slot(slots: Record, key: string): Value {
    if key in slots then slots[key] else Undefined
  }

  // ----- the inline validator -----

  /// `validateField` of the model file: the alias gives the checked type and
  /// a default length, an explicit `length` replaces it, and a nullable field
  /// turns any failure into success with null. An unknown type throws even
  /// for a nullable field.
  function InlineCheck(fd: FieldDef, data: Value): (c: Check)
    ensures var (typ, alias) := Alias(fd.typ);
      var length := if fd.length.Some? then fd.length else alias;
      && (c.Throw? <==> typ != "string" && typ != "number" && typ != "date")
      && (fd.nullable ==> !c.Fail?)
      && (fd.nullable && TypeCheck(typ, length, data, false).Fail? ==> c == Pass(Null))
      && (!fd.nullable ==> c == TypeCheck(typ, length, data, false))
  {
    var (typ, alias) := Alias(fd.typ);
    var length := if fd.length.Some? then fd.length else alias;
    var c := TypeCheck(typ, length, data, false);
    if c.Fail? && fd.nullable then Pass(Null) else c
  }

  /// An email address is limited to 256 characters unless the definition
  /// sets its own length.
  lemma EmailLimit(fd: FieldDef, data: Value)
    requires fd.typ == "email" && fd.length.None? && !fd.nullable
    ensures InlineCheck(fd, data).Fail? <==> Utf16Length(ToStr(data)) > 256
    ensures InlineCheck(fd, data).Pass? ==> InlineCheck(fd, data).data == Str(ToStr(data))
  {
  }

  /// An id has at most ten digits unless the definition sets its own length;
  /// a non-numeric id fails first.
  lemma IdLimit(fd: FieldDef, data: Value)
    requires fd.typ == "id" && fd.length.None? && !fd.nullable
    ensures InlineCheck(fd, data) == Fail("invalid number") <==> !IsNumeric(data)
    ensures InlineCheck(fd, data) == Fail("invalid length") <==> IsNumeric(data) && Utf16Length(ToStr(data)) > 10
  {
  }

  /// What became of one changed field: accepted, rejected with a truthy
  /// error, still waiting on its custom validator, or an exception.
  datatype FieldVerdict = Accepted | Rejected(err: Value) | Unanswered | Raises(message: string)

  /// One field through the inline validator. A field that passes the
  /// built-in checks goes to its custom validator, if any, with the checked
  /// data; `custom` says what that validator reports (None: it never calls
  /// back).
  function CheckField(def: Definition, key: string, value: Value, custom: (string, Value) -> Option<Value>): (v: FieldVerdict)
    requires key in def.fields
    ensures v.Raises? <==> InlineCheck(def.fields[key], value).Throw?
    ensures InlineCheck(def.fields[key], value).Fail? ==> v == Rejected(Str(InlineCheck(def.fields[key], value).message))
    ensures v.Unanswered? ==> def.fields[key].custom
    ensures v.Rejected? ==> Truthy(v.err)
  {
    match InlineCheck(def.fields[key], value)
    case Throw(m) => Raises(m)
    case Fail(m) => Rejected(Str(m))
    case Pass(d) =>
      if !def.fields[key].custom then Accepted
      else match custom(key, d)
        case None => Unanswered
        case Some(err) => if Truthy(err) then Rejected(err) else Accepted
  }

  /// Where validating the changed fields ends: the final callback with the
  /// invalid fields (none: null), no callback yet, or an exception.
  datatype Verdict = Complete(invalid: Record) | Waiting | Threw(message: string)

  predicate AllDefined(def: Definition, keys: seq<string>) {
    forall i :: 0 <= i < |keys| ==> keys[i] in def.fields
  }

  /// The fields are validated in order; a handler fires only once every
  /// field reported, and an exception stops the loop.
  function VerdictOf(def: Definition, keys: seq<string>, data: Record, custom: (string, Value) -> Option<Value>): Verdict
    requires AllDefined(def, keys)
    decreases |keys|
  {
    if keys == [] then Complete(map[])
    else
      var last := keys[|keys| - 1];
      var prev := VerdictOf(def, keys[..|keys| - 1], data, custom);
      Combine(prev, last, CheckField(def, last, Slot(data, last), custom))
  }

  /// How one field's report changes the verdict of the fields before it.
  function Combine(prev: Verdict, key: string, v: FieldVerdict): Verdict {
    if prev.Threw? then prev
    else if v.Raises? then Threw(v.message)
    else if v.Unanswered? || prev.Waiting? then Waiting
    else if v.Rejected? then Complete(prev.invalid[key := v.err])
    else prev
  }

  /// The field reported to the handler: accepted or rejected.
  predicate Answered(def: Definition, data: Record, custom: (string, Value) -> Option<Value>, key: string)
    requires key in def.fields
  {
    var v := CheckField(def, key, Slot(data, key), custom);
    v.Accepted? || v.Rejected?
  }

  predicate RejectedField(def: Definition, data: Record, custom: (string, Value) -> Option<Value>, key: string)
    requires key in def.fields
  {
    CheckField(def, key, Slot(data, key), custom).Rejected?
  }

  predicate Distinct(keys: seq<string>) {
    forall i, j :: 0 <= i < j < |keys| ==> keys[i] != keys[j]
  }

  /// The final callback fires exactly when every field reported, none by
  /// throwing.
  lemma {:induction false} VerdictCompleteIff(def: Definition, keys: seq<string>, data: Record, custom: (string, Value) -> Option<Value>)
    requires AllDefined(def, keys)
    ensures VerdictOf(def, keys, data, custom).Complete? <==> forall i :: 0 <= i < |keys| ==> Answered(def, data, custom, keys[i])
    decreases |keys|
  {
    if keys != [] {
      var init := keys[..|keys| - 1];
      var last := keys[|keys| - 1];
      assert AllDefined(def, init);
      VerdictCompleteIff(def, init, data, custom);
      VerdictStep(def, keys, data, custom);
      assert VerdictOf(def, keys, data, custom).Complete? <==>
        VerdictOf(def, init, data, custom).Complete? && Answered(def, data, custom, last);
      assert forall i :: 0 <= i < |init| ==> init[i] == keys[i];
    }
  }

  /// The verdict over the keys is the verdict over all but the last, with
  /// the last field's report folded in.
  lemma VerdictStep(def: Definition, keys: seq<string>, data: Record, custom: (string, Value) -> Option<Value>)
    requires AllDefined(def, keys) && keys != []
    ensures AllDefined(def, keys[..|keys| - 1])
    ensures var last := keys[|keys| - 1];
      VerdictOf(def, keys, data, custom) ==
        Combine(VerdictOf(def, keys[..|keys| - 1], data, custom), last, CheckField(def, last, Slot(data, last), custom))
  {
  }

  /// When it fires, the final callback receives exactly the rejected fields,
  /// each with the error it was rejected with.
  lemma {:induction false} VerdictInvalid(def: Definition, keys: seq<string>, data: Record, custom: (string, Value) -> Option<Value>)
    requires AllDefined(def, keys) && Distinct(keys)
    requires VerdictOf(def, keys, data, custom).Complete?
    ensures var inv := VerdictOf(def, keys, data, custom).invalid;
      && (forall k :: k in inv ==> k in keys)
      && (forall i :: 0 <= i < |keys| ==> (keys[i] in inv <==> RejectedField(def, data, custom, keys[i])))
      && (forall i :: 0 <= i < |keys| && keys[i] in inv ==> inv[keys[i]] == CheckField(def, keys[i], Slot(data, keys[i]), custom).err)
    decreases |keys|
  {
    if keys != [] {
      var init := keys[..|keys| - 1];
      var last := keys[|keys| - 1];
      assert AllDefined(def, init) && Distinct(init);
      var prev := VerdictOf(def, init, data, custom);
      assert prev.Complete?;
      VerdictInvalid(def, init, data, custom);
      var inv := VerdictOf(def, keys, data, custom).invalid;
      assert last !in init;
      assert last !in prev.invalid;
      forall i | 0 <= i < |keys|
        ensures keys[i] in inv <==> RejectedField(def, data, custom, keys[i])
        ensures keys[i] in inv ==> inv[keys[i]] == CheckField(def, keys[i], Slot(data, keys[i]), custom).err
      {
        if i < |init| {
          assert keys[i] == init[i] && keys[i] != last;
        }
      }
    }
  }

  /// The inline handler run over the changed fields, as `validateFields`
  /// does it.
  method InlineValidate(def: Definition, keys: seq<string>, data: Record, custom: (string, Value) -> Option<Value>) returns (v: Verdict)
    requires AllDefined(def, keys)
    ensures v == VerdictOf(def, keys, data, custom)
  {
    v := Complete(map[]);
    var i := 0;
    while i < |keys|
      invariant 0 <= i <= |keys| && AllDefined(def, keys[..i])
      invariant v == VerdictOf(def, keys[..i], data, custom) && !v.Threw?
    {
      VerdictPrefixStep(def, keys, i, data, custom);
      var key := keys[i];
      var fv := CheckField(def, key, Slot(data, key), custom);
      if fv.Raises? {
        // the exception leaves `validateFields`
        VerdictThrewFinal(def, keys, i + 1, data, custom);
        return Threw(fv.message);
      }
      v := Combine(v, key, fv);
      i := i + 1;
    }
    assert keys[..i] == keys;
  }

  /// The verdict over the first `i + 1` keys, from the verdict over the
  /// first `i`.
  lemma VerdictPrefixStep(def: Definition, keys: seq<string>, i: nat, data: Record, custom: (string, Value) -> Option<Value>)
    requires AllDefined(def, keys) && i < |keys|
    ensures AllDefined(def, keys[..i]) && AllDefined(def, keys[..i + 1])
    ensures var prev := VerdictOf(def, keys[..i], data, custom);
      var fv := CheckField(def, keys[i], Slot(data, keys[i]), custom);
      VerdictOf(def, keys[..i + 1], data, custom) == Combine(prev, keys[i], fv)
  {
    assert keys[..i + 1][..i] == keys[..i];
    assert keys[..i + 1][i] == keys[i];
  }

  /// A verdict that threw on a prefix of the keys is the final verdict.
  lemma VerdictThrewFinal(def: Definition, keys: seq<string>, n: nat, data: Record, custom: (string, Value) -> Option<Value>)
    requires AllDefined(def, keys) && n <= |keys|
    requires AllDefined(def, keys[..n]) && VerdictOf(def, keys[..n], data, custom).Threw?
    ensures VerdictOf(def, keys, data, custom) == VerdictOf(def, keys[..n], data, custom)
  {
    assert keys[..n] + keys[n..] == keys;
    VerdictThrewStays(def, keys[..n], keys[n..], data, custom);
  }

  /// Once a field throws, later fields do not change the outcome.
  lemma {:induction false} VerdictThrewStays(def: Definition, a: seq<string>, b: seq<string>, data: Record, custom: (string, Value) -> Option<Value>)
    requires AllDefined(def, a) && AllDefined(def, b) && VerdictOf(def, a, data, custom).Threw?
    ensures AllDefined(def, a + b) && VerdictOf(def, a + b, data, custom) == VerdictOf(def, a, data, custom)
    decreases |b|
  {
    if b != [] {
      var ab := a + b;
      assert ab[..|ab| - 1] == a + b[..|b| - 1];
      VerdictThrewStays(def, a, b[..|b| - 1], data, custom);
      VerdictStep(def, ab, data, custom);
    } else {
      assert a + b == a;
    }
  }

  // ----- the statements `save` and `delete` send -----

  predicate NoPlaceholder(s: string) {
    '?' !in s
  }

  function Placeholders(n: nat): (r: seq<string>)
    ensures |r| == n && forall i :: 0 <= i < n ==> r[i] == "?"
  {
    seq(n, i => "?")
  }

  lemma {:induction false} PlaceholderCount(n: nat)
    ensures CountChar('?', Join(Placeholders(n), ", ")) == n
  {
    if n == 1 {
      assert Join(Placeholders(n), ", ") == "?";
    } else if n > 1 {
      assert Placeholders(n)[1..] == Placeholders(n - 1);
      PlaceholderCount(n - 1);
      CountCharNone('?', ", ");
      CountCharAppend('?', "?", ", ");
      CountCharAppend('?', "?" + ", ", Join(Placeholders(n - 1), ", "));
    }
  }

  function InsertSql(table: string, keys: seq<string>): string {
    "insert into `" + table + "` (`" + Join(keys, "`, `") + "`) VALUES (" + Join(Placeholders(|keys|), ", ") + ")"
  }

  function UpdateSql(table: string, keys: seq<string>): string {
    "update `" + table + "` set `" + Join(keys, "` = ?, `") + "` = ? where `id` = ?"
  }

  /// `insert into `t` (`k1`, `k2`) VALUES (?, ?)` with the changed values in
  /// key order: one placeholder per column, each value under its column.
  method BuildInsert(table: string, keys: seq<string>, slots: Record) returns (sql: string, values: seq<Value>)
    ensures |values| == |keys| && forall i :: 0 <= i < |keys| ==> values[i] == Slot(slots, keys[i])
    ensures sql == InsertSql(table, keys)
    ensures NoPlaceholder(table) && (forall i :: 0 <= i < |keys| ==> NoPlaceholder(keys[i])) ==>
      CountChar('?', sql) == |values|
  {
    values := [];
    var placeholders: seq<string> := [];
    for i := 0 to |keys|
      invariant |values| == i && forall j :: 0 <= j < i ==> values[j] == Slot(slots, keys[j])
      invariant placeholders == Placeholders(i)
    {
      values := values + [Slot(slots, keys[i])];
      placeholders := placeholders + ["?"];
    }
    sql := "insert into `" + table + "` (`" + Join(keys, "`, `") + "`) VALUES (" + Join(placeholders, ", ") + ")";
    assert sql == InsertSql(table, keys);
    if NoPlaceholder(table) && (forall i :: 0 <= i < |keys| ==> NoPlaceholder(keys[i])) {
      InsertCount(table, keys);
    }
  }

  /// A statement made of seven pieces: its placeholders are those of its pieces.
  lemma StatementCount(q: char, s1: string, s2: string, s3: string, s4: string, s5: string, s6: string, s7: string)
    ensures CountChar(q, s1 + s2 + s3 + s4 + s5 + s6 + s7) ==
      CountChar(q, s1) + CountChar(q, s2) + CountChar(q, s3) + CountChar(q, s4) +
      CountChar(q, s5) + CountChar(q, s6) + CountChar(q, s7)
  {
    CountCharAppend(q, s1, s2);
    CountCharAppend(q, s1 + s2, s3);
    CountCharAppend(q, s1 + s2 + s3, s4);
    CountCharAppend(q, s1 + s2 + s3 + s4, s5);
    CountCharAppend(q, s1 + s2 + s3 + s4 + s5, s6);
    CountCharAppend(q, s1 + s2 + s3 + s4 + s5 + s6, s7);
  }

  /// The fixed text of the insert statement holds no placeholder.
  lemma InsertTextFree(q: char)
    requires q == '?'
    ensures CountChar(q, "insert into `") == 0 && CountChar(q, "` (`") == 0 && CountChar(q, "`, `") == 0
    ensures CountChar(q, "`) VALUES (") == 0 && CountChar(q, ")") == 0 && CountChar(q, ", ") == 0
  {
    InsertHeadFree(q);
    InsertTailFree(q);
  }

  lemma InsertHeadFree(q: char)
    requires q == '?'
    ensures CountChar(q, "insert into `") == 0 && CountChar(q, "` (`") == 0 && CountChar(q, "`, `") == 0
  {
    CountCharNone(q, "insert into `");
    InsertQuotesFree(q);
  }

  lemma InsertQuotesFree(q: char)
    requires q == '?'
    ensures CountChar(q, "` (`") == 0 && CountChar(q, "`, `") == 0
  {
    CountCharNone(q, "` (`");
    CountCharNone(q, "`, `");
  }

  lemma InsertTailFree(q: char)
    requires q == '?'
    ensures CountChar(q, "`) VALUES (") == 0 && CountChar(q, ")") == 0 && CountChar(q, ", ") == 0
  {
    CountCharNone(q, "`) VALUES (");
    CountCharNone(q, ")");
    CountCharNone(q, ", ");
  }

  /// Names without a `?` contribute no placeholder.
  lemma NamesFree(table: string, keys: seq<string>)
    requires NoPlaceholder(table) && forall i :: 0 <= i < |keys| ==> NoPlaceholder(keys[i])
    ensures CountChar('?', table) == 0 && forall i :: 0 <= i < |keys| ==> CountChar('?', keys[i]) == 0
  {
    forall i | 0 <= i < |keys| ensures CountChar('?', keys[i]) == 0 {
      CountCharNone('?', keys[i]);
    }
    CountCharNone('?', table);
  }

  /// One placeholder per column, and none anywhere else.
  lemma InsertCount(table: string, keys: seq<string>)
    requires NoPlaceholder(table) && forall i :: 0 <= i < |keys| ==> NoPlaceholder(keys[i])
    ensures CountChar('?', InsertSql(table, keys)) == |keys|
  {
    NamesFree(table, keys);
    InsertCountOf('?', table, keys);
  }

  /// The count of `InsertCount`, with the placeholder character held in a
  /// variable so that the fixed texts are not counted out character by
  /// character.
  lemma InsertCountOf(q: char, table: string, keys: seq<string>)
    requires q == '?'
    requires CountChar(q, table) == 0 && forall i :: 0 <= i < |keys| ==> CountChar(q, keys[i]) == 0
    ensures CountChar(q, InsertSql(table, keys)) == |keys|
  {
    InsertTextFree(q);
    CountCharJoin(q, keys, "`, `", 0);
    PlaceholderCount(|keys|);
    StatementCount(q, "insert into `", table, "` (`", Join(keys, "`, `"), "`) VALUES (", Join(Placeholders(|keys|), ", "), ")");
  }

  /// `update `t` set `k1` = ?, `k2` = ? where `id` = ?` with the changed
  /// values in key order and the id last: for a non-empty key list, one
  /// placeholder per value.
  method BuildUpdate(table: string, keys: seq<string>, slots: Record, id: Value) returns (sql: string, values: seq<Value>)
    ensures |values| == |keys| + 1 && values[|keys|] == id
    ensures forall i :: 0 <= i < |keys| ==> values[i] == Slot(slots, keys[i])
    ensures sql == UpdateSql(table, keys)
    ensures |keys| > 0 && NoPlaceholder(table) && (forall i :: 0 <= i < |keys| ==> NoPlaceholder(keys[i])) ==>
      CountChar('?', sql) == |values|
  {
    values := [];
    for i := 0 to |keys|
      invariant |values| == i && forall j :: 0 <= j < i ==> values[j] == Slot(slots, keys[j])
    {
      values := values + [Slot(slots, keys[i])];
    }
    values := values + [id];
    sql := "update `" + table + "` set `" + Join(keys, "` = ?, `") + "` = ? where `id` = ?";
    if |keys| > 0 && NoPlaceholder(table) && (forall i :: 0 <= i < |keys| ==> NoPlaceholder(keys[i])) {
      UpdateCount(table, keys);
    }
  }

  /// The fixed text of the update statement: the separator between columns
  /// holds one placeholder, the tail two.
  lemma UpdateTextCounts()
    ensures CountChar('?', "update `") == 0 && CountChar('?', "` set `") == 0
    ensures CountChar('?', "` = ?, `") == 1 && CountChar('?', "` = ? where `id` = ?") == 2
  {
    UpdateTextFree('?');
    SeparatorCount();
    TailCount();
  }

  lemma UpdateTextFree(q: char)
    requires q == '?'
    ensures CountChar(q, "update `") == 0 && CountChar(q, "` set `") == 0
  {
    CountCharNone(q, "update `");
    CountCharNone(q, "` set `");
  }

  lemma SeparatorCount()
    ensures CountChar('?', "` = ?, `") == 1
  {
    CountCharNone('?', "` = ");
    CountCharNone('?', ", `");
    CountCharAppend('?', "` = ", "?");
    CountCharAppend('?', "` = ?", ", `");
  }

  lemma TailCount()
    ensures CountChar('?', "` = ? where `id` = ?") == 2
  {
    TailPieces('?');
    assert "` = ? where `id` = ?" == "` = " + ['?'] + " where `id` = " + ['?'];
  }

  lemma TailPieces(q: char)
    requires q == '?'
    ensures CountChar(q, "` = " + [q] + " where `id` = " + [q]) == 2
  {
    CountCharNone(q, "` = ");
    CountCharNone(q, " where `id` = ");
    TwoMarks(q, "` = ", " where `id` = ");
  }

  lemma TwoMarks(q: char, a: string, b: string)
    requires CountChar(q, a) == 0 && CountChar(q, b) == 0
    ensures CountChar(q, a + [q] + b + [q]) == 2
  {
    CountCharAppend(q, a, [q]);
    CountCharAppend(q, a + [q], b);
    CountCharAppend(q, a + [q] + b, [q]);
  }

  /// One placeholder per changed column, and one for the id.
  lemma UpdateCount(table: string, keys: seq<string>)
    requires |keys| > 0 && NoPlaceholder(table) && forall i :: 0 <= i < |keys| ==> NoPlaceholder(keys[i])
    ensures CountChar('?', UpdateSql(table, keys)) == |keys| + 1
  {
    NamesFree(table, keys);
    ColumnsCount(keys);
    UpdateTextCounts();
    UpdateShape('?', table, Join(keys, "` = ?, `"), |keys| - 1);
  }

  /// `k1` = ?, `k2` = ?, ... `kn`: one placeholder between every two columns.
  lemma ColumnsCount(keys: seq<string>)
    requires |keys| > 0 && forall i :: 0 <= i < |keys| ==> CountChar('?', keys[i]) == 0
    ensures CountChar('?', Join(keys, "` = ?, `")) == |keys| - 1
  {
    SeparatorCount();
    CountCharJoin('?', keys, "` = ?, `", 1);
  }

  lemma UpdateShape(q: char, table: string, cols: string, n: nat)
    requires q == '?'
    requires CountChar(q, table) == 0 && CountChar(q, cols) == n
    requires CountChar(q, "update `") == 0 && CountChar(q, "` set `") == 0 && CountChar(q, "` = ? where `id` = ?") == 2
    ensures CountChar(q, "update `" + table + "` set `" + cols + "` = ? where `id` = ?") == n + 2
  {
    FivePieces(q, "update `", table, "` set `", cols, "` = ? where `id` = ?");
  }

  lemma FivePieces(q: char, s1: string, s2: string, s3: string, s4: string, s5: string)
    ensures CountChar(q, s1 + s2 + s3 + s4 + s5) ==
      CountChar(q, s1) + CountChar(q, s2) + CountChar(q, s3) + CountChar(q, s4) + CountChar(q, s5)
  {
    CountCharAppend(q, s1, s2);
    CountCharAppend(q, s1 + s2, s3);
    CountCharAppend(q, s1 + s2 + s3, s4);
    CountCharAppend(q, s1 + s2 + s3 + s4, s5);
  }

  /// What `save` leads to.
  datatype SaveOutcome =
    | NothingToSave                             // `_onSave` on the next tick: the model is delivered
    | Unfinished                                // a custom validator has not answered yet
    | ValidationThrew(message: string)          // the exception leaves `save`
    | Invalid(handler: Option<nat>, fields: Record) // to `validationError` when one is set, else to `_error`
    | Written(insert: bool, sql: string, values: seq<Value>) // `_onSave`: the model is delivered
    | WriteFailed(insert: bool, sql: string, values: seq<Value>, err: Error) // to `_error`

  /// The reserved-word checks of `setModel`: neither a method nor a field may
  /// be called `definition`.
  function CheckDefinition(def: Definition): (r: Result<Unit>)
    ensures r.Ok? <==> "definition" !in def.methods && "definition" !in def.fields
  {
    if "definition" in def.methods || "definition" in def.fields then
      Err(Raised("Invalid model definition provided. \"definition\" is a reserved word"))
    else Ok(Unit)
  }

  class Model {
    const def: Definition
    var slots: Record            // the `_<field>` properties
    var own: Record              // plain properties set outside the field accessors
    var dirtyKeys: seq<string>   // the keys of `_updated_fields`, in the order they were first set
    var dirty: map<string, Value> // `_updated_fields`

    ghost predicate Valid()
      reads this
    {
      && Distinct(dirtyKeys)
      && (forall k :: k in dirty <==> k in dirtyKeys)
      && AllDefined(def, dirtyKeys)
    }

    /// `new Model(data)` for data the conversion accepts; nothing is dirty
    /// once construction is over.
    constructor (d: Definition, data: Record)
      requires FixData(d, data).Ok?
      ensures def == d && slots == FixData(d, data).value && own == map[]
      ensures dirtyKeys == [] && dirty == map[] && Valid()
    {
      def, slots, own := d, FixData(d, data).value, map[];
      dirtyKeys, dirty := [], map[];
    }

    /// `model[key]`: a defined field reads its slot, anything else a plain
    /// property.
    function Read(key: string): Value
      reads this
    {
      if key in def.fields then Slot(slots, key) else Slot(own, key)
    }

    /// The data a model of this definition is delivered as.
    function Snapshot(): Value
      reads this
    {
      Obj(slots)
    }

    /// `dataObject()`: exactly the defined fields, read through their
    /// accessors; a field called `definition` throws.
    function DataObject(): (r: Result<Record>)
      reads this
      ensures r.Err? <==> "definition" in def.fields
      ensures r.Ok? ==> r.value.Keys == def.fields.Keys && forall f :: f in def.fields ==> r.value[f] == Read(f)
    {
      if "definition" in def.fields then Err(Raised("Invalid model definition provided. \"definition\" is a reserved word"))
      else Ok(map f | f in def.fields :: Read(f))
    }

    method MarkDirty(key: string, mark: Value)
      requires Valid() && key in def.fields
      modifies this`dirty, this`dirtyKeys
      ensures Valid()
      ensures dirty == old(dirty)[key := mark]
      ensures dirtyKeys == if key in old(dirty) then old(dirtyKeys) else old(dirtyKeys) + [key]
    {
      if key !in dirty {
        dirtyKeys := dirtyKeys + [key];
      }
      dirty := dirty[key := mark];
    }

    /// `model[key] = value`. The default setter stores the value and records
    /// it as changed; a custom setter records `true` and runs the caller's
    /// function, which writes `customEffect` to the slot if anything.
    /// Anything but a defined field becomes a plain property.
    method Set(key: string, value: Value, customEffect: Option<Value>)
      requires Valid()
      modifies this`slots, this`own, this`dirty, this`dirtyKeys
      ensures Valid()
      ensures key !in def.fields ==>
        own == old(own)[key := value] && slots == old(slots) &&
        dirty == old(dirty) && dirtyKeys == old(dirtyKeys)
      ensures key in def.fields ==>
        own == old(own) &&
        dirtyKeys == (if key in old(dirty) then old(dirtyKeys) else old(dirtyKeys) + [key])
      ensures key in def.fields && !def.fields[key].customSet ==>
        slots == old(slots)[key := value] && dirty == old(dirty)[key := value] && Read(key) == value
      ensures key in def.fields && def.fields[key].customSet ==>
        dirty == old(dirty)[key := Bool(true)] &&
        slots == (if customEffect.Some? then old(slots)[key := customEffect.value] else old(slots))
      ensures forall k :: k != key ==> Read(k) == old(Read(k))
    {
      if key !in def.fields {
        own := own[key := value];
      } else if def.fields[key].customSet {
        MarkDirty(key, Bool(true));
        if customEffect.Some? {
          slots := slots[key := customEffect.value];
        }
      } else {
        MarkDirty(key, value);
        slots := slots[key := value];
      }
    }

    /// `_updated_fields = []`.
    method ClearDirty()
      modifies this`dirty, this`dirtyKeys
      ensures dirty == map[] && dirtyKeys == []
    {
      dirty, dirtyKeys := map[], [];
    }

    /// `save()`, with the asynchronous steps run in order. `custom` answers
    /// for the custom validators, `validationHandler` is the request's
    /// `validationError` handler when the verdict arrives, and `insertId` is
    /// the id the database assigns to an inserted row.
    method Save(db: SqlStore, custom: (string, Value) -> Option<Value>, validationHandler: Option<nat>, insertId: Value)
      returns (out: SaveOutcome)
      requires Valid()
      modifies this`slots, this`own, this`dirty, this`dirtyKeys, db`rows, db`queries
      ensures Valid()
      ensures old(dirtyKeys) == [] ==> out == NothingToSave
      ensures !out.Written? && !out.WriteFailed? ==>
        slots == old(slots) && dirty == old(dirty) && dirtyKeys == old(dirtyKeys) && own == old(own) &&
        db.rows == old(db.rows) && db.queries == old(db.queries)
      ensures old(dirtyKeys) != [] ==>
        var v := VerdictOf(def, old(dirtyKeys), old(slots), custom);
        && (v == Waiting ==> out == Unfinished)
        && (v.Threw? ==> out == ValidationThrew(v.message))
        && (v.Complete? && v.invalid != map[] ==> out == Invalid(validationHandler, v.invalid))
        && (v == Complete(map[]) ==> out.Written? || out.WriteFailed?)
      ensures out.WriteFailed? ==>
        db.failure.Some? && out.err == StoreError(db.failure.value) &&
        slots == old(slots) && dirty == old(dirty) && dirtyKeys == old(dirtyKeys) && own == old(own) &&
        db.rows == old(db.rows) && db.queries == old(db.queries) + 1
      ensures out.Written? || out.WriteFailed? ==>
        old(dirtyKeys) != [] && VerdictOf(def, old(dirtyKeys), old(slots), custom) == Complete(map[]) &&
        out.insert == IsNullish(old(Read("id"))) &&
        (|out.values| == |old(dirtyKeys)| + (if out.insert then 0 else 1)) &&
        (forall i :: 0 <= i < |old(dirtyKeys)| ==> out.values[i] == Slot(old(slots), old(dirtyKeys)[i])) &&
        (!out.insert ==> out.values[|old(dirtyKeys)|] == old(Read("id")))
      ensures out.Written? ==> dirty == map[] && dirtyKeys == [] && db.queries == old(db.queries) + 1 && db.failure.None?
      ensures out.Written? && out.insert ==>
        db.rows == old(db.rows) + [InsertedRow(old(dirtyKeys), old(slots), insertId)] &&
        ("id" in def.fields && !def.fields["id"].customSet ==> Read("id") == insertId)
      ensures out.Written? && !out.insert ==>
        db.rows == UpdatedRows(old(db.rows), ChangedColumns(old(dirtyKeys), old(slots)), old(Read("id"))) &&
        slots == old(slots) && own == old(own)
    {
      if |dirtyKeys| == 0 {
        return NothingToSave;
      }
      var v := InlineValidate(def, dirtyKeys, slots, custom);
      if v.Waiting? {
        return Unfinished;
      } else if v.Threw? {
        return ValidationThrew(v.message);
      } else if v.invalid != map[] {
        return Invalid(validationHandler, v.invalid);
      }
      out := Write(db, insertId);
    }

    /// The write `save` sends once the changed fields passed validation: an
    /// insert when the model has no id yet, an update of its row otherwise.
    method Write(db: SqlStore, insertId: Value) returns (out: SaveOutcome)
      requires Valid() && dirtyKeys != []
      modifies this`slots, this`own, this`dirty, this`dirtyKeys, db`rows, db`queries
      ensures Valid()
      ensures out.Written? || out.WriteFailed?
      ensures out.WriteFailed? ==>
        db.failure.Some? && out.err == StoreError(db.failure.value) &&
        slots == old(slots) && dirty == old(dirty) && dirtyKeys == old(dirtyKeys) && own == old(own) &&
        db.rows == old(db.rows) && db.queries == old(db.queries) + 1
      ensures out.insert == IsNullish(old(Read("id")))
      ensures out.sql == if out.insert then InsertSql(def.table, old(dirtyKeys)) else UpdateSql(def.table, old(dirtyKeys))
      ensures |out.values| == |old(dirtyKeys)| + (if out.insert then 0 else 1)
      ensures forall i :: 0 <= i < |old(dirtyKeys)| ==> out.values[i] == Slot(old(slots), old(dirtyKeys)[i])
      ensures !out.insert ==> out.values[|old(dirtyKeys)|] == old(Read("id"))
      ensures out.Written? ==> dirty == map[] && dirtyKeys == [] && db.queries == old(db.queries) + 1 && db.failure.None?
      ensures out.Written? && out.insert ==>
        db.rows == old(db.rows) + [InsertedRow(old(dirtyKeys), old(slots), insertId)] &&
        ("id" in def.fields && !def.fields["id"].customSet ==> Read("id") == insertId)
      ensures out.Written? && !out.insert ==>
        db.rows == UpdatedRows(old(db.rows), ChangedColumns(old(dirtyKeys), old(slots)), old(Read("id"))) &&
        slots == old(slots) && own == old(own)
    {
      var keys := dirtyKeys;
      var id := Read("id");
      if IsNullish(id) {
        var sql, values := BuildInsert(def.table, keys, slots);
        var r := db.Insert(InsertedRow(keys, slots, insertId));
        if r.Err? {
          return WriteFailed(true, sql, values, r.error);
        }
        Set("id", insertId, None);
        ClearDirty();
        out := Written(true, sql, values);
      } else {
        var sql, values := BuildUpdate(def.table, keys, slots, id);
        var r := db.UpdateWhereId(ChangedColumns(keys, slots), id);
        if r.Err? {
          return WriteFailed(false, sql, values, r.error);
        }
        ClearDirty();
        out := Written(false, sql, values);
      }
    }

    /// `delete()`: the row goes first; only once the database confirmed is
    /// the id set to null, through its setter, so the id is then marked as
    /// changed.
    method Delete(db: SqlStore) returns (r: Result<Value>)
      requires Valid()
      modifies this`slots, this`own, this`dirty, this`dirtyKeys, db`rows, db`queries
      ensures Valid()
      ensures db.queries == old(db.queries) + 1
      ensures r.Err? <==> db.failure.Some?
      ensures r.Err? ==>
        slots == old(slots) && own == old(own) && dirty == old(dirty) &&
        dirtyKeys == old(dirtyKeys) && db.rows == old(db.rows)
      ensures r.Ok? ==>
        r.value == Null && db.rows == RowsWithoutId(old(db.rows), old(Read("id"))) &&
        ("id" in def.fields && !def.fields["id"].customSet ==> Read("id") == Null && dirty == old(dirty)["id" := Null]) &&
        ("id" !in def.fields ==> Read("id") == Null && dirty == old(dirty))
    {
      var res := db.DeleteWhereId(Read("id"));
      if res.Err? {
        return Err(res.error);
      }
      Set("id", Null, None);
      r := Ok(Null);
    }
  }

  /// The row an insert of the changed columns creates; the database assigns
  /// the id.
  function InsertedRow(keys: seq<string>, slots: Record, insertId: Value): Record {
    ChangedColumns(keys, slots)["id" := insertId]
  }

  /// The changed columns with their values.
  function ChangedColumns(keys: seq<string>, slots: Record): (r: Record)
    ensures r.Keys == set k | k in keys
    ensures forall i :: 0 <= i < |keys| ==> r[keys[i]] == Slot(slots, keys[i])
  {
    map k | k in keys :: Slot(slots, k)
  }

  /// The plain module's `collection(sql, params)` on the rows the statement
  /// returns: every row as a model, in order; a row the constructor rejects
  /// fails the list.
  function ModelsOf(def: Definition, rows: seq<Record>): (r: Result<seq<Value>>)
    ensures r.Ok? <==> forall i :: 0 <= i < |rows| ==> FixData(def, rows[i]).Ok?
    ensures r.Ok? ==> |r.value| == |rows| && forall i :: 0 <= i < |rows| ==> Ok(r.value[i]) == ModelValue(def, rows[i])
    decreases |rows|
  {
    if rows == [] then Ok([])
    else
      var rest := ModelsOf(def, rows[1..]);
      assert forall i :: 1 <= i < |rows| ==> rows[1..][i - 1] == rows[i];
      match ModelValue(def, rows[0])
      case Err(e) => Err(e)
      case Ok(m) => if rest.Err? then Err(rest.error) else Ok([m] + rest.value)
  }

  /// When every row before the `i`th converts and the `i`th does not, the
  /// conversion of the list fails with the `i`th row's error.
  lemma {:induction false} ModelsOfFirstError(def: Definition, rows: seq<Record>, i: nat)
    requires i < |rows| && ModelValue(def, rows[i]).Err?
    requires forall j :: 0 <= j < i ==> ModelValue(def, rows[j]).Ok?
    ensures ModelsOf(def, rows) == Err(ModelValue(def, rows[i]).error)
    decreases i
  {
    if i > 0 {
      ModelsOfFirstError(def, rows[1..], i - 1);
    }
  }

  /// The model module of one definition: `load` and `collection`.
  class ModelModule {
    const def: Definition
    const db: SqlStore

    constructor (d: Definition, store: SqlStore)
      requires CheckDefinition(d).Ok?
      ensures def == d && db == store
    {
      def, db := d, store;
    }

    /// `load(value, field)`: the first row whose `field` (by default `id`)
    /// equals `value`, delivered as a model, or null when there is none.
    method Load(value: Value, field: Value) returns (r: Result<Value>)
      modifies db`queries
      ensures db.queries == old(db.queries) + 1
      ensures db.failure.Some? ==> r == Err(StoreError(db.failure.value))
      ensures db.failure.None? ==>
        var found := FirstMatch(db.rows, if field.Str? then field.s else "id", value);
        (found.None? ==> r == Ok(Null)) && (found.Some? ==> r == ModelValue(def, found.value))
    {
      var name := if field.Str? then field.s else "id";
      var rows := db.SelectWhere(name, value);
      if rows.Err? {
        return Err(rows.error);
      }
      if rows.value.None? {
        return Ok(Null);
      }
      r := ModelValue(def, rows.value.value);
    }

    /// `collection(sql, params)`: every row the statement returns, as a
    /// model, in the order returned. `answer` is the statement's result.
    method Collection(answer: seq<Record>) returns (r: Result<seq<Value>>)
      modifies db`queries
      ensures db.queries == old(db.queries) + 1
      ensures db.failure.Some? ==> r == Err(StoreError(db.failure.value))
      ensures db.failure.None? ==> r == ModelsOf(def, answer)
    {
      var rows := db.Query(Ok(answer));
      if rows.Err? {
        return Err(rows.error);
      }
      var models: seq<Value> := [];
      for i := 0 to |answer|
        invariant |models| == i && forall j :: 0 <= j < i ==> Ok(models[j]) == ModelValue(def, answer[j])
      {
        var m := ModelValue(def, answer[i]);
        if m.Err? {
          ModelsOfFirstError(def, answer, i);
          return Err(m.error);
        }
        models := models + [m.value];
      }
      r := Ok(models);
      assert models == ModelsOf(def, answer).value;
    }
  }

  /// `setModel(definition)`: the module exists only for a definition the
  /// reserved-word checks accept.
  method SetModel(d: Definition, store: SqlStore) returns (r: Result<ModelModule>)
    ensures r.Err? <==> CheckDefinition(d).Err?
    ensures r.Ok? ==> r.value.def == d && r.value.db == store
  {
    var check := CheckDefinition(d);
    if check.Err? {
      return Err(check.error);
    }
    var m := new ModelModule(d, store);
    r := Ok(m);
  }

  /// `new Model(data)`.
  method NewModel(d: Definition, data: Record) returns (r: Result<Model>)
    ensures r.Err? <==> FixData(d, data).Err?
    ensures r.Ok? ==>
      fresh(r.value) && r.value.def == d && r.value.slots == FixData(d, data).value &&
      r.value.dirty == map[] && r.value.dirtyKeys == [] && r.value.Valid()
  {
    var fixed := FixData(d, data);
    if fixed.Err? {
      return Err(fixed.error);
    }
    var m := new Model(d, data);
    r := Ok(m);
  }
}
