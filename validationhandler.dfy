/// The standalone validation handler: it copies a model's changed fields
/// into a pending dictionary, checks each field (nullability, the type and
/// its length, then the field's custom validator), and crosses every field
/// off as it reports. When nothing is pending any more, the final handler
/// receives the invalid fields, or null when there are none.
module Validation {
  import opened Js
  import opened Schema
  import opened Models

  // ----- the rules for one field -----

  /// `validateField` on one value: the alias gives the type and the only
  /// length the standalone validator knows (a definition's own `length` is
  /// not consulted); a nullable field treats undefined as null and still runs
  /// the type checks; a non-nullable field holding null or undefined fails
  /// without them. Date fields throw, as `util_module` is not defined.
  function StandaloneCheck(fd: FieldDef, data: Value): Check {
    var (typ, length) := Alias(fd.typ);
    if fd.nullable then TypeCheck(typ, length, if data.Undefined? then Null else data, true)
    else if IsNullish(data) then Fail("can not be null")
    else TypeCheck(typ, length, data, true)
  }

  /// A non-nullable field holding null or undefined fails with "can not be
  /// null" whatever its type; for a nullable field undefined is read as null.
  lemma NullRule(fd: FieldDef, data: Value)
    ensures !fd.nullable && IsNullish(data) ==> StandaloneCheck(fd, data) == Fail("can not be null")
    ensures fd.nullable ==> StandaloneCheck(fd, Undefined) == StandaloneCheck(fd, Null)
    ensures !IsNullish(data) ==> StandaloneCheck(fd, data) == StandaloneCheck(fd.(nullable := !fd.nullable), data)
  {
  }

  /// Only the alias decides the length: two definitions that differ in their
  /// `length` alone are checked alike.
  lemma LengthIgnored(fd: FieldDef, length: Option<int>, data: Value)
    ensures StandaloneCheck(fd, data) == StandaloneCheck(fd.(length := length), data)
  {
  }

  /// The aliases' limits: an email holds at most 256 characters, an ip
  /// address at most 15, an id is a number of at most ten characters.
  lemma AliasLimits(fd: FieldDef, data: Value)
    requires !IsNullish(data)
    ensures fd.typ == "email" ==> (StandaloneCheck(fd, data) == Fail("invalid length") <==> Utf16Length(ToStr(data)) > 256)
    ensures fd.typ == "ip" ==> (StandaloneCheck(fd, data) == Fail("invalid length") <==> Utf16Length(ToStr(data)) > 15)
    ensures fd.typ == "id" ==> (StandaloneCheck(fd, data) == Fail("invalid number") <==> !IsNumeric(data))
    ensures fd.typ == "id" ==> (StandaloneCheck(fd, data) == Fail("invalid length") <==> IsNumeric(data) && Utf16Length(ToStr(data)) > 10)
  {
  }

  /// Lengths are UTF-16 units: eight emoji are eight characters but sixteen
  /// units, one more than an ip address may hold.
  lemma AstralIpTooLong(fd: FieldDef)
    requires fd.typ == "ip"
    ensures var s := "\U{1F600}\U{1F600}\U{1F600}\U{1F600}\U{1F600}\U{1F600}\U{1F600}\U{1F600}";
      |s| == 8 && Utf16Length(s) == 16 && StandaloneCheck(fd, Str(s)) == Fail("invalid length")
  {
    var s := "\U{1F600}\U{1F600}\U{1F600}\U{1F600}\U{1F600}\U{1F600}\U{1F600}\U{1F600}";
    assert forall k :: 0 <= k < |s| ==> s[k] == '\U{1F600}';
    assert (set k | 0 <= k < |s| && s[k] as int > 0xFFFF) == {0, 1, 2, 3, 4, 5, 6, 7};
  }

  /// A type other than string and number (after aliasing) throws for every
  /// value that reaches the type checks, `date` included.
  lemma UnknownTypeThrows(fd: FieldDef, data: Value)
    requires fd.nullable || !IsNullish(data)
    ensures StandaloneCheck(fd, data).Throw? <==> Alias(fd.typ).0 != "string" && Alias(fd.typ).0 != "number"
  {
  }

  /// A nullable field holding null is not simply accepted: a string field
  /// passes with the text "null", a number field fails; the inline validator
  /// of the model file accepts both with null.
  lemma NullableNull(fd: FieldDef)
    requires fd.nullable && fd.length.None?
    ensures Alias(fd.typ).0 == "string" ==> StandaloneCheck(fd, Null) == Pass(Str("null"))
    ensures Alias(fd.typ).0 == "number" ==> StandaloneCheck(fd, Null) == Fail("invalid number")
    ensures Alias(fd.typ).0 == "number" ==> InlineCheck(fd, Null) == Pass(Null)
  {
  }

  // ----- the handler's state -----

  /// One call the handler makes once nothing is pending: the final handler
  /// with the invalid fields (None stands for null), or the console message
  /// when no final handler was registered.
  datatype FinalCall = Final(handler: nat, invalid: Option<Record>) | NoHandler

  /// `_data` (pending fields, with their keys in insertion order),
  /// `_invalid_fields`, `_final_ready` and the calls made so far.
  datatype Pending = Pending(data: Record, order: seq<string>, invalid: Record, finalReady: Option<nat>, calls: seq<FinalCall>)

  function FinalOf(finalReady: Option<nat>, invalid: Record): (c: FinalCall)
    ensures c.NoHandler? <==> finalReady.None?
    ensures c.Final? ==> c.handler == finalReady.value && (c.invalid.None? <==> invalid == map[])
    ensures c.Final? && c.invalid.Some? ==> c.invalid.value == invalid
  {
    if finalReady.None? then NoHandler
    else Final(finalReady.value, if invalid == map[] then None else Some(invalid))
  }

  function Without(s: seq<string>, key: string): (r: seq<string>)
    ensures forall x :: x in r <==> x in s && x != key
    ensures |r| <= |s|
  {
    if s == [] then []
    else (if s[0] == key then [] else [s[0]]) + Without(s[1..], key)
  }

  /// `_ready(err, field)`: a truthy field is crossed off, a truthy error is
  /// recorded under the field's text, and an empty pending set fires.
  function ReadyOn(st: Pending, err: Value, field: Value): Pending {
    var data := if Truthy(field) then st.data - {ToStr(field)} else st.data;
    var order := if Truthy(field) then Without(st.order, ToStr(field)) else st.order;
    var invalid := if Truthy(err) then st.invalid[ToStr(field) := err] else st.invalid;
    var calls := if data == map[] then st.calls + [FinalOf(st.finalReady, invalid)] else st.calls;
    st.(data := data, order := order, invalid := invalid, calls := calls)
  }

  /// What a custom validator does with its callback: the `(err, field)` it
  /// calls back with, or None when it never calls back.
  type Custom = (string, Value) -> Option<(Value, Value)>

  const NoDefinition := "TypeError: Cannot read property 'type' of undefined"

  /// `validateField(field)` on the state, and the exception it raises if any.
  function FieldOn(def: Definition, st: Pending, field: string, custom: Custom): (Pending, Option<string>) {
    if field !in def.fields then (st, Some(NoDefinition))
    else
      var fd := def.fields[field];
      var value := if field in st.data then st.data[field] else Undefined;
      var st1 := if fd.nullable && value.Undefined? then
          st.(data := st.data[field := Null], order := if field in st.data then st.order else st.order + [field])
        else st;
      match StandaloneCheck(fd, value)
      case Throw(m) => (st1, Some(m))
      case Fail(m) => (ReadyOn(st1, Str(m), Str(field)), None)
      case Pass(d) =>
        if !fd.custom then (ReadyOn(st1, Null, Str(field)), None)
        else match custom(field, d)
          case None => (st1, None)
          case Some(answer) => (ReadyOn(st1, answer.0, answer.1), None)
  }

  /// The deferred loop of `validateFields` over the keys pending when it
  /// starts: a key crossed off meanwhile is skipped, an exception ends it.
  function TickOn(def: Definition, st: Pending, keys: seq<string>, custom: Custom): (Pending, Option<string>)
    decreases |keys|
  {
    if keys == [] then (st, None)
    else if keys[0] !in st.data then TickOn(def, st, keys[1..], custom)
    else
      var (st1, thrown) := FieldOn(def, st, keys[0], custom);
      if thrown.Some? then (st1, thrown) else TickOn(def, st1, keys[1..], custom)
  }

  // ----- the handler -----

  class ValidationHandler {
    const definition: Definition
    var data: Record
    var order: seq<string>
    var invalid: Record
    var finalReady: Option<nat>
    var calls: seq<FinalCall>

    function State(): Pending
      reads this
    {
      Pending(data, order, invalid, finalReady, calls)
    }

    /// `new ValidationHandler(model)`: the model's changed fields, each with
    /// the value of its slot, in the order they were first changed.
    constructor (model: Model)
      requires model.Valid()
      ensures definition == model.def
      ensures data.Keys == model.dirty.Keys && forall k :: k in data ==> data[k] == Slot(model.slots, k)
      ensures order == model.dirtyKeys && invalid == map[] && finalReady == None && calls == []
    {
      var collected: Record := map[];
      var i := 0;
      while i < |model.dirtyKeys|
        invariant 0 <= i <= |model.dirtyKeys|
        invariant forall k :: k in collected <==> k in model.dirtyKeys[..i]
        invariant forall k :: k in collected ==> collected[k] == Slot(model.slots, k)
      {
        var key := model.dirtyKeys[i];
        collected := collected[key := Slot(model.slots, key)];
        assert model.dirtyKeys[..i + 1] == model.dirtyKeys[..i] + [key];
        i := i + 1;
      }
      assert model.dirtyKeys[..i] == model.dirtyKeys;
      definition := model.def;
      data, order, invalid, finalReady, calls := collected, model.dirtyKeys, map[], None, [];
    }

    /// `ready(fn)`: registers the final handler.
    method SetReady(fn: nat)
      modifies this`finalReady
      ensures finalReady == Some(fn)
    {
      finalReady := Some(fn);
    }

    /// `_ready(err, field)`.
    method Ready(err: Value, field: Value)
      modifies this`data, this`order, this`invalid, this`calls
      ensures State() == ReadyOn(old(State()), err, field)
    {
      data := if Truthy(field) then data - {ToStr(field)} else data;
      order := if Truthy(field) then Without(order, ToStr(field)) else order;
      invalid := if Truthy(err) then invalid[ToStr(field) := err] else invalid;
      if data == map[] {
        calls := calls + [FinalOf(finalReady, invalid)];
      }
    }

    /// The immediate part of `validateFields`: with nothing pending, the
    /// handler reports at once.
    method ValidateFields()
      modifies this`data, this`order, this`invalid, this`calls
      ensures old(data) == map[] ==> State() == ReadyOn(old(State()), Null, Null)
      ensures old(data) != map[] ==> State() == old(State())
      ensures old(data) == map[] ==> calls == old(calls) + [FinalOf(finalReady, invalid)]
    {
      if data == map[] {
        Ready(Null, Null);
      }
    }

    /// `validateField(field)`, returning the exception it raises if any.
    method ValidateField(field: string, custom: Custom) returns (thrown: Option<string>)
      modifies this`data, this`order, this`invalid, this`calls
      ensures (State(), thrown) == FieldOn(definition, old(State()), field, custom)
    {
      if field !in definition.fields {
        return Some(NoDefinition);
      }
      var fd := definition.fields[field];
      var value := if field in data then data[field] else Undefined;
      if fd.nullable && value.Undefined? {
        if field !in data {
          order := order + [field];
        }
        data := data[field := Null];
      }
      thrown := None;
      match StandaloneCheck(fd, value)
      case Throw(m) =>
        thrown := Some(m);
      case Fail(m) =>
        Ready(Str(m), Str(field));
      case Pass(d) =>
        if !fd.custom {
          Ready(Null, Str(field));
        } else {
          var answer := custom(field, d);
          if answer.Some? {
            Ready(answer.value.0, answer.value.1);
          }
        }
    }

    /// The callback `validateFields` leaves for the next tick: every key
    /// pending at that point that is still pending when its turn comes.
    method Tick(custom: Custom) returns (thrown: Option<string>)
      modifies this`data, this`order, this`invalid, this`calls
      ensures (State(), thrown) == TickOn(definition, old(State()), old(order), custom)
    {
      var keys := order;
      var i := 0;
      while i < |keys|
        invariant 0 <= i <= |keys|
        invariant TickOn(definition, old(State()), keys, custom) == TickOn(definition, State(), keys[i..], custom)
      {
        assert keys[i..][1..] == keys[i + 1..];
        if keys[i] in data {
          var t := ValidateField(keys[i], custom);
          if t.Some? {
            return t;
          }
        }
        i := i + 1;
      }
      thrown := None;
    }
  }

  // ----- completion -----

  /// What a field reports to `_ready`: its message, the error its custom
  /// validator calls back with, or a falsy value when it passed.
  function Reported(def: Definition, key: string, value: Value, custom: Custom): Value
    requires key in def.fields
  {
    match StandaloneCheck(def.fields[key], value)
    case Fail(m) => Str(m)
    case Pass(d) =>
      if def.fields[key].custom && custom(key, d).Some? then custom(key, d).value.0 else Null
    case Throw(_) => Null
  }

  /// A field that reports once, under its own name, without throwing: a
  /// defined field with a non-empty name whose custom validator, when it is
  /// consulted, calls back naming the field.
  predicate Cooperative(def: Definition, key: string, value: Value, custom: Custom) {
    && key in def.fields && key != ""
    && !StandaloneCheck(def.fields[key], value).Throw?
    && (def.fields[key].custom && StandaloneCheck(def.fields[key], value).Pass? ==>
          var answer := custom(key, StandaloneCheck(def.fields[key], value).data);
          answer.Some? && answer.value.1 == Str(key))
  }

  predicate AllCooperative(def: Definition, data: Record, custom: Custom) {
    forall k {:trigger data[k]} :: k in data ==> Cooperative(def, k, data[k], custom)
  }

  /// Crossing fields off keeps the others cooperative.
  lemma CooperativeKept(def: Definition, data: Record, key: string, custom: Custom)
    requires AllCooperative(def, data, custom)
    ensures AllCooperative(def, data - {key}, custom)
  {
  }

  /// The invalid fields the handler should end up with: each rejected key
  /// with the error it reported.
  function Expected(def: Definition, data: Record, keys: seq<string>, custom: Custom): (e: Record)
    ensures forall k :: k in e ==> k in keys
    decreases |keys|
  {
    if keys == [] then map[]
    else
      var rest := Expected(def, data, keys[1..], custom);
      var key := keys[0];
      if key in data && key in def.fields && Truthy(Reported(def, key, data[key], custom)) then
        rest[key := Reported(def, key, data[key], custom)]
      else rest
  }

  /// The expected invalid fields are exactly the listed keys whose report is
  /// an error, each with that error (for distinct keys).
  lemma {:induction false} ExpectedMeaning(def: Definition, data: Record, keys: seq<string>, custom: Custom)
    requires Distinct(keys)
    ensures forall k :: k in Expected(def, data, keys, custom) <==>
      k in keys && k in data && k in def.fields && Truthy(Reported(def, k, data[k], custom))
    ensures forall k :: k in Expected(def, data, keys, custom) ==>
      Expected(def, data, keys, custom)[k] == Reported(def, k, data[k], custom)
    decreases |keys|
  {
    if keys != [] {
      DistinctTail(keys);
      ExpectedMeaning(def, data, keys[1..], custom);
      assert forall k :: k in keys <==> k == keys[0] || k in keys[1..] by {
        assert keys == [keys[0]] + keys[1..];
      }
    }
  }

  /// One cooperative field: it leaves the pending set, its error (if any) is
  /// recorded, and the final handler fires exactly when it was the last.
  lemma FieldStep(def: Definition, st: Pending, key: string, custom: Custom)
    requires key in st.data && Cooperative(def, key, st.data[key], custom)
    ensures var r := FieldOn(def, st, key, custom).0;
      var rep := Reported(def, key, st.data[key], custom);
      && FieldOn(def, st, key, custom).1.None?
      && r.data == st.data - {key}
      && r.finalReady == st.finalReady
      && r.invalid == (if Truthy(rep) then st.invalid[key := rep] else st.invalid)
      && r.calls == (if r.data == map[] then st.calls + [FinalOf(st.finalReady, r.invalid)] else st.calls)
  {
    var fd := def.fields[key];
    var value := st.data[key];
    assert ToStr(Str(key)) == key && Truthy(Str(key));
    var st1 := if fd.nullable && value.Undefined? then st.(data := st.data[key := Null]) else st;
    assert st1.data - {key} == st.data - {key};
    var c := StandaloneCheck(fd, value);
    if c.Fail? {
      assert FieldOn(def, st, key, custom) == (ReadyOn(st1, Str(c.message), Str(key)), None);
    } else if !fd.custom {
      assert FieldOn(def, st, key, custom) == (ReadyOn(st1, Null, Str(key)), None);
    } else {
      var answer := custom(key, c.data).value;
      assert FieldOn(def, st, key, custom) == (ReadyOn(st1, answer.0, Str(key)), None);
    }
  }

  lemma DistinctTail(keys: seq<string>)
    requires keys != [] && Distinct(keys)
    ensures Distinct(keys[1..]) && keys[0] !in keys[1..]
    ensures forall k :: k in keys <==> k == keys[0] || k in keys[1..]
  {
    assert keys == [keys[0]] + keys[1..];
    forall i, j | 0 <= i < j < |keys[1..]| ensures keys[1..][i] != keys[1..][j] {
      assert keys[1..][i] == keys[i + 1] && keys[1..][j] == keys[j + 1];
    }
    forall j | 0 <= j < |keys[1..]| ensures keys[1..][j] != keys[0] {
      assert keys[1..][j] == keys[j + 1];
    }
  }

  /// The expected errors depend only on the values of the listed keys.
  lemma {:induction false} ExpectedSameValues(def: Definition, d1: Record, d2: Record, keys: seq<string>, custom: Custom)
    requires forall k :: k in keys ==> (k in d1 <==> k in d2) && (k in d1 ==> d1[k] == d2[k])
    ensures Expected(def, d1, keys, custom) == Expected(def, d2, keys, custom)
    decreases |keys|
  {
    if keys != [] {
      assert keys[0] in keys;
      assert forall k :: k in keys[1..] ==> k in keys;
      ExpectedSameValues(def, d1, d2, keys[1..], custom);
    }
  }

  /// The loop's first pending key is validated, then the rest of the loop
  /// runs on the resulting state.
  lemma TickStep(def: Definition, st: Pending, keys: seq<string>, custom: Custom)
    requires keys != [] && keys[0] in st.data && FieldOn(def, st, keys[0], custom).1.None?
    ensures TickOn(def, st, keys, custom) == TickOn(def, FieldOn(def, st, keys[0], custom).0, keys[1..], custom)
  {
  }

  /// Validating every pending field, each of which reports once under its
  /// own name, empties the pending set, records exactly the rejected fields
  /// with their errors, and calls the final handler once, at the end.
  lemma {:induction false} Completion(def: Definition, st: Pending, keys: seq<string>, custom: Custom)
    requires keys != [] && Distinct(keys)
    requires forall k :: k in st.data <==> k in keys
    requires AllCooperative(def, st.data, custom)
    ensures var r := TickOn(def, st, keys, custom).0;
      && TickOn(def, st, keys, custom).1.None?
      && r.data == map[]
      && r.invalid == st.invalid + Expected(def, st.data, keys, custom)
      && r.calls == st.calls + [FinalOf(st.finalReady, r.invalid)]
    decreases |keys|
  {
    var key, rest := keys[0], keys[1..];
    assert key in st.data;
    FieldStep(def, st, key, custom);
    var s1 := FieldOn(def, st, key, custom).0;
    CooperativeKept(def, st.data, key, custom);
    TickStep(def, st, keys, custom);
    var rep := Reported(def, key, st.data[key], custom);
    DistinctTail(keys);
    var eRest := Expected(def, st.data, rest, custom);
    if rest == [] {
      assert s1.data == map[];
    } else {
      assert rest[0] in s1.data;
      assert forall k :: k in s1.data <==> k in rest;
      Completion(def, s1, rest, custom);
      ExpectedSameValues(def, s1.data, st.data, rest, custom);
      var r := TickOn(def, s1, rest, custom).0;
      ReportThenRest(st, s1, r, key, rep, eRest);
    }
  }

  /// The invalid fields and calls after the first field and after the rest
  /// add up to those after all of them.
  lemma ReportThenRest(st: Pending, s1: Pending, r: Pending, key: string, rep: Value, e: Record)
    requires key !in e
    requires s1.invalid == (if Truthy(rep) then st.invalid[key := rep] else st.invalid)
    requires s1.calls == st.calls && s1.finalReady == st.finalReady
    requires r.invalid == s1.invalid + e && r.calls == s1.calls + [FinalOf(s1.finalReady, r.invalid)]
    ensures r.invalid == st.invalid + (if Truthy(rep) then e[key := rep] else e)
    ensures r.calls == st.calls + [FinalOf(st.finalReady, r.invalid)]
  {
    if Truthy(rep) {
      assert st.invalid[key := rep] + e == st.invalid + e[key := rep];
    }
  }

  /// With nothing changed, `validateFields` reports null at once to the
  /// registered handler.
  lemma EmptyReportsNull(st: Pending)
    requires st.data == map[] && st.invalid == map[] && st.finalReady.Some?
    ensures ReadyOn(st, Null, Null).calls == st.calls + [Final(st.finalReady.value, None)]
  {
  }

  /// A custom validator is consulted only when the built-in checks pass:
  /// otherwise the field reports its message, whatever the validator would do.
  lemma CustomOnlyAfterPass(def: Definition, st: Pending, key: string, c1: Custom, c2: Custom)
    requires key in def.fields
    requires !StandaloneCheck(def.fields[key], if key in st.data then st.data[key] else Undefined).Pass?
    ensures FieldOn(def, st, key, c1) == FieldOn(def, st, key, c2)
    ensures var c := StandaloneCheck(def.fields[key], if key in st.data then st.data[key] else Undefined);
      c.Fail? ==> FieldOn(def, st, key, c1).0.invalid == st.invalid[key := Str(c.message)]
  {
    var fd := def.fields[key];
    var value := if key in st.data then st.data[key] else Undefined;
    var st1 := if fd.nullable && value.Undefined? then
        st.(data := st.data[key := Null], order := if key in st.data then st.order else st.order + [key])
      else st;
    var c := StandaloneCheck(fd, value);
    if c.Throw? {
      assert FieldOn(def, st, key, c1) == (st1, Some(c.message)) == FieldOn(def, st, key, c2);
    } else {
      assert ToStr(Str(key)) == key && Truthy(Str(key)) == (key != "");
      var r := ReadyOn(st1, Str(c.message), Str(key));
      assert FieldOn(def, st, key, c1) == (r, None) == FieldOn(def, st, key, c2);
    }
  }

  /// `new ValidationHandler(model).ready(fn).validateFields()` on a model
  /// with nothing changed: `fn` receives null at once, and the next tick has
  /// nothing to do.
  method ValidateUnchanged(model: Model, fn: nat, custom: Custom) returns (h: ValidationHandler, thrown: Option<string>)
    requires model.Valid() && model.dirtyKeys == []
    ensures thrown.None? && h.calls == [Final(fn, None)]
  {
    h := new ValidationHandler(model);
    h.SetReady(fn);
    h.ValidateFields();
    thrown := h.Tick(custom);
  }

  /// The same on a model with changed fields, each of which reports once
  /// under its own name: `fn` is called exactly once, after the last field,
  /// with exactly the rejected fields, or with null if there are none.
  method ValidateChanged(model: Model, fn: nat, custom: Custom) returns (h: ValidationHandler, thrown: Option<string>)
    requires model.Valid() && model.dirtyKeys != []
    requires forall k :: k in model.dirty ==> Cooperative(model.def, k, Slot(model.slots, k), custom)
    ensures var invalid := Expected(model.def, PendingOf(model), model.dirtyKeys, custom);
      && thrown.None? && h.data == map[] && h.invalid == invalid
      && h.calls == [Final(fn, if invalid == map[] then None else Some(invalid))]
  {
    h := new ValidationHandler(model);
    assert h.data == PendingOf(model);
    assert model.dirtyKeys[0] in h.data;
    h.SetReady(fn);
    h.ValidateFields();
    CooperativeStart(model, custom);
    CompletionFromStart(model.def, h.State(), fn, custom);
    thrown := h.Tick(custom);
  }

  /// `Completion` for the state a fresh handler is in once `ready` is set.
  lemma {:induction false} CompletionFromStart(def: Definition, st: Pending, fn: nat, custom: Custom)
    requires st.order != [] && Distinct(st.order)
    requires forall k :: k in st.data <==> k in st.order
    requires AllCooperative(def, st.data, custom)
    requires st.invalid == map[] && st.finalReady == Some(fn) && st.calls == []
    ensures Finished(TickOn(def, st, st.order, custom), Expected(def, st.data, st.order, custom), fn)
  {
    Completion(def, st, st.order, custom);
    FinishedFrom(TickOn(def, st, st.order, custom), st, Expected(def, st.data, st.order, custom), fn);
  }

  lemma FinishedFrom(r: (Pending, Option<string>), st: Pending, invalid: Record, fn: nat)
    requires st.invalid == map[] && st.finalReady == Some(fn) && st.calls == []
    requires r.1.None? && r.0.data == map[] && r.0.invalid == st.invalid + invalid
    requires r.0.calls == st.calls + [FinalOf(st.finalReady, r.0.invalid)]
    ensures Finished(r, invalid, fn)
  {
    assert st.invalid + invalid == invalid;
  }

  /// Validation ended without an exception, every field crossed off, the
  /// `invalid` fields recorded and the ready callback `fn` told of them once.
  predicate Finished(r: (Pending, Option<string>), invalid: Record, fn: nat) {
    && r.1.None? && r.0.data == map[] && r.0.invalid == invalid
    && r.0.calls == [FinalOf(Some(fn), invalid)]
  }

  lemma CooperativeStart(model: Model, custom: Custom)
    requires forall k :: k in model.dirty ==> Cooperative(model.def, k, Slot(model.slots, k), custom)
    ensures AllCooperative(model.def, PendingOf(model), custom)
  {
  }

  /// The pending data a handler starts from.
  function PendingOf(model: Model): (d: Record)
    reads model
    ensures d.Keys == model.dirty.Keys
  {
    map k | k in model.dirty :: Slot(model.slots, k)
  }
}
