/// The entity definition a model module is configured with (`setModel`), and
/// the field type rules both validators share.
module Schema {
  import opened Js

  /// One entry of `definition.fields`. `customSet` and `custom` say whether the
  /// entry carries a `set` function and a `custom` validator; the code of those
  /// functions is the caller's. `assignTo` and `modelModule` are the preload
  /// association metadata (`assign_to` and `model_module`; a module is an
  /// object value).
  datatype FieldDef = FieldDef(
    typ: string,
    nullable: bool,
    length: Option<int>,
    customSet: bool,
    custom: bool,
    assignTo: Value,
    modelModule: Value)

  /// `definition`: the table, the fields in declaration order, the names of
  /// the extra model methods, and the named sort presets.
  datatype Definition = Definition(
    table: string,
    fieldOrder: seq<string>,
    fields: map<string, FieldDef>,
    methods: seq<string>,
    sorts: map<string, Value>)

  /// A definition written as an object literal: every field named once, in
  /// declaration order.
  predicate WellFormed(def: Definition) {
    && (forall i, j :: 0 <= i < j < |def.fieldOrder| ==> def.fieldOrder[i] != def.fieldOrder[j])
    && (forall f :: f in def.fields ==> f in def.fieldOrder)
    && (forall i :: 0 <= i < |def.fieldOrder| ==> def.fieldOrder[i] in def.fields)
  }

  /// `fix_data_type`: fields of type `id` and `int` are converted with `Number`.
  function FixDataType(fd: FieldDef, value: Value): (r: Value)
    ensures fd.typ == "id" || fd.typ == "int" ==> r.Num? || r.NaN?
    ensures fd.typ != "id" && fd.typ != "int" ==> r == value
  {
    if fd.typ == "id" || fd.typ == "int" then ToNumber(value) else value
  }

  /// The type aliases of both validators: the checked type and its default length.
  function Alias(typ: string): (string, Option<int>) {
    if typ == "email" then ("string", Some(256))
    else if typ == "id" then ("number", Some(10))
    else if typ == "ip" then ("string", Some(15))
    else (typ, None)
  }

  /// What checking one field leads to: the value handed on to a custom
  /// validator (or simply accepted), a message, or an exception.
  datatype Check = Pass(data: Value) | Fail(message: string) | Throw(message: string)

  /// `length && ...`: a missing or zero length switches the length test off.
  predicate LengthSet(length: Option<int>) {
    length.Some? && length.value != 0
  }

  /// The `switch (type)` both validators share. The only difference between
  /// them is the `date` branch: the standalone validator calls a `util_module`
  /// it never imported (`dateThrows`); the inline one calls `util.isDate`, which
  /// no value of this model satisfies.
  function TypeCheck(typ: string, length: Option<int>, data: Value, dateThrows: bool): (c: Check)
    ensures c == Fail("invalid length") <==>
      ((typ == "string" || (typ == "number" && IsNumeric(data))) &&
       LengthSet(length) && Utf16Length(ToStr(data)) > length.value)
    ensures c == Fail("invalid number") <==> typ == "number" && !IsNumeric(data)
    ensures c.Throw? <==> typ != "string" && typ != "number" && (typ != "date" || dateThrows)
    ensures c.Pass? ==> (typ == "string" && c.data == Str(ToStr(data))) || (typ == "number" && c.data == data)
  {
    if typ == "string" then
      var text := ToStr(data);
      if LengthSet(length) && Utf16Length(text) > length.value then Fail("invalid length") else Pass(Str(text))
    else if typ == "number" then
      if !IsNumeric(data) then Fail("invalid number")
      else if LengthSet(length) && Utf16Length(ToStr(data)) > length.value then Fail("invalid length")
      else Pass(data)
    else if typ == "date" then
      if dateThrows then Throw("ReferenceError: util_module is not defined") else Fail("invalid date")
    else
      Throw("invalid validation type")
  }
}
