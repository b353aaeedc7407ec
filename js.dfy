/// The JavaScript values the data-access layer passes around, and the few
/// coercions of the language whose results it depends on: truthiness,
/// conversion to text (string concatenation, `Array.prototype.join`,
/// property-key lookup), `Number(...)` and the numeric test of the validators.
module Js {

  datatype Option<+T> = None | Some(value: T)

  /// A JavaScript value. Floating point is not modelled: numbers are integers,
  /// and every non-numeric result of `Number(...)` is `NaN`.
  datatype Value =
    | Undefined
    | Null
    | Bool(b: bool)
    | Num(n: int)
    | NaN
    | Str(s: string)
    | Obj(props: map<string, Value>)
    | Arr(items: seq<Value>)

  /// A plain object of field name to value: a database row, a cache hash,
  /// the data of a model.
  type Record = map<string, Value>

  datatype Error =
    | StoreError(msg: string)     // an error reported by the cache or the database
    | Raised(msg: string)         // an `Error` object created by the code itself
    | InvalidFields(fields: Record) // the per-field messages of a failed validation

  /// The outcome of an operation: the value its request delivers to `ready`,
  /// or the error it delivers to `error`.
  datatype Result<+T> = Ok(value: T) | Err(error: Error)

  datatype Unit = Unit

  predicate IsNullish(v: Value) {
    v.Null? || v.Undefined?
  }

  /// JavaScript truthiness.
  predicate Truthy(v: Value) {
    match v
    case Undefined => false
    case Null => false
    case NaN => false
    case Bool(b) => b
    case Num(n) => n != 0
    case Str(s) => s != ""
    case Obj(_) => true
    case Arr(_) => true
  }

  /// `typeof v === "object"`, which holds for null as well.
  predicate TypeofObject(v: Value) {
    v.Null? || v.Obj? || v.Arr?
  }

  predicate IsDigit(c: char) {
    '0' <= c <= '9'
  }

  predicate AllDigits(s: string) {
    forall k :: 0 <= k < |s| ==> IsDigit(s[k])
  }

  function DigitChar(d: nat): (c: char)
    requires d < 10
    ensures IsDigit(c)
  {
    (('0' as int) + d) as char
  }

  function DigitValue(c: char): nat
    requires IsDigit(c)
  {
    c as int - '0' as int
  }

  /// Decimal text of a natural number, most significant digit first.
  function NatToString(n: nat): string
    decreases n
  {
    if n < 10 then [DigitChar(n)] else NatToString(n / 10) + [DigitChar(n % 10)]
  }

  function IntToString(i: int): string {
    if i < 0 then "-" + NatToString(-i) else NatToString(i)
  }

  function ParseNat(s: string): nat
    requires AllDigits(s)
  {
    if s == [] then 0 else 10 * ParseNat(s[..|s| - 1]) + DigitValue(s[|s| - 1])
  }

  /// The integers `Number(text)` recognises: an optional minus sign and digits.
  function ParseInteger(s: string): Option<int> {
    if |s| > 1 && s[0] == '-' && AllDigits(s[1..]) then Some(0 - (ParseNat(s[1..]) as int))
    else if |s| > 0 && AllDigits(s) then Some(ParseNat(s))
    else None
  }

  /// `Number(v)`.
  function ToNumber(v: Value): Value {
    match v
    case Undefined => NaN
    case Null => Num(0)
    case Bool(b) => Num(if b then 1 else 0)
    case Num(_) => v
    case NaN => NaN
    case Str(s) =>
      if s == "" then Num(0)
      else (match ParseInteger(s) case Some(n) => Num(n) case None => NaN)
    case Obj(_) => NaN
    case Arr(_) => NaN
  }

  /// `String(v)`, which is also `'' + v` and the key under which `v` is looked
  /// up when used as a property name.
  function ToStr(v: Value): string
    decreases v, 0
  {
    match v
    case Undefined => "undefined"
    case Null => "null"
    case Bool(b) => if b then "true" else "false"
    case Num(n) => IntToString(n)
    case NaN => "NaN"
    case Str(s) => s
    case Obj(_) => "[object Object]"
    case Arr(items) => Join(seq(|items|, i requires 0 <= i < |items| => JoinPart(items[i])), ",")
  }

  /// How `Array.prototype.join` writes one element: null and undefined become "".
  function JoinPart(v: Value): string
    decreases v, 1
  {
    if IsNullish(v) then "" else ToStr(v)
  }

  function JoinParts(vs: seq<Value>): (r: seq<string>)
    ensures |r| == |vs|
  {
    seq(|vs|, i requires 0 <= i < |vs| => JoinPart(vs[i]))
  }

  /// `parts.join(sep)`.
  function Join(parts: seq<string>, sep: string): string {
    if |parts| == 0 then ""
    else if |parts| == 1 then parts[0]
    else parts[0] + sep + Join(parts[1..], sep)
  }

  /// `v[name]` on a value known not to be null or undefined; only objects
  /// carry properties in this model.
  function Get(v: Value, name: string): Value {
    if v.Obj? && name in v.props then v.props[name] else Undefined
  }

  /// `v[name]` on any value: reading a property of null or undefined throws.
  function Prop(v: Value, name: string): (r: Result<Value>)
    ensures r.Err? <==> IsNullish(v)
    ensures r.Ok? ==> r.value == Get(v, name)
  {
    if IsNullish(v) then Err(Raised("TypeError: Cannot read property '" + name + "' of " + ToStr(v)))
    else Ok(Get(v, name))
  }

  /// The numeric test of the validators, `!isNaN(parseFloat(v)) && isFinite(v)`,
  /// on the integers of this model.
  predicate IsNumeric(v: Value) {
    match v
    case Num(_) => true
    case Str(s) => ParseInteger(s).Some?
    case _ => false
  }

  /// `String.prototype.length`: JavaScript counts UTF-16 code units, so a
  /// character outside the Basic Multilingual Plane (a surrogate pair) counts
  /// twice.
  function Utf16Length(s: string): nat {
    |s| + |set k | 0 <= k < |s| && s[k] as int > 0xFFFF|
  }

  /// The number of occurrences of `c` in `s`.
  function CountChar(c: char, s: string): nat {
    if s == [] then 0 else (if s[0] == c then 1 else 0) + CountChar(c, s[1..])
  }

  // ----- lemmas -----

  lemma {:induction false} NatToStringDigits(n: nat)
    ensures |NatToString(n)| >= 1 && AllDigits(NatToString(n))
    ensures ParseNat(NatToString(n)) == n
    decreases n
  {
    if n >= 10 {
      NatToStringDigits(n / 10);
      var s := NatToString(n);
      assert s[..|s| - 1] == NatToString(n / 10);
    }
  }

  /// Writing an integer as text and reading it back with `Number` gives the
  /// integer: ids stored as text in the cache come back as the same numbers.
  lemma ToNumberOfText(i: int)
    ensures ToNumber(Str(IntToString(i))) == Num(i)
  {
    var s := IntToString(i);
    if i < 0 {
      var t := NatToString(-i);
      NatToStringDigits(-i);
      assert s == "-" + t;
      assert s[1..] == t;
      assert ParseInteger(s) == Some(i);
    } else {
      NatToStringDigits(i);
      assert IsDigit(s[0]);
      assert ParseInteger(s) == Some(i);
    }
  }

  /// `Number` is idempotent: once converted, a value converts to itself.
  lemma ToNumberIdempotent(v: Value)
    ensures ToNumber(ToNumber(v)).Num? || ToNumber(ToNumber(v)).NaN?
    ensures ToNumber(ToNumber(v)) == ToNumber(v)
  {
  }

  lemma {:induction false} CountCharAppend(c: char, a: string, b: string)
    ensures CountChar(c, a + b) == CountChar(c, a) + CountChar(c, b)
  {
    if a == [] {
      assert a + b == b;
    } else {
      assert (a + b)[0] == a[0] && (a + b)[1..] == a[1..] + b;
      CountCharAppend(c, a[1..], b);
    }
  }

  lemma {:induction false} CountCharNone(c: char, s: string)
    requires c !in s
    ensures CountChar(c, s) == 0
  {
    if s != [] {
      assert s == [s[0]] + s[1..];
      CountCharNone(c, s[1..]);
    }
  }

  /// Counting a character in a joined list whose parts do not hold it: one
  /// separator's worth (`n`) between every two parts.
  lemma {:induction false} CountCharJoin(c: char, parts: seq<string>, sep: string, n: nat)
    requires forall k :: 0 <= k < |parts| ==> CountChar(c, parts[k]) == 0
    requires CountChar(c, sep) == n
    ensures |parts| > 0 ==> CountChar(c, Join(parts, sep)) == (|parts| - 1) * n
    ensures |parts| == 0 ==> CountChar(c, Join(parts, sep)) == 0
  {
    if |parts| > 1 {
      CountCharJoin(c, parts[1..], sep, n);
      CountCharAppend(c, parts[0] + sep, Join(parts[1..], sep));
      CountCharAppend(c, parts[0], sep);
      assert (|parts| - 1) * n == (|parts| - 2) * n + n;
    }
  }
}
