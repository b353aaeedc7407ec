/// The synchronous cache-key builder of the cached model module
/// (`_buildCacheKey`): a deterministic string made of the model's prefix,
/// the named sub-key, the parameters, the sort and the time bucket.
module CacheKeys {
  import opened Js

  /// `options[name]`, undefined when absent.
  function OptionOf(options: Record, name: string): Value {
    if name in options then options[name] else Undefined
  }

  /// `options.key` once normalised: a string key stands for `{ value : key }`.
  function KeyOption(options: Record): Value {
    var key := OptionOf(options, "key");
    if key.Str? then Obj(map["value" := key]) else key
  }

  predicate HasKeyValue(key: Value) {
    Truthy(key) && Truthy(Get(key, "value"))
  }

  predicate HasTime(key: Value) {
    Truthy(key) && Truthy(Get(key, "time"))
  }

  function KeySegment(key: Value): string {
    if HasKeyValue(key) then ":" + ToStr(Get(key, "value")) else ""
  }

  function ParamSegment(params: seq<Value>): string {
    if |params| > 0 then ":" + Join(JoinParts(params), ":") else ""
  }

  function SortSegment(sort: Value): string {
    if Truthy(sort) then ":" + ToStr(Get(sort, "field")) + ":" + ToStr(Get(sort, "direction")) else ""
  }

  function TimeSegment(key: Value): string {
    if HasTime(key) then ":" + ToStr(Get(key, "time")) else ""
  }

  /// `_buildCacheKey(options, params)` for a module whose prefix is `prefix`.
  function BuildKey(prefix: string, options: Record, params: seq<Value>): string {
    var key := KeyOption(options);
    prefix + KeySegment(key) + ParamSegment(params) + SortSegment(OptionOf(options, "sort")) + TimeSegment(key)
  }

  /// The prefix `setModel` gives a cached module.
  function ModelPrefix(table: string): string {
    "models:" + table
  }

  /// `_buildCacheKey([id])`: the key of the hash that caches one record,
  /// written out (`IdKeyBuilt` shows the builder makes exactly this key).
  function IdKey(prefix: string, id: Value): string {
    prefix + ":" + JoinPart(id)
  }

  /// `_buildCacheKey({ key : field }, [value])`: the key of the secondary
  /// `field:value -> id` index entry.
  function FieldKey(prefix: string, field: string, value: Value): string {
    BuildKey(prefix, map["key" := Str(field)], [value])
  }

  /// `options.key.time = t`, as `buildCacheKey` does once the bucket is known.
  function WithTime(options: Record, t: Value): Record
    requires OptionOf(options, "key").Obj?
  {
    options["key" := Obj(options["key"].props["time" := t])]
  }

  // ----- lemmas -----

  lemma CancelAround(a: string, m: string, n: string, b: string)
    requires a + m + b == a + n + b
    requires |m| == |n|
    ensures m == n
  {
    assert m == (a + m + b)[|a|..|a| + |m|];
    assert n == (a + n + b)[|a|..|a| + |n|];
  }

  /// The builder given no options and the one parameter `id` makes the key
  /// of the record's hash.
  lemma IdKeyBuilt(prefix: string, id: Value)
    ensures BuildKey(prefix, map[], [id]) == IdKey(prefix, id)
  {
    assert JoinParts([id]) == [JoinPart(id)];
  }

  /// Every key starts with the model prefix, and is the bare prefix exactly
  /// when none of the optional parts is present.
  lemma KeyExtendsPrefix(prefix: string, options: Record, params: seq<Value>)
    ensures var k := BuildKey(prefix, options, params);
      |k| >= |prefix| && k[..|prefix|] == prefix &&
      (k == prefix <==>
        !HasKeyValue(KeyOption(options)) && params == [] &&
        !Truthy(OptionOf(options, "sort")) && !HasTime(KeyOption(options)))
  {
  }

  /// Two ids share a cache hash exactly when `join` writes them the same way:
  /// the number 5 and the string "5" name the same record, and null and
  /// undefined both map to the key ending in ":".
  lemma IdKeyInjective(prefix: string, a: Value, b: Value)
    ensures IdKey(prefix, a) == IdKey(prefix, b) <==> JoinPart(a) == JoinPart(b)
  {
    if IdKey(prefix, a) == IdKey(prefix, b) {
      assert JoinPart(a) == IdKey(prefix, a)[|prefix| + 1..];
      assert JoinPart(b) == IdKey(prefix, b)[|prefix| + 1..];
    }
  }

  /// Bumping the time bucket moves every key of the family: keys built with
  /// two buckets coincide exactly when the buckets have the same text.
  lemma BucketSeparatesKeys(prefix: string, options: Record, params: seq<Value>, t1: Value, t2: Value)
    requires OptionOf(options, "key").Obj?
    requires Truthy(t1) && Truthy(t2)
    ensures BuildKey(prefix, WithTime(options, t1), params) == BuildKey(prefix, WithTime(options, t2), params)
      <==> ToStr(t1) == ToStr(t2)
  {
    TimedKeyText(prefix, options, params, t1);
    TimedKeyText(prefix, options, params, t2);
    var a := KeyStem(prefix, options, params);
    if BuildKey(prefix, WithTime(options, t1), params) == BuildKey(prefix, WithTime(options, t2), params) {
      assert ToStr(t1) == (a + (":" + ToStr(t1)))[|a| + 1..];
      assert ToStr(t2) == (a + (":" + ToStr(t2)))[|a| + 1..];
    }
  }

  /// The part of a timed key before its bucket.
  function KeyStem(prefix: string, options: Record, params: seq<Value>): string {
    prefix + KeySegment(KeyOption(options)) + ParamSegment(params) + SortSegment(OptionOf(options, "sort"))
  }

  /// A timed key is its stem followed by `:` and the bucket's text.
  lemma TimedKeyText(prefix: string, options: Record, params: seq<Value>, t: Value)
    requires OptionOf(options, "key").Obj? && Truthy(t)
    ensures BuildKey(prefix, WithTime(options, t), params) == KeyStem(prefix, options, params) + (":" + ToStr(t))
  {
    var o := WithTime(options, t);
    var k := KeyOption(o);
    assert Get(k, "value") == Get(KeyOption(options), "value");
    assert Get(k, "time") == t;
    assert OptionOf(o, "sort") == OptionOf(options, "sort");
  }

  lemma SwappedJoinDiffers(x: string, y: string)
    requires x != y
    requires forall k :: 0 <= k < |x| ==> x[k] != ':'
    requires forall k :: 0 <= k < |y| ==> y[k] != ':'
    ensures x + ":" + y != y + ":" + x
  {
    var s, t := x + ":" + y, y + ":" + x;
    if |x| < |y| {
      assert s[|x|] == ':' && t[|x|] == y[|x|];
    } else if |y| < |x| {
      assert t[|y|] == ':' && s[|y|] == x[|y|];
    } else {
      assert s[..|x|] == x && t[..|y|] == y;
    }
  }

  lemma DifferInMiddle(pre: string, m: string, n: string, post: string)
    requires m != n && |m| == |n|
    ensures pre + m + post != pre + n + post
  {
    if pre + m + post == pre + n + post {
      CancelAround(pre, m, n, post);
    }
  }

  lemma JoinTwo(x: string, y: string, sep: string)
    ensures Join([x, y], sep) == x + sep + y
  {
    assert [x, y][1..] == [y];
  }

  lemma TwoParamKey(prefix: string, options: Record, a: Value, b: Value)
    ensures BuildKey(prefix, options, [a, b]) ==
      prefix + KeySegment(KeyOption(options)) + (":" + (JoinPart(a) + ":" + JoinPart(b))) +
      (SortSegment(OptionOf(options, "sort")) + TimeSegment(KeyOption(options)))
  {
    assert JoinParts([a, b]) == [JoinPart(a), JoinPart(b)];
    JoinTwo(JoinPart(a), JoinPart(b), ":");
  }

  /// The parameters are a list, not a set: swapping two different parameters
  /// (whose text has no ':') gives a different key.
  lemma ParamOrderMatters(prefix: string, options: Record, a: Value, b: Value)
    requires JoinPart(a) != JoinPart(b)
    requires forall k :: 0 <= k < |JoinPart(a)| ==> JoinPart(a)[k] != ':'
    requires forall k :: 0 <= k < |JoinPart(b)| ==> JoinPart(b)[k] != ':'
    ensures BuildKey(prefix, options, [a, b]) != BuildKey(prefix, options, [b, a])
  {
    var x, y := JoinPart(a), JoinPart(b);
    SwappedJoinDiffers(x, y);
    TwoParamKey(prefix, options, a, b);
    TwoParamKey(prefix, options, b, a);
    assert (":" + (x + ":" + y))[1..] == x + ":" + y;
    assert (":" + (y + ":" + x))[1..] == y + ":" + x;
    DifferInMiddle(prefix + KeySegment(KeyOption(options)), ":" + (x + ":" + y), ":" + (y + ":" + x),
      SortSegment(OptionOf(options, "sort")) + TimeSegment(KeyOption(options)));
  }

  /// The key `CachedModel.save` writes by hand, `'models:' + table + ':' + id`,
  /// is the key `_loadById` reads, for every id that is not null or undefined.
  lemma SaveKeyIsLoadKey(table: string, id: Value)
    requires !IsNullish(id)
    ensures ModelPrefix(table) + ":" + ToStr(id) == IdKey(ModelPrefix(table), id)
  {
  }

  /// The index entry for `field = value` sits under the prefix, the field name
  /// and the value's text.
  lemma FieldKeyText(prefix: string, field: string, value: Value)
    requires field != ""
    ensures FieldKey(prefix, field, value) == prefix + ":" + field + ":" + JoinPart(value)
  {
    assert JoinParts([value]) == [JoinPart(value)];
  }
}
