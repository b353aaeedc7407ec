/// The cached model module: the plain model module with a cache in front of
/// the database. Records are cached as hashes under `models:<table>:<id>`, a
/// secondary index maps `field:value` to an id, collections are cached as id
/// sets, and cache keys may carry a time bucket that is created on first use.
/// Every asynchronous step is run in order: an operation returns the reply its
/// request delivers, and changes the cache and the database as the callbacks
/// would. Writes whose reply nobody waits for are made at once and their
/// result dropped.
module CachedModels {
  import opened Js
  import opened Schema
  import opened CacheKeys
  import opened Stores
  import opened Models

  // ----- the stores as values -----

  /// What the cache holds at one moment.
  datatype Cache = Cache(
    hashes: map<string, Record>,
    sets: map<string, seq<string>>,
    strings: map<string, string>,
    ttls: map<string, Value>,
    failure: Option<string>)

  function CacheOf(c: CacheStore): Cache
    reads c
  {
    Cache(c.hashes, c.sets, c.strings, c.ttls, c.failure)
  }

  /// What the database holds.
  datatype Db = Db(rows: seq<Record>, failure: Option<string>)

  function DbOf(d: SqlStore): Db
    reads d
  {
    Db(d.rows, d.failure)
  }

  /// What one operation comes to: the reply its request delivers, the cache
  /// afterwards and the number of SQL statements it sent.
  datatype Outcome<+T> = Outcome(reply: Result<T>, cache: Cache, queries: nat)

  /// The cache commands, as the store carries them out.
  function HMSetOn(c: Cache, key: string, fields: Record): Cache {
    if c.failure.None? && fields != map[] then c.(hashes := c.hashes[key := Merged(c.hashes, key, fields)]) else c
  }

  function SetOn(c: Cache, key: string, value: string): Cache {
    if c.failure.None? then c.(strings := c.strings[key := value]) else c
  }

  function DelOn(c: Cache, key: string): Cache {
    if c.failure.None? then
      c.(hashes := c.hashes - {key}, sets := c.sets - {key}, strings := c.strings - {key}, ttls := c.ttls - {key})
    else c
  }

  function SAddOn(c: Cache, key: string, members: seq<string>): Cache {
    if c.failure.None? then c.(sets := c.sets[key := AddMembers(if key in c.sets then c.sets[key] else [], members)]) else c
  }

  function SRemOn(c: Cache, key: string, member: string): Cache {
    if c.failure.None? && key in c.sets then c.(sets := c.sets[key := RemoveMember(c.sets[key], member)]) else c
  }

  function ExpireOn(c: Cache, key: string, ttl: Value): Cache {
    if c.failure.None? && (key in c.hashes || key in c.sets || key in c.strings) then c.(ttls := c.ttls[key := ttl]) else c
  }

  // ----- time buckets -----

  /// Where the bucket of a timer lives.
  function TimeKey(timer: string): string {
    "cache:times:" + timer
  }

  /// `getTime(timer)`: a stored bucket is returned as stored; when there is
  /// none, or it is empty, `setTime` stores `now` (the clock) and returns it.
  function GetTimeOn(c: Cache, timer: string, now: Value): Outcome<Value> {
    var key := TimeKey(timer);
    if c.failure.Some? then Outcome(Err(StoreError(c.failure.value)), c, 0)
    else if key in c.strings && c.strings[key] != "" then Outcome(Ok(Str(c.strings[key])), c, 0)
    else Outcome(Ok(now), SetOn(c, key, ToStr(now)), 0)
  }

  /// Whatever `getTime` answers is, as text, the bucket stored afterwards, and
  /// no other string changes.
  lemma GetTimeStores(c: Cache, timer: string, now: Value)
    ensures var o := GetTimeOn(c, timer, now);
      && (o.reply.Err? <==> c.failure.Some?)
      && (o.reply.Ok? ==> TimeKey(timer) in o.cache.strings && o.cache.strings[TimeKey(timer)] == ToStr(o.reply.value))
      && o.cache.strings - {TimeKey(timer)} == c.strings - {TimeKey(timer)}
      && o.cache.hashes == c.hashes && o.cache.sets == c.sets
  {
  }

  /// Once created, a bucket stays: asking again returns the same text and
  /// changes nothing, whatever the clock says by then.
  lemma GetTimeStable(c: Cache, timer: string, now: Value, later: Value)
    requires c.failure.None? && now.Num?
    ensures var first := GetTimeOn(c, timer, now);
      var second := GetTimeOn(first.cache, timer, later);
      && first.reply.Ok?
      && second.reply == Ok(Str(ToStr(first.reply.value)))
      && second.cache == first.cache
  {
    var first := GetTimeOn(c, timer, now);
    if first.reply == Ok(now) {
      assert |IntToString(now.n)| > 0;
    }
  }

  // ----- key building -----

  /// `buildCacheKey`'s options: a string stands for `{ key : { value : options } }`.
  function NormalOptions(options: Value): (o: Value)
    ensures options.Str? ==> o.Obj? && Get(Get(o, "key"), "value") == options
    ensures !options.Str? ==> o == options
  {
    if options.Str? then Obj(map["key" := Obj(map["value" := options])]) else options
  }

  /// A `params` that is not an array is taken for the callback: no params.
  function ParamList(params: Value): seq<Value> {
    if params.Arr? then params.items else []
  }

  /// Reading `options.key.timer`: it throws when there are no options or
  /// no key; a string timer is the name of a bucket.
  function KeyTimer(o: Value): Result<Option<string>> {
    if IsNullish(o) then Err(Raised("TypeError: Cannot read property 'key' of " + ToStr(o)))
    else if !o.Obj? || IsNullish(Get(o, "key")) then
      Err(Raised("TypeError: Cannot read property 'timer' of " + ToStr(Get(o, "key"))))
    else
      var timer := Get(Get(o, "key"), "timer");
      if timer.Str? then Ok(Some(timer.s)) else Ok(None)
  }

  /// The bucket a key needs: none without a timer, else what `getTime`
  /// answers.
  function BucketOn(c: Cache, options: Value, now: Value): Outcome<Option<Value>> {
    match KeyTimer(NormalOptions(options))
    case Err(e) => Outcome(Err(e), c, 0)
    case Ok(None) => Outcome(Ok(None), c, 0)
    case Ok(Some(timer)) =>
      var t := GetTimeOn(c, timer, now);
      if t.reply.Err? then Outcome(Err(t.reply.error), t.cache, 0) else Outcome(Ok(Some(t.reply.value)), t.cache, 0)
  }

  /// The key and `options.ttl` once the bucket is known: the bucket becomes
  /// `options.key.time`.
  function KeyAndTtl(prefix: string, o: Value, params: Value, bucket: Option<Value>): (string, Value) {
    var props := if o.Obj? then o.props else map[];
    var options := if bucket.Some? && OptionOf(props, "key").Obj? then WithTime(props, bucket.value) else props;
    (BuildKey(prefix, options, ParamList(params)), Get(o, "ttl"))
  }

  /// `buildCacheKey(options, params)`: the bucket first, when the key has a
  /// timer, then the key and `options.ttl`.
  function BuildCacheKeyOn(prefix: string, c: Cache, options: Value, params: Value, now: Value): Outcome<(string, Value)> {
    var b := BucketOn(c, options, now);
    if b.reply.Err? then Outcome(Err(b.reply.error), b.cache, 0)
    else Outcome(Ok(KeyAndTtl(prefix, NormalOptions(options), params, b.reply.value)), b.cache, 0)
  }

  /// A plain string names the key: the key is the prefix, `:name` when the
  /// name is not empty, then the params; there is no ttl and no bucket.
  lemma StringOptionsKey(prefix: string, c: Cache, name: string, params: Value, now: Value)
    ensures BuildCacheKeyOn(prefix, c, Str(name), params, now) ==
      Outcome(Ok((prefix + (if name != "" then ":" + name else "") + ParamSegment(ParamList(params)), Undefined)), c, 0)
  {
    var o := NormalOptions(Str(name));
    assert KeyTimer(o) == Ok(None);
    assert BucketOn(c, Str(name), now) == Outcome(Ok(None), c, 0);
    NamedKeyText(prefix, o.props, name, ParamList(params));
  }

  /// The key of options naming a sub-key and nothing else.
  lemma NamedKeyText(prefix: string, options: Record, name: string, params: seq<Value>)
    requires options == map["key" := Obj(map["value" := Str(name)])]
    ensures BuildKey(prefix, options, params) == prefix + (if name != "" then ":" + name else "") + ParamSegment(params)
  {
    var key := KeyOption(options);
    assert key == Obj(map["value" := Str(name)]);
    assert Get(key, "time") == Undefined;
    assert OptionOf(options, "sort") == Undefined;
    var ks := if name != "" then ":" + name else "";
    assert KeySegment(key) == ks && SortSegment(Undefined) == "" && TimeSegment(key) == "";
    var ps := ParamSegment(params);
    assert BuildKey(prefix, options, params) == prefix + ks + ps + "" + "";
    assert prefix + ks + ps + "" + "" == prefix + ks + ps;
  }

  /// Options without a key cannot be read: the call throws and the cache is
  /// untouched.
  lemma MissingKeyThrows(prefix: string, c: Cache, options: Value, params: Value, now: Value)
    requires !options.Str? && (!options.Obj? || "key" !in options.props || IsNullish(options.props["key"]))
    ensures var o := BuildCacheKeyOn(prefix, c, options, params, now);
      o.reply.Err? && o.reply.error.Raised? && o.cache == c
  {
  }

  /// A key with a timer is built only once the bucket is known: when the
  /// cache fails, the error is the reply and no key is produced.
  lemma TimerNeedsBucket(prefix: string, c: Cache, options: Value, params: Value, now: Value)
    requires c.failure.Some?
    requires options.Obj? && "key" in options.props && Get(options.props["key"], "timer").Str?
    ensures BuildCacheKeyOn(prefix, c, options, params, now).reply == Err(StoreError(c.failure.value))
  {
  }

  /// Keys with a timer are stable: building the same key again, later, gives
  /// the same key and ttl, because the bucket created the first time is the
  /// one read the second time.
  lemma TimedKeyStable(prefix: string, c: Cache, options: Value, params: Value, now: Value, later: Value)
    requires c.failure.None? && now.Num? && now.n > 0
    ensures var first := BuildCacheKeyOn(prefix, c, options, params, now);
      var second := BuildCacheKeyOn(prefix, first.cache, options, params, later);
      first.reply.Ok? ==> second.reply == first.reply && second.cache == first.cache
  {
    BucketStable(c, options, now, later);
    var b1 := BucketOn(c, options, now);
    var b2 := BucketOn(b1.cache, options, later);
    if b1.reply.Ok? && b1.reply.value.Some? {
      var o := NormalOptions(options);
      assert o.Obj? && OptionOf(o.props, "key").Obj?;
      var t1, t2 := b1.reply.value.value, b2.reply.value.value;
      BucketSeparatesKeys(prefix, o.props, ParamList(params), t1, t2);
      assert KeyAndTtl(prefix, o, params, Some(t1)) == KeyAndTtl(prefix, o, params, Some(t2));
    }
  }

  /// A bucket, once created, is found again later: the second lookup changes
  /// nothing and answers with the same text.
  lemma BucketStable(c: Cache, options: Value, now: Value, later: Value)
    requires c.failure.None? && now.Num? && now.n > 0
    ensures var b1 := BucketOn(c, options, now);
      var b2 := BucketOn(b1.cache, options, later);
      b1.reply.Ok? ==>
        && b2.cache == b1.cache && b2.reply.Ok?
        && (b1.reply.value.None? <==> b2.reply.value.None?)
        && (b1.reply.value.Some? ==>
              Truthy(b1.reply.value.value) && Truthy(b2.reply.value.value) &&
              ToStr(b1.reply.value.value) == ToStr(b2.reply.value.value))
  {
    var kt := KeyTimer(NormalOptions(options));
    if kt.Ok? && kt.value.Some? {
      GetTimeStable(c, kt.value.value, now, later);
      assert |IntToString(now.n)| > 0;
    }
  }

  // ----- loading one record -----

  /// The hash a model is cached as: `dataObject()`, every defined field read
  /// through its accessor.
  function CachedData(def: Definition, slots: Record): (d: Record)
    ensures d.Keys == def.fields.Keys
    ensures forall f :: f in def.fields ==> d[f] == Slot(slots, f)
  {
    map f | f in def.fields :: Slot(slots, f)
  }

  /// `model.id` of a delivered model.
  function IdOf(model: Value): Value {
    Get(model, "id")
  }

  /// The plain module's `load(value, field)`: the first row whose `name`
  /// column equals `value`, as a model, or null when there is none.
  function DbLoadOn(def: Definition, d: Db, name: string, value: Value): (r: Result<Value>)
    ensures r.Err? ==> d.failure.Some? || FirstMatch(d.rows, name, value).Some?
    ensures r.Ok? && r.value.Null? <==> d.failure.None? && FirstMatch(d.rows, name, value).None?
  {
    if d.failure.Some? then Err(StoreError(d.failure.value))
    else match FirstMatch(d.rows, name, value)
      case None => Ok(Null)
      case Some(row) => ModelValue(def, row)
  }

  /// A model that came from the database is written back under its id.
  function Remember(def: Definition, prefix: string, c: Cache, r: Result<Value>): Cache {
    if r.Ok? && r.value.Obj? then HMSetOn(c, IdKey(prefix, IdOf(r.value)), CachedData(def, r.value.props)) else c
  }

  /// `_loadById(id)`: the cached hash when there is one, as a model, without
  /// asking the database; otherwise the database's answer, written back to
  /// the cache when a row was found.
  function LoadByIdOn(def: Definition, prefix: string, c: Cache, d: Db, id: Value): Outcome<Value> {
    var key := IdKey(prefix, id);
    if c.failure.Some? then Outcome(Err(StoreError(c.failure.value)), c, 0)
    else if key in c.hashes then Outcome(ModelValue(def, c.hashes[key]), c, 0)
    else
      var r := DbLoadOn(def, d, "id", id);
      Outcome(r, Remember(def, prefix, c, r), 1)
  }

  /// A cache hit is served from the hash and sends no SQL.
  lemma LoadByIdHit(def: Definition, prefix: string, c: Cache, d: Db, id: Value)
    requires c.failure.None? && IdKey(prefix, id) in c.hashes
    ensures var o := LoadByIdOn(def, prefix, c, d, id);
      o.reply == ModelValue(def, c.hashes[IdKey(prefix, id)]) && o.cache == c && o.queries == 0
  {
  }

  /// A miss asks the database once; a row that is not there is delivered as
  /// null and nothing is cached.
  lemma LoadByIdMiss(def: Definition, prefix: string, c: Cache, d: Db, id: Value)
    requires c.failure.None? && IdKey(prefix, id) !in c.hashes
    ensures var o := LoadByIdOn(def, prefix, c, d, id);
      && o.queries == 1
      && o.reply == DbLoadOn(def, d, "id", id)
      && (FirstMatch(d.rows, "id", id).None? ==> o.cache == c)
      && o.cache.strings == c.strings && o.cache.sets == c.sets
  {
  }

  /// Loading a model the database holds as a complete row writes it through:
  /// the next load of the same id is a cache hit that delivers the same model
  /// and sends no SQL.
  lemma ReadThrough(def: Definition, prefix: string, c: Cache, d: Db, id: Value)
    requires c.failure.None? && d.failure.None? && IdKey(prefix, id) !in c.hashes
    requires id.Num?
    requires FirstMatch(d.rows, "id", id).Some?
    requires var row := FirstMatch(d.rows, "id", id).value; row.Keys == def.fields.Keys && row["id"] == id
    ensures var first := LoadByIdOn(def, prefix, c, d, id);
      var second := LoadByIdOn(def, prefix, first.cache, d, id);
      && first.reply.Ok? && first.reply.value.Obj?
      && second.reply == first.reply && second.queries == 0 && second.cache == first.cache
  {
    var row := FirstMatch(d.rows, "id", id).value;
    var fixed := FixData(def, row).value;
    assert fixed["id"] == id;
    assert CachedData(def, fixed) == fixed;
    FixDataStable(def, row);
    var key := IdKey(prefix, id);
    assert DbLoadOn(def, d, "id", id) == Ok(Obj(fixed));
    assert IdOf(Obj(fixed)) == id;
    assert Merged(c.hashes, key, fixed) == fixed by {
      assert key !in c.hashes;
      assert map[] + fixed == fixed;
    }
    var after := c.(hashes := c.hashes[key := fixed]);
    assert LoadByIdOn(def, prefix, c, d, id) == Outcome(Ok(Obj(fixed)), after, 1);
    assert LoadByIdOn(def, prefix, after, d, id) == Outcome(ModelValue(def, fixed), after, 0);
  }

  /// The key of the secondary index entry for `field = value`
  /// (`_buildCacheKey({ key : field }, [value])`).
  function IndexKey(prefix: string, field: Value, value: Value): string {
    BuildKey(prefix, map["key" := field], [value])
  }

  /// `_findId(value, field)`: the id the index holds, or null.
  function FindIdOn(prefix: string, c: Cache, field: Value, value: Value): (r: Result<Value>)
    ensures r.Err? <==> c.failure.Some?
    ensures r.Ok? ==> (r.value.Str? <==> IndexKey(prefix, field, value) in c.strings)
    ensures r.Ok? && r.value.Str? ==> r.value.s == c.strings[IndexKey(prefix, field, value)]
  {
    var key := IndexKey(prefix, field, value);
    if c.failure.Some? then Err(StoreError(c.failure.value))
    else if key in c.strings then Ok(Str(c.strings[key]))
    else Ok(Null)
  }

  /// After loading through the index: a model found keeps its entry, now
  /// holding the model's id; a model gone loses it.
  function Reindex(c: Cache, key: string, model: Value): Cache {
    if model.Obj? then SetOn(c, key, ToStr(IdOf(model))) else DelOn(c, key)
  }

  /// A model found in the database by another field: the index entry and the
  /// record's hash are both written.
  function RememberBoth(def: Definition, prefix: string, c: Cache, key: string, r: Result<Value>): Cache {
    if r.Ok? && r.value.Obj? then Remember(def, prefix, SetOn(c, key, ToStr(IdOf(r.value))), r) else c
  }

  /// The field a lookup uses: `id` when none is given.
  function FieldOrId(field: Value): Value {
    if field.Undefined? then Str("id") else field
  }

  /// `_loadModel(value, field)`.
  function LoadModelOn(def: Definition, prefix: string, c: Cache, d: Db, value: Value, field: Value): Outcome<Value> {
    var f := FieldOrId(field);
    if f == Str("id") then LoadByIdOn(def, prefix, c, d, value)
    else LoadByIndexOn(def, prefix, c, d, value, f)
  }

  /// `_loadModel` by a field other than `id`: through the index entry when
  /// there is one, from the database otherwise.
  function LoadByIndexOn(def: Definition, prefix: string, c: Cache, d: Db, value: Value, f: Value): Outcome<Value> {
    var key := IndexKey(prefix, f, value);
    var id := FindIdOn(prefix, c, f, value);
    if id.Err? then Outcome(Err(id.error), c, 0)
    else if Truthy(id.value) then
      var o := LoadByIdOn(def, prefix, c, d, id.value);
      if o.reply.Err? then o else Outcome(o.reply, Reindex(o.cache, key, o.reply.value), o.queries)
    else
      var r := DbLoadOn(def, d, if f.Str? then f.s else "id", value);
      Outcome(r, RememberBoth(def, prefix, c, key, r), 1)
  }

  /// Loading by `id`, named or by default, is loading by id.
  lemma LoadModelById(def: Definition, prefix: string, c: Cache, d: Db, value: Value, field: Value)
    requires field.Undefined? || field == Str("id")
    ensures LoadModelOn(def, prefix, c, d, value, field) == LoadByIdOn(def, prefix, c, d, value)
  {
  }

  /// An index entry leads to a load by the id it holds; afterwards the entry
  /// holds the id of the model found, or is gone when there was none.
  lemma IndexedLoad(def: Definition, prefix: string, c: Cache, d: Db, value: Value, field: string)
    requires field != "id" && c.failure.None?
    requires IndexKey(prefix, Str(field), value) in c.strings && c.strings[IndexKey(prefix, Str(field), value)] != ""
    ensures var key := IndexKey(prefix, Str(field), value);
      var o := LoadModelOn(def, prefix, c, d, value, Str(field));
      var byId := LoadByIdOn(def, prefix, c, d, Str(c.strings[key]));
      && o.reply == byId.reply && o.queries == byId.queries
      && (o.reply.Ok? && o.reply.value.Obj? ==> o.cache.strings[key] == ToStr(IdOf(o.reply.value)))
      && (o.reply.Ok? && o.reply.value.Null? ==> key !in o.cache.strings)
  {
  }

  /// Without an index entry the database is asked by the field; a model
  /// found gets both its index entry and its hash, nothing is cached for a
  /// model not found.
  lemma UnindexedLoad(def: Definition, prefix: string, c: Cache, d: Db, value: Value, field: string)
    requires field != "id" && c.failure.None?
    requires IndexKey(prefix, Str(field), value) !in c.strings
    ensures var key := IndexKey(prefix, Str(field), value);
      var o := LoadModelOn(def, prefix, c, d, value, Str(field));
      && o.reply == DbLoadOn(def, d, field, value) && o.queries == 1
      && (o.reply.Ok? && o.reply.value.Obj? ==>
            o.cache.strings == c.strings[key := ToStr(IdOf(o.reply.value))] &&
            IdKey(prefix, IdOf(o.reply.value)) in o.cache.hashes)
      && (!(o.reply.Ok? && o.reply.value.Obj?) ==> o.cache == c)
  {
  }

  // ----- loading a list of records -----

  /// What `exec` of the `hgetall` batch gives for one id, once instantiated:
  /// the cached model, or null for a miss; a hash that is not a valid model
  /// makes the constructor throw.
  function SlotOf(def: Definition, prefix: string, hashes: map<string, Record>, id: Value): (r: Result<Value>)
    ensures r.Ok? ==> (r.value.Null? <==> IdKey(prefix, id) !in hashes)
  {
    var key := IdKey(prefix, id);
    if key in hashes then ModelValue(def, hashes[key]) else Ok(Null)
  }

  /// The first loop of `_loadArray`'s callback, from the slots built so far.
  function SlotsFrom(def: Definition, prefix: string, hashes: map<string, Record>, acc: seq<Value>, ids: seq<Value>): Result<seq<Value>>
    decreases |ids|
  {
    if ids == [] then Ok(acc)
    else match SlotOf(def, prefix, hashes, ids[0])
      case Err(e) => Err(e)
      case Ok(v) => SlotsFrom(def, prefix, hashes, acc + [v], ids[1..])
  }

  /// The slots line up with the ids: slot `i` is what the cache holds for
  /// `ids[i]`; the conversion fails only for an id whose hash does not convert.
  lemma SlotsAligned(def: Definition, prefix: string, hashes: map<string, Record>, acc: seq<Value>, ids: seq<Value>)
    ensures var r := SlotsFrom(def, prefix, hashes, acc, ids);
      && (r.Ok? <==> forall i :: 0 <= i < |ids| ==> SlotOf(def, prefix, hashes, ids[i]).Ok?)
      && (r.Ok? ==> |r.value| == |acc| + |ids| && r.value[..|acc|] == acc)
      && (r.Ok? ==> forall i :: 0 <= i < |ids| ==> Ok(r.value[|acc| + i]) == SlotOf(def, prefix, hashes, ids[i]))
  {
    SlotsSucceed(def, prefix, hashes, acc, ids);
    SlotsValues(def, prefix, hashes, acc, ids);
  }

  /// The slot loop fails exactly when some id's cached hash does not convert.
  lemma {:induction false} SlotsSucceed(def: Definition, prefix: string, hashes: map<string, Record>, acc: seq<Value>, ids: seq<Value>)
    ensures SlotsFrom(def, prefix, hashes, acc, ids).Ok? <==>
      forall i :: 0 <= i < |ids| ==> SlotOf(def, prefix, hashes, ids[i]).Ok?
    decreases |ids|
  {
    if ids != [] {
      var head := SlotOf(def, prefix, hashes, ids[0]);
      if head.Ok? {
        SlotsSucceed(def, prefix, hashes, acc + [head.value], ids[1..]);
        assert forall i :: 1 <= i < |ids| ==> ids[1..][i - 1] == ids[i];
      }
    }
  }

  /// A successful slot loop extends `acc` by one slot per id.
  lemma {:induction false} SlotsLength(def: Definition, prefix: string, hashes: map<string, Record>, acc: seq<Value>, ids: seq<Value>)
    ensures var r := SlotsFrom(def, prefix, hashes, acc, ids);
      r.Ok? ==> (|r.value| == |acc| + |ids| && r.value[..|acc|] == acc)
    decreases |ids|
  {
    if ids != [] {
      var head := SlotOf(def, prefix, hashes, ids[0]);
      if head.Ok? {
        var r := SlotsFrom(def, prefix, hashes, acc, ids);
        assert r == SlotsFrom(def, prefix, hashes, acc + [head.value], ids[1..]);
        SlotsLength(def, prefix, hashes, acc + [head.value], ids[1..]);
        if r.Ok? {
          assert r.value[..|acc| + 1][..|acc|] == r.value[..|acc|];
        }
      }
    }
  }

  /// Slot `|acc| + i` of a successful slot loop is what the cache gives for `ids[i]`.
  lemma {:induction false} SlotsValues(def: Definition, prefix: string, hashes: map<string, Record>, acc: seq<Value>, ids: seq<Value>)
    ensures var r := SlotsFrom(def, prefix, hashes, acc, ids);
      r.Ok? ==> (|r.value| == |acc| + |ids| && r.value[..|acc|] == acc &&
        forall i :: 0 <= i < |ids| ==> Ok(r.value[|acc| + i]) == SlotOf(def, prefix, hashes, ids[i]))
    decreases |ids|
  {
    SlotsLength(def, prefix, hashes, acc, ids);
    if ids != [] {
      var head := SlotOf(def, prefix, hashes, ids[0]);
      if head.Ok? {
        var r := SlotsFrom(def, prefix, hashes, acc, ids);
        assert r == SlotsFrom(def, prefix, hashes, acc + [head.value], ids[1..]);
        SlotsValues(def, prefix, hashes, acc + [head.value], ids[1..]);
        if r.Ok? {
          SlotsLength(def, prefix, hashes, acc + [head.value], ids[1..]);
          assert r.value[..|acc| + 1][|acc|] == head.value;
          forall i | 0 <= i < |ids|
            ensures Ok(r.value[|acc| + i]) == SlotOf(def, prefix, hashes, ids[i])
          {
            if i > 0 {
              assert ids[1..][i - 1] == ids[i];
              assert |acc + [head.value]| + (i - 1) == |acc| + i;
            }
          }
        }
      }
    }
  }

  /// One step of the slot loop at position `i` of `ids`.
  lemma SlotsStep(def: Definition, prefix: string, hashes: map<string, Record>, acc: seq<Value>, ids: seq<Value>, i: nat)
    requires i < |ids|
    ensures var s := SlotOf(def, prefix, hashes, ids[i]);
      SlotsFrom(def, prefix, hashes, acc, ids[i..]) ==
        if s.Err? then Err(s.error) else SlotsFrom(def, prefix, hashes, acc + [s.value], ids[i + 1..])
  {
    assert ids[i..][0] == ids[i] && ids[i..][1..] == ids[i + 1..];
  }

  /// One step of the miss loop at position `i` of `ids`.
  lemma MissStep(prefix: string, hashes: map<string, Record>, misses: seq<Value>, ids: seq<Value>, i: nat)
    requires i < |ids|
    ensures misses + MissIds(prefix, hashes, ids[i..]) ==
      (if IdKey(prefix, ids[i]) in hashes then misses else misses + [ids[i]]) + MissIds(prefix, hashes, ids[i + 1..])
  {
    assert ids[i..][0] == ids[i] && ids[i..][1..] == ids[i + 1..];
    var head: seq<Value> := if IdKey(prefix, ids[i]) in hashes then [] else [ids[i]];
    var tail := MissIds(prefix, hashes, ids[i + 1..]);
    assert MissIds(prefix, hashes, ids[i..]) == head + tail;
    assert misses + (head + tail) == (misses + head) + tail;
  }

  /// The slot and miss loops, once the whole list is consumed.
  lemma LoopDone(def: Definition, prefix: string, hashes: map<string, Record>, found: seq<Value>, misses: seq<Value>, ids: seq<Value>)
    ensures SlotsFrom(def, prefix, hashes, found, ids[|ids|..]) == Ok(found)
    ensures misses + MissIds(prefix, hashes, ids[|ids|..]) == misses
  {
    assert ids[|ids|..] == [];
  }

  /// The ids sent to the database: those whose slot was a miss, in input order.
  function MissIds(prefix: string, hashes: map<string, Record>, ids: seq<Value>): (r: seq<Value>)
    ensures |r| <= |ids|
    decreases |ids|
  {
    if ids == [] then []
    else (if IdKey(prefix, ids[0]) in hashes then [] else [ids[0]]) + MissIds(prefix, hashes, ids[1..])
  }

  /// An id is sent to the database exactly when some slot holding it missed.
  lemma {:induction false} MissIdsExact(prefix: string, hashes: map<string, Record>, ids: seq<Value>)
    ensures forall v :: v in MissIds(prefix, hashes, ids) <==>
      exists i :: 0 <= i < |ids| && ids[i] == v && IdKey(prefix, ids[i]) !in hashes
    ensures MissIds(prefix, hashes, ids) == [] <==> forall i :: 0 <= i < |ids| ==> IdKey(prefix, ids[i]) in hashes
    decreases |ids|
  {
    if ids != [] {
      MissIdsExact(prefix, hashes, ids[1..]);
      assert forall i :: 1 <= i < |ids| ==> ids[1..][i - 1] == ids[i];
      forall v | exists i :: 0 <= i < |ids| && ids[i] == v && IdKey(prefix, ids[i]) !in hashes
        ensures v in MissIds(prefix, hashes, ids)
      {
        var i :| 0 <= i < |ids| && ids[i] == v && IdKey(prefix, ids[i]) !in hashes;
        if i > 0 {
          assert ids[1..][i - 1] == v;
        }
      }
    }
  }

  /// The model a row becomes, as data for the cache.
  function ModelData(def: Definition, model: Value): Record {
    CachedData(def, if model.Obj? then model.props else map[])
  }

  /// The `while (rows.length)` loop: each row becomes a model filed under its
  /// id's text, a later row replacing an earlier one with the same id.
  function ByIdFrom(def: Definition, acc: map<string, Value>, rows: seq<Record>): (r: Result<map<string, Value>>)
    ensures r.Ok? && (forall k :: k in acc ==> acc[k].Obj?) ==> forall k :: k in r.value ==> r.value[k].Obj?
    decreases |rows|
  {
    if rows == [] then Ok(acc)
    else match ModelValue(def, rows[0])
      case Err(e) => Err(e)
      case Ok(m) => ByIdFrom(def, acc[ToStr(IdOf(m)) := m], rows[1..])
  }

  /// The key a row is filed under.
  function RowKey(def: Definition, row: Record): string
    requires FixData(def, row).Ok?
  {
    ToStr(IdOf(ModelValue(def, row).value))
  }

  /// The rows were all converted to models.
  lemma {:induction false} ByIdRowsValid(def: Definition, acc: map<string, Value>, rows: seq<Record>)
    requires ByIdFrom(def, acc, rows).Ok?
    ensures forall j :: 0 <= j < |rows| ==> FixData(def, rows[j]).Ok?
    decreases |rows|
  {
    if rows != [] {
      var m := ModelValue(def, rows[0]).value;
      ByIdRowsValid(def, acc[ToStr(IdOf(m)) := m], rows[1..]);
      assert forall j :: 1 <= j < |rows| ==> rows[1..][j - 1] == rows[j];
    }
  }

  /// The keys the rows are filed under, in order.
  function RowKeys(def: Definition, rows: seq<Record>): (r: seq<string>)
    requires forall j :: 0 <= j < |rows| ==> FixData(def, rows[j]).Ok?
    ensures |r| == |rows|
    decreases |rows|
  {
    if rows == [] then []
    else
      assert forall j :: 1 <= j < |rows| ==> rows[1..][j - 1] == rows[j];
      [RowKey(def, rows[0])] + RowKeys(def, rows[1..])
  }

  /// Every row is filed under its id, and nothing else is filed besides what
  /// was there.
  lemma {:induction false} ByIdKeys(def: Definition, acc: map<string, Value>, rows: seq<Record>)
    requires ByIdFrom(def, acc, rows).Ok?
    requires forall j :: 0 <= j < |rows| ==> FixData(def, rows[j]).Ok?
    ensures forall k :: k in ByIdFrom(def, acc, rows).value <==> k in acc || k in RowKeys(def, rows)
    decreases |rows|
  {
    if rows != [] {
      var m := ModelValue(def, rows[0]).value;
      var acc' := acc[ToStr(IdOf(m)) := m];
      var tail := rows[1..];
      assert forall j :: 0 <= j < |tail| ==> tail[j] == rows[j + 1];
      ByIdKeys(def, acc', tail);
      assert ByIdFrom(def, acc, rows) == ByIdFrom(def, acc', tail);
    }
  }

  /// Of several rows with the same id, the last one is filed.
  lemma {:induction false} ByIdLast(def: Definition, acc: map<string, Value>, rows: seq<Record>, j: nat)
    requires ByIdFrom(def, acc, rows).Ok?
    requires forall l :: 0 <= l < |rows| ==> FixData(def, rows[l]).Ok?
    requires j < |rows|
    requires forall l :: j < l < |rows| ==> RowKey(def, rows[l]) != RowKey(def, rows[j])
    ensures RowKey(def, rows[j]) in ByIdFrom(def, acc, rows).value
    ensures ByIdFrom(def, acc, rows).value[RowKey(def, rows[j])] == ModelValue(def, rows[j]).value
    decreases |rows|
  {
    var m := ModelValue(def, rows[0]).value;
    var acc' := acc[ToStr(IdOf(m)) := m];
    assert forall l :: 1 <= l < |rows| ==> rows[1..][l - 1] == rows[l];
    if j == 0 {
      ByIdKeep(def, acc', rows[1..], RowKey(def, rows[0]));
    } else {
      ByIdLast(def, acc', rows[1..], j - 1);
    }
  }

  /// An entry no later row replaces survives.
  lemma {:induction false} ByIdKeep(def: Definition, acc: map<string, Value>, rows: seq<Record>, k: string)
    requires ByIdFrom(def, acc, rows).Ok?
    requires forall l :: 0 <= l < |rows| ==> FixData(def, rows[l]).Ok? && RowKey(def, rows[l]) != k
    requires k in acc
    ensures k in ByIdFrom(def, acc, rows).value && ByIdFrom(def, acc, rows).value[k] == acc[k]
    decreases |rows|
  {
    if rows != [] {
      var m := ModelValue(def, rows[0]).value;
      assert forall l :: 1 <= l < |rows| ==> rows[1..][l - 1] == rows[l];
      ByIdKeep(def, acc[ToStr(IdOf(m)) := m], rows[1..], k);
    }
  }

  /// The second loop, corrected: a missed slot takes the model filed under
  /// its id, and stays null when the database had no such row.
  function Filled(slots: seq<Value>, ids: seq<Value>, byId: map<string, Value>): (r: seq<Value>)
    requires |ids| == |slots|
    ensures |r| == |slots|
  {
    seq(|slots|, i requires 0 <= i < |slots| =>
      if slots[i] == Null && ToStr(ids[i]) in byId then byId[ToStr(ids[i])] else slots[i])
  }

  /// The cache writes the second loop queues: one per filled slot, in order.
  function FillWrites(def: Definition, prefix: string, slots: seq<Value>, ids: seq<Value>, byId: map<string, Value>): (w: seq<(string, Record)>)
    requires |ids| == |slots|
    decreases |slots|
  {
    if slots == [] then []
    else
      var rest := FillWrites(def, prefix, slots[1..], ids[1..], byId);
      if slots[0] == Null && ToStr(ids[0]) in byId then
        var m := byId[ToStr(ids[0])];
        [(IdKey(prefix, IdOf(m)), ModelData(def, m))] + rest
      else rest
  }

  /// A write is queued exactly for each slot that was a miss and was found.
  lemma {:induction false} FillWritesExact(def: Definition, prefix: string, slots: seq<Value>, ids: seq<Value>, byId: map<string, Value>)
    requires |ids| == |slots|
    ensures forall w :: w in FillWrites(def, prefix, slots, ids, byId) <==>
      exists i :: 0 <= i < |slots| && slots[i] == Null && ToStr(ids[i]) in byId &&
        w == (IdKey(prefix, IdOf(byId[ToStr(ids[i])])), ModelData(def, byId[ToStr(ids[i])]))
    decreases |slots|
  {
    if slots != [] {
      FillWritesExact(def, prefix, slots[1..], ids[1..], byId);
      assert forall i :: 1 <= i < |slots| ==> slots[1..][i - 1] == slots[i] && ids[1..][i - 1] == ids[i];
      forall w | (exists i :: 0 <= i < |slots| && slots[i] == Null && ToStr(ids[i]) in byId &&
                            w == (IdKey(prefix, IdOf(byId[ToStr(ids[i])])), ModelData(def, byId[ToStr(ids[i])])))
        ensures w in FillWrites(def, prefix, slots, ids, byId)
      {
        var i :| 0 <= i < |slots| && slots[i] == Null && ToStr(ids[i]) in byId &&
          w == (IdKey(prefix, IdOf(byId[ToStr(ids[i])])), ModelData(def, byId[ToStr(ids[i])]));
        if i > 0 {
          assert slots[1..][i - 1] == Null && ids[1..][i - 1] == ids[i];
        }
      }
    }
  }

  /// The queued writes, sent together by `exec`.
  function ApplyWrites(c: Cache, writes: seq<(string, Record)>): Cache
    decreases |writes|
  {
    if writes == [] then c else ApplyWrites(HMSetOn(c, writes[0].0, writes[0].1), writes[1..])
  }

  /// `_fillMissingCacheValues(slots, rows, ids)`, with a missed id the
  /// database did not return left null.
  function FillMissingOn(def: Definition, prefix: string, c: Cache, slots: seq<Value>, rows: seq<Record>, ids: seq<Value>): Outcome<seq<Value>>
    requires |ids| == |slots|
  {
    match ByIdFrom(def, map[], rows)
    case Err(e) => Outcome(Err(e), c, 0)
    case Ok(byId) => Outcome(Ok(Filled(slots, ids, byId)), ApplyWrites(c, FillWrites(def, prefix, slots, ids, byId)), 0)
  }

  /// Some missed id has no row.
  predicate Dangling(slots: seq<Value>, ids: seq<Value>, byId: map<string, Value>)
    requires |ids| == |slots|
  {
    exists i :: 0 <= i < |slots| && slots[i] == Null && ToStr(ids[i]) !in byId
  }

  /// `_fillMissingCacheValues` as written: for a missed id without a row it
  /// reads `.id` of undefined, which throws before the writes are sent.
  function FillMissingAsWritten(def: Definition, prefix: string, c: Cache, slots: seq<Value>, rows: seq<Record>, ids: seq<Value>): Outcome<seq<Value>>
    requires |ids| == |slots|
  {
    match ByIdFrom(def, map[], rows)
    case Err(e) => Outcome(Err(e), c, 0)
    case Ok(byId) =>
      if Dangling(slots, ids, byId) then Outcome(Err(Raised("TypeError: Cannot read property 'id' of undefined")), c, 0)
      else Outcome(Ok(Filled(slots, ids, byId)), ApplyWrites(c, FillWrites(def, prefix, slots, ids, byId)), 0)
  }

  /// The merge keeps the list's length and every hit, fills a miss with the
  /// model filed under its id (the same model for every slot of a repeated
  /// id) and leaves it null otherwise.
  lemma FillMissingKeeps(def: Definition, prefix: string, c: Cache, slots: seq<Value>, rows: seq<Record>, ids: seq<Value>)
    requires |ids| == |slots|
    requires ByIdFrom(def, map[], rows).Ok?
    ensures var byId := ByIdFrom(def, map[], rows).value;
      var r := FillMissingOn(def, prefix, c, slots, rows, ids).reply;
      && r.Ok? && |r.value| == |slots|
      && (forall i :: 0 <= i < |slots| && slots[i] != Null ==> r.value[i] == slots[i])
      && (forall i :: 0 <= i < |slots| && slots[i] == Null ==>
            r.value[i] == if ToStr(ids[i]) in byId then byId[ToStr(ids[i])] else Null)
      && (forall i, j :: 0 <= i < |slots| && 0 <= j < |slots| && slots[i] == Null && slots[j] == Null && ids[i] == ids[j] ==>
            r.value[i] == r.value[j])
  {
  }

  /// As written, a missed id the database does not return makes the merge
  /// throw, where the corrected merge delivers null in its slot: for one
  /// missed id and no rows.
  lemma FillMissingDanglingId(def: Definition, prefix: string, c: Cache)
    ensures FillMissingAsWritten(def, prefix, c, [Null], [], [Num(1)]).reply.Err?
    ensures FillMissingOn(def, prefix, c, [Null], [], [Num(1)]).reply == Ok([Null])
  {
    var none: map<string, Value> := map[];
    assert ByIdFrom(def, map[], []) == Ok(none);
    assert Dangling([Null], [Num(1)], none) by {
      var slots, ids := [Null], [Num(1)];
      assert slots[0] == Null && ToStr(ids[0]) !in none;
    }
    assert Filled([Null], [Num(1)], none) == [Null];
  }

  /// Where nothing dangles, the corrected merge is the merge as written.
  lemma FillMissingAgrees(def: Definition, prefix: string, c: Cache, slots: seq<Value>, rows: seq<Record>, ids: seq<Value>)
    requires |ids| == |slots|
    requires ByIdFrom(def, map[], rows).Ok? ==> !Dangling(slots, ids, ByIdFrom(def, map[], rows).value)
    ensures FillMissingAsWritten(def, prefix, c, slots, rows, ids) == FillMissingOn(def, prefix, c, slots, rows, ids)
  {
  }

  /// `_loadArray(ids)`, with an empty list answered at once: a null or
  /// undefined list throws; otherwise the cached models, with the misses
  /// fetched in one query and merged back into their slots.
  function LoadArrayOn(def: Definition, prefix: string, c: Cache, d: Db, ids: Value): Outcome<seq<Value>> {
    if IsNullish(ids) then Outcome(Err(Raised("you must provide one or more ids to the method _loadArray")), c, 0)
    else if !ids.Arr? then Outcome(Err(Raised("TypeError: ids.forEach is not a function")), c, 0)
    else if ids.items == [] then Outcome(Ok([]), c, 0)
    else LoadListOn(def, prefix, c, d, ids.items)
  }

  /// The batch lookup of a non-empty list.
  function LoadListOn(def: Definition, prefix: string, c: Cache, d: Db, ids: seq<Value>): Outcome<seq<Value>> {
    if c.failure.Some? then Outcome(Err(StoreError(c.failure.value)), c, 0)
    else match SlotsFrom(def, prefix, c.hashes, [], ids)
      case Err(e) => Outcome(Err(e), c, 0)
      case Ok(slots) =>
        var misses := MissIds(prefix, c.hashes, ids);
        if misses == [] then Outcome(Ok(slots), c, 0)
        else if d.failure.Some? then Outcome(Err(StoreError(d.failure.value)), c, 1)
        else
          SlotsAligned(def, prefix, c.hashes, [], ids);
          var o := FillMissingOn(def, prefix, c, slots, RowsWithIds(d.rows, misses), ids);
          Outcome(o.reply, o.cache, 1)
  }

  /// `_loadArray` as written also answers an empty list twice: once on the
  /// next tick and once more when the empty batch comes back. These are the
  /// replies its request receives, in order.
  function LoadArrayRepliesAsWritten(def: Definition, prefix: string, c: Cache, d: Db, ids: Value): seq<Result<seq<Value>>> {
    if ids.Arr? && ids.items == [] then
      [Ok([])] + [if c.failure.Some? then Err(StoreError(c.failure.value)) else Ok([])]
    else [LoadArrayOn(def, prefix, c, d, ids).reply]
  }

  /// The empty list is answered twice as written, and may even be answered
  /// with an error after its answer; corrected, it is answered once, with the
  /// empty list, whatever the state of the cache.
  lemma EmptyListAnsweredOnce(def: Definition, prefix: string, c: Cache, d: Db)
    ensures |LoadArrayRepliesAsWritten(def, prefix, c, d, Arr([]))| == 2
    ensures c.failure.Some? ==> LoadArrayRepliesAsWritten(def, prefix, c, d, Arr([]))[1].Err?
    ensures LoadArrayOn(def, prefix, c, d, Arr([])) == Outcome(Ok([]), c, 0)
  {
  }

  /// A list whose every id is cached is served from the cache alone.
  lemma AllHitsNoQuery(def: Definition, prefix: string, c: Cache, d: Db, ids: seq<Value>)
    requires c.failure.None? && ids != []
    requires forall i :: 0 <= i < |ids| ==> IdKey(prefix, ids[i]) in c.hashes
    ensures var o := LoadArrayOn(def, prefix, c, d, Arr(ids));
      o.queries == 0 && o.cache == c && o.reply == SlotsFrom(def, prefix, c.hashes, [], ids)
  {
    MissIdsExact(prefix, c.hashes, ids);
  }

  /// The answer lines up with the ids: slot `i` is the cached model of
  /// `ids[i]` when it was cached, and otherwise the model the database
  /// returned for that id, or null; one query is sent exactly when some id
  /// missed.
  lemma LoadArrayAligned(def: Definition, prefix: string, c: Cache, d: Db, ids: seq<Value>)
    requires c.failure.None? && d.failure.None? && ids != []
    requires SlotsFrom(def, prefix, c.hashes, [], ids).Ok?
    requires ByIdFrom(def, map[], RowsWithIds(d.rows, MissIds(prefix, c.hashes, ids))).Ok?
    ensures var o := LoadArrayOn(def, prefix, c, d, Arr(ids));
      var byId := ByIdFrom(def, map[], RowsWithIds(d.rows, MissIds(prefix, c.hashes, ids))).value;
      && o.reply.Ok? && |o.reply.value| == |ids|
      && (o.queries == 1 <==> exists i :: 0 <= i < |ids| && IdKey(prefix, ids[i]) !in c.hashes)
      && (forall i :: 0 <= i < |ids| && IdKey(prefix, ids[i]) in c.hashes ==>
            Ok(o.reply.value[i]) == ModelValue(def, c.hashes[IdKey(prefix, ids[i])]))
      && (forall i :: 0 <= i < |ids| && IdKey(prefix, ids[i]) !in c.hashes ==>
            o.reply.value[i] == if ToStr(ids[i]) in byId then byId[ToStr(ids[i])] else Null)
  {
    LoadListShape(def, prefix, c, d, ids);
    SlotsAligned(def, prefix, c.hashes, [], ids);
    MissIdsExact(prefix, c.hashes, ids);
    var slots := SlotsFrom(def, prefix, c.hashes, [], ids).value;
    var misses := MissIds(prefix, c.hashes, ids);
    var byId := ByIdFrom(def, map[], RowsWithIds(d.rows, misses)).value;
    var o := LoadArrayOn(def, prefix, c, d, Arr(ids));
    forall i | 0 <= i < |ids|
      ensures IdKey(prefix, ids[i]) in c.hashes ==> Ok(o.reply.value[i]) == ModelValue(def, c.hashes[IdKey(prefix, ids[i])])
      ensures IdKey(prefix, ids[i]) !in c.hashes ==>
        o.reply.value[i] == if ToStr(ids[i]) in byId then byId[ToStr(ids[i])] else Null
    {
      assert Ok(slots[i]) == SlotOf(def, prefix, c.hashes, ids[i]);
    }
  }

  /// The reply of a batch whose cached hashes all convert: the slots, filled
  /// from the database's rows when something missed.
  lemma LoadListShape(def: Definition, prefix: string, c: Cache, d: Db, ids: seq<Value>)
    requires c.failure.None? && d.failure.None? && ids != []
    requires SlotsFrom(def, prefix, c.hashes, [], ids).Ok?
    requires ByIdFrom(def, map[], RowsWithIds(d.rows, MissIds(prefix, c.hashes, ids))).Ok?
    ensures var o := LoadArrayOn(def, prefix, c, d, Arr(ids));
      var slots := SlotsFrom(def, prefix, c.hashes, [], ids).value;
      var misses := MissIds(prefix, c.hashes, ids);
      var byId := ByIdFrom(def, map[], RowsWithIds(d.rows, misses)).value;
      && o.queries == (if misses == [] then 0 else 1)
      && |slots| == |ids|
      && o.reply == Ok(if misses == [] then slots else Filled(slots, ids, byId))
  {
    SlotsLength(def, prefix, c.hashes, [], ids);
  }

  // ----- collections -----

  /// `collection[i].id` for every model of a list.
  function IdsOf(models: seq<Value>): seq<Value> {
    seq(|models|, i requires 0 <= i < |models| => IdOf(models[i]))
  }

  /// Ids as the cache stores them: as text.
  function Texts(ids: seq<Value>): seq<string> {
    seq(|ids|, i requires 0 <= i < |ids| => ToStr(ids[i]))
  }

  /// The members of a set, as the strings the cache answers with.
  function StrValues(members: seq<string>): seq<Value> {
    seq(|members|, i requires 0 <= i < |members| => Str(members[i]))
  }

  /// `_unsortedCachedCollection(sql, params, options)`; `answer` stands for
  /// the rows the statement returns. The key is built first.
  function UnsortedOn(def: Definition, prefix: string, c: Cache, d: Db, answer: seq<Record>, params: seq<Value>, options: Value, now: Value): Outcome<seq<Value>> {
    var k := BuildCacheKeyOn(prefix, c, options, Arr(params), now);
    if k.reply.Err? then Outcome(Err(k.reply.error), k.cache, 0)
    else FromSetOn(def, prefix, k.cache, d, answer, k.reply.value.0, k.reply.value.1)
  }

  /// The rest of the unsorted collection, once the key is known: a non-empty
  /// id set under the key is loaded as it is; otherwise the statement runs,
  /// and a non-empty result is remembered as the set (expiring when a ttl
  /// is given) before its models are loaded.
  function FromSetOn(def: Definition, prefix: string, c: Cache, d: Db, answer: seq<Record>, key: string, ttl: Value): Outcome<seq<Value>> {
    if c.failure.Some? then Outcome(Err(StoreError(c.failure.value)), c, 0)
    else
      var members := if key in c.sets then c.sets[key] else [];
      if members != [] then LoadArrayOn(def, prefix, c, d, Arr(StrValues(members)))
      else SetMissOn(def, prefix, c, d, answer, key, ttl)
  }

  /// An empty set: the statement runs, and the ids it finds are remembered
  /// under the key and loaded.
  function SetMissOn(def: Definition, prefix: string, c: Cache, d: Db, answer: seq<Record>, key: string, ttl: Value): Outcome<seq<Value>> {
    if d.failure.Some? then Outcome(Err(StoreError(d.failure.value)), c, 1)
    else match ModelsOf(def, answer)
        case Err(e) => Outcome(Err(e), c, 1)
        case Ok(models) =>
          var ids := IdsOf(models);
          if ids == [] then Outcome(Ok([]), c, 1)
          else
            var o := LoadArrayOn(def, prefix, RememberIds(c, key, ids, ttl), d, Arr(ids));
            Outcome(o.reply, o.cache, 1 + o.queries)
  }

  /// The SADD of the ids' texts under the key, and the EXPIRE when a ttl is
  /// given.
  function RememberIds(c: Cache, key: string, ids: seq<Value>, ttl: Value): Cache {
    var c2 := SAddOn(c, key, Texts(ids));
    if Truthy(ttl) then ExpireOn(c2, key, ttl) else c2
  }

  /// A sort once `_sortedCachedCollection` has normalised it.
  datatype SortSpec = SortSpec(field: Value, direction: Value)

  /// The defaults of a sort object: a null or undefined field is `id`, a
  /// falsy direction `DESC`. Reading `field` of null throws, and writing it
  /// on a primitive throws in strict mode.
  function FillSort(sort: Value): Result<SortSpec> {
    if IsNullish(sort) then Err(Raised("TypeError: Cannot read property 'field' of " + ToStr(sort)))
    else if sort.Obj? then
      var field := Get(sort, "field");
      var direction := Get(sort, "direction");
      Ok(SortSpec(if IsNullish(field) then Str("id") else field, if Truthy(direction) then direction else Str("DESC")))
    else if sort.Arr? then Ok(SortSpec(Str("id"), Str("DESC")))
    else Err(Raised("TypeError: Cannot create property 'field' on " + ToStr(sort)))
  }

  /// `_sortedCachedCollection`'s normalisation of `options.sort`: a string
  /// names a preset of the definition, which must be an object (or null).
  function NormalSortOn(def: Definition, sort: Value): (r: Result<SortSpec>)
    ensures r.Ok? ==> !IsNullish(r.value.field) && Truthy(r.value.direction)
    ensures sort.Obj? ==> r.Ok?
    ensures sort.Obj? && IsNullish(Get(sort, "field")) ==> r.value.field == Str("id")
    ensures sort.Obj? && !IsNullish(Get(sort, "field")) ==> r.value.field == Get(sort, "field")
    ensures sort.Obj? && !Truthy(Get(sort, "direction")) ==> r.value.direction == Str("DESC")
    ensures sort.Obj? && Truthy(Get(sort, "direction")) ==> r.value.direction == Get(sort, "direction")
    ensures sort.Arr? ==> r == Ok(SortSpec(Str("id"), Str("DESC")))
    ensures IsNullish(sort) ==> r.Err?
  {
    if sort.Str? then
      var preset := OptionOf(def.sorts, sort.s);
      if !TypeofObject(preset) then Err(Raised("Invalid pre-defined sort: " + sort.s))
      else FillSort(preset)
    else FillSort(sort)
  }

  /// `options.sort`; on an array this is `Array.prototype.sort`, a function
  /// object without `field` or `direction`.
  function SortOption(options: Value): Value {
    if options.Arr? then Obj(map[]) else Get(options, "sort")
  }

  /// `cachedCollection(sql, params, options)`: a `params` that is not an
  /// array stands for the options. A truthy `options.sort` takes the sorted
  /// path, which only normalises the sort and returns no request (None);
  /// otherwise the unsorted collection is the reply.
  function CachedCollectionOn(def: Definition, prefix: string, c: Cache, d: Db, answer: seq<Record>, params: Value, options: Value, now: Value): Outcome<Option<seq<Value>>> {
    var opts := if params.Arr? then options else params;
    if IsNullish(opts) then Outcome(Err(Raised("TypeError: Cannot read property 'sort' of " + ToStr(opts))), c, 0)
    else if Truthy(SortOption(opts)) then
      match NormalSortOn(def, SortOption(opts))
      case Err(e) => Outcome(Err(e), c, 0)
      case Ok(_) => Outcome(Ok(None), c, 0)
    else
      var o := UnsortedOn(def, prefix, c, d, answer, ParamList(params), opts, now);
      Outcome(if o.reply.Ok? then Ok(Some(o.reply.value)) else Err(o.reply.error), o.cache, o.queries)
  }

  /// The key `add/removeFromCachedCollection` write under. When `params` is
  /// not an array `buildCacheKey` takes it for the callback, and calling it
  /// throws once the key is built or the bucket lookup failed.
  function CollectionKeyOn(prefix: string, c: Cache, keyOptions: Value, params: Value, now: Value): Outcome<string> {
    var k := BuildCacheKeyOn(prefix, c, keyOptions, params, now);
    if k.reply.Err? && (params.Arr? || k.reply.error.Raised?) then Outcome(Err(k.reply.error), k.cache, 0)
    else if !params.Arr? then Outcome(Err(Raised("TypeError: callback is not a function")), k.cache, 0)
    else Outcome(Ok(k.reply.value.0), k.cache, 0)
  }

  /// `addToCachedCollection(keyOptions, params, val)`: SADD of the value.
  function AddToCollectionOn(prefix: string, c: Cache, keyOptions: Value, params: Value, val: Value, now: Value): Outcome<Unit> {
    var k := CollectionKeyOn(prefix, c, keyOptions, params, now);
    if k.reply.Err? then Outcome(Err(k.reply.error), k.cache, 0)
    else Outcome(Ok(Unit), SAddOn(k.cache, k.reply.value, [ToStr(val)]), 0)
  }

  /// `removeFromCachedCollection(keyOptions, params, val)`: SREM of the value.
  function RemoveFromCollectionOn(prefix: string, c: Cache, keyOptions: Value, params: Value, val: Value, now: Value): Outcome<Unit> {
    var k := CollectionKeyOn(prefix, c, keyOptions, params, now);
    if k.reply.Err? then Outcome(Err(k.reply.error), k.cache, 0)
    else Outcome(Ok(Unit), SRemOn(k.cache, k.reply.value, ToStr(val)), 0)
  }

  // ----- saving and deleting through the cache -----

  /// The key `CachedModel.save` and `delete` build by hand.
  function RecordKey(table: string, id: Value): string {
    ModelPrefix(table) + ":" + ToStr(id)
  }

  /// What `CachedModel.save` adds once the plain save delivered the model:
  /// its `dataObject()` merged into the record's hash; a `dataObject()` that
  /// throws writes nothing.
  function SaveThroughOn(c: Cache, table: string, id: Value, data: Result<Record>): Cache {
    if data.Ok? then HMSetOn(c, RecordKey(table, id), data.value) else c
  }

  /// HDEL, as the cache carries it out: with no field named it is refused.
  function HDelOn(c: Cache, key: string, fields: seq<string>): Cache {
    if c.failure.None? && fields != [] && key in c.hashes then
      var rest := c.hashes[key] - (set f | f in fields);
      c.(hashes := if rest == map[] then c.hashes - {key} else c.hashes[key := rest])
    else c
  }

  /// `CachedModel.delete` as written: `hdel` of the record's key, naming no field.
  function DeleteThroughAsWritten(c: Cache, table: string, oldId: Value): Cache {
    HDelOn(c, RecordKey(table, oldId), [])
  }

  /// `CachedModel.delete`, corrected: the record's hash is deleted.
  function DeleteThroughOn(c: Cache, table: string, oldId: Value): Cache {
    DelOn(c, RecordKey(table, oldId))
  }

  // ----- what collections, saves and deletes promise -----

  /// The writes of the merge touch hashes only.
  lemma {:induction false} ApplyWritesKeeps(c: Cache, writes: seq<(string, Record)>)
    ensures ApplyWrites(c, writes) == c.(hashes := ApplyWrites(c, writes).hashes)
    decreases |writes|
  {
    if writes != [] {
      ApplyWritesKeeps(HMSetOn(c, writes[0].0, writes[0].1), writes[1..]);
    }
  }

  /// Loading a list writes model hashes and nothing else.
  lemma LoadArrayKeeps(def: Definition, prefix: string, c: Cache, d: Db, ids: Value)
    ensures var o := LoadArrayOn(def, prefix, c, d, ids);
      o.cache == c.(hashes := o.cache.hashes)
  {
    if ids.Arr? && ids.items != [] && c.failure.None? {
      var slots := SlotsFrom(def, prefix, c.hashes, [], ids.items);
      if slots.Ok? {
        SlotsAligned(def, prefix, c.hashes, [], ids.items);
        var misses := MissIds(prefix, c.hashes, ids.items);
        if misses != [] && d.failure.None? {
          var rows := RowsWithIds(d.rows, misses);
          var byId := ByIdFrom(def, map[], rows);
          if byId.Ok? {
            ApplyWritesKeeps(c, FillWrites(def, prefix, slots.value, ids.items, byId.value));
          }
        }
      }
    }
  }

  /// Building a key reads the strings of the cache and nothing else, and
  /// writes nothing else.
  lemma KeyReadsStrings(prefix: string, c: Cache, c': Cache, options: Value, params: Value, now: Value)
    requires c'.strings == c.strings && c'.failure == c.failure
    ensures var o := BuildCacheKeyOn(prefix, c, options, params, now);
      var o' := BuildCacheKeyOn(prefix, c', options, params, now);
      && o'.reply == o.reply
      && o.cache == c.(strings := o.cache.strings)
      && o'.cache == c'.(strings := o.cache.strings)
  {
    BucketReadsStrings(c, c', options, now);
  }

  /// So does finding the bucket of a key.
  lemma BucketReadsStrings(c: Cache, c': Cache, options: Value, now: Value)
    requires c'.strings == c.strings && c'.failure == c.failure
    ensures var b := BucketOn(c, options, now);
      var b' := BucketOn(c', options, now);
      && b'.reply == b.reply
      && b.cache == c.(strings := b.cache.strings)
      && b'.cache == c'.(strings := b.cache.strings)
  {
    var kt := KeyTimer(NormalOptions(options));
    if kt.Ok? && kt.value.Some? {
      GetTimeReadsStrings(c, c', kt.value.value, now);
    }
  }

  /// The bucket lookup reads and writes strings only.
  lemma GetTimeReadsStrings(c: Cache, c': Cache, timer: string, now: Value)
    requires c'.strings == c.strings && c'.failure == c.failure
    ensures var t := GetTimeOn(c, timer, now);
      var t' := GetTimeOn(c', timer, now);
      && t'.reply == t.reply && t.queries == 0 && t'.queries == 0
      && t.cache == c.(strings := t.cache.strings)
      && t'.cache == c'.(strings := t.cache.strings)
  {
  }

  /// `cachedCollection` takes the sorted path exactly when `options.sort` is
  /// truthy; that path only checks the sort, changes nothing and returns no
  /// request, and the other path is the unsorted collection.
  lemma CollectionRoutes(def: Definition, prefix: string, c: Cache, d: Db, answer: seq<Record>, params: Value, options: Value, now: Value)
    requires !IsNullish(if params.Arr? then options else params)
    ensures var opts := if params.Arr? then options else params;
      var o := CachedCollectionOn(def, prefix, c, d, answer, params, options, now);
      var u := UnsortedOn(def, prefix, c, d, answer, ParamList(params), opts, now);
      && (Truthy(SortOption(opts)) ==>
            o.cache == c && o.queries == 0 &&
            (o.reply.Ok? <==> NormalSortOn(def, SortOption(opts)).Ok?) && (o.reply.Ok? ==> o.reply.value.None?))
      && (!Truthy(SortOption(opts)) ==>
            o.cache == u.cache && o.queries == u.queries && (o.reply.Ok? <==> u.reply.Ok?) &&
            (u.reply.Ok? ==> o.reply == Ok(Some(u.reply.value))))
  {
  }

  /// A non-empty id set under the key is loaded as it stands: the statement
  /// is not run.
  lemma SetHitRunsNoStatement(def: Definition, prefix: string, c: Cache, d: Db, answer: seq<Record>, key: string, ttl: Value)
    requires c.failure.None? && key in c.sets && c.sets[key] != []
    ensures FromSetOn(def, prefix, c, d, answer, key, ttl) == LoadArrayOn(def, prefix, c, d, Arr(StrValues(c.sets[key])))
  {
  }

  /// When the statement returns no rows, `[]` is delivered and nothing is
  /// written.
  lemma EmptyResultNotCached(def: Definition, prefix: string, c: Cache, d: Db, key: string, ttl: Value)
    requires c.failure.None? && d.failure.None? && (key !in c.sets || c.sets[key] == [])
    ensures FromSetOn(def, prefix, c, d, [], key, ttl) == Outcome(Ok([]), c, 1)
  {
  }

  /// When the statement returns rows, their ids become the set under the
  /// key, which expires only when a ttl is given, and the models are then
  /// loaded by id; one statement is run besides the loading.
  lemma ResultRemembered(def: Definition, prefix: string, c: Cache, d: Db, answer: seq<Record>, key: string, ttl: Value)
    requires c.failure.None? && d.failure.None? && (key !in c.sets || c.sets[key] == [])
    requires answer != [] && ModelsOf(def, answer).Ok?
    ensures var ids := IdsOf(ModelsOf(def, answer).value);
      var o := FromSetOn(def, prefix, c, d, answer, key, ttl);
      var l := LoadArrayOn(def, prefix, RememberIds(c, key, ids, ttl), d, Arr(ids));
      && |ids| == |answer|
      && o.reply == l.reply && o.queries == 1 + l.queries
      && o.cache == RememberIds(c, key, ids, ttl).(hashes := o.cache.hashes)
  {
    var ids := IdsOf(ModelsOf(def, answer).value);
    LoadArrayKeeps(def, prefix, RememberIds(c, key, ids, ttl), d, Arr(ids));
  }

  /// The remembered set holds exactly the ids' texts, no other set changes,
  /// and the set expires only when a ttl is given.
  lemma RememberedIds(c: Cache, key: string, ids: seq<Value>, ttl: Value)
    requires c.failure.None? && (key !in c.sets || c.sets[key] == [])
    ensures var r := RememberIds(c, key, ids, ttl);
      && key in r.sets
      && (forall m :: m in r.sets[key] <==> exists i :: 0 <= i < |ids| && ToStr(ids[i]) == m)
      && r.sets - {key} == c.sets - {key}
      && (Truthy(ttl) ==> r.ttls == c.ttls[key := ttl])
      && (!Truthy(ttl) ==> r.ttls == c.ttls)
      && r.strings == c.strings && r.hashes == c.hashes && r.failure == c.failure
  {
    var c2 := SAddOn(c, key, Texts(ids));
    assert c2.sets == c.sets[key := AddMembers([], Texts(ids))];
    TextsAdded(ids);
  }

  /// The members a SADD of the ids' texts leaves in an empty set.
  lemma TextsAdded(ids: seq<Value>)
    ensures forall m :: m in AddMembers([], Texts(ids)) <==> exists i :: 0 <= i < |ids| && ToStr(ids[i]) == m
  {
    forall m | m in Texts(ids)
      ensures exists i :: 0 <= i < |ids| && ToStr(ids[i]) == m
    {
      var i :| 0 <= i < |Texts(ids)| && Texts(ids)[i] == m;
    }
    forall i | 0 <= i < |ids|
      ensures ToStr(ids[i]) in Texts(ids)
    {
      assert Texts(ids)[i] == ToStr(ids[i]);
    }
  }

  /// After the statement ran and returned rows, or the set was there
  /// already, the set under the key is not empty.
  lemma SetFilled(def: Definition, prefix: string, c: Cache, d: Db, answer: seq<Record>, key: string, ttl: Value)
    requires c.failure.None? && d.failure.None?
    requires answer != [] && ModelsOf(def, answer).Ok?
    ensures var o := FromSetOn(def, prefix, c, d, answer, key, ttl);
      && key in o.cache.sets && o.cache.sets[key] != []
      && o.cache.strings == c.strings && o.cache.failure == c.failure
  {
    if key in c.sets && c.sets[key] != [] {
      LoadArrayKeeps(def, prefix, c, d, Arr(StrValues(c.sets[key])));
    } else {
      ResultRemembered(def, prefix, c, d, answer, key, ttl);
      var ids := IdsOf(ModelsOf(def, answer).value);
      RememberedIds(c, key, ids, ttl);
      assert ToStr(ids[0]) in RememberIds(c, key, ids, ttl).sets[key];
    }
  }

  /// Once an unsorted collection has run, the next one with the same options
  /// is served from the id set, without the statement, whatever the
  /// statement would return by then: the key is the same (its time bucket
  /// was created the first time) and the set under it is not empty.
  lemma RememberedSetServesNext(def: Definition, prefix: string, c: Cache, d: Db, answer: seq<Record>, later: seq<Record>,
                                params: seq<Value>, options: Value, now: Value, now2: Value)
    requires c.failure.None? && d.failure.None? && now.Num? && now.n > 0
    requires answer != [] && ModelsOf(def, answer).Ok?
    ensures var k := BuildCacheKeyOn(prefix, c, options, Arr(params), now);
      var first := UnsortedOn(def, prefix, c, d, answer, params, options, now);
      var second := UnsortedOn(def, prefix, first.cache, d, later, params, options, now2);
      k.reply.Ok? ==>
        && k.reply.value.0 in first.cache.sets && first.cache.sets[k.reply.value.0] != []
        && second == LoadArrayOn(def, prefix, first.cache, d, Arr(StrValues(first.cache.sets[k.reply.value.0])))
  {
    var k := BuildCacheKeyOn(prefix, c, options, Arr(params), now);
    if k.reply.Ok? {
      var (key, ttl) := k.reply.value;
      KeyReadsStrings(prefix, c, c, options, Arr(params), now);
      assert k.cache.failure.None?;
      var first := FromSetOn(def, prefix, k.cache, d, answer, key, ttl);
      SetFilled(def, prefix, k.cache, d, answer, key, ttl);
      TimedKeyStable(prefix, c, options, Arr(params), now, now2);
      KeyReadsStrings(prefix, k.cache, first.cache, options, Arr(params), now2);
      var k2 := BuildCacheKeyOn(prefix, first.cache, options, Arr(params), now2);
      assert k2 == Outcome(k.reply, first.cache, 0);
      SetHitRunsNoStatement(def, prefix, first.cache, d, later, key, ttl);
    }
  }

  /// A name that is not a preset of the definition throws.
  lemma UnknownSortThrows(def: Definition, name: string)
    requires name !in def.sorts || !TypeofObject(def.sorts[name])
    ensures NormalSortOn(def, Str(name)) == Err(Raised("Invalid pre-defined sort: " + name))
  {
  }

  /// A preset's name normalises as the preset itself does.
  lemma PresetIsItsSort(def: Definition, name: string)
    requires name in def.sorts && TypeofObject(def.sorts[name])
    ensures NormalSortOn(def, Str(name)) == NormalSortOn(def, def.sorts[name])
  {
  }

  /// Normalising a preset writes its defaults into it; normalising it again
  /// afterwards gives the same sort, so the preset's change is not seen.
  lemma PresetNormalisedOnce(def: Definition, name: string)
    requires name in def.sorts && def.sorts[name].Obj?
    ensures var s := NormalSortOn(def, Str(name)).value;
      var preset := def.sorts[name];
      var def' := def.(sorts := def.sorts[name := Obj(preset.props["field" := s.field]["direction" := s.direction])]);
      NormalSortOn(def', Str(name)) == NormalSortOn(def, Str(name))
  {
  }

  /// Adding to a collection: when the key is built the value's text is a
  /// member of the set under it, the old members stay and no other set
  /// changes.
  lemma AddedIsMember(prefix: string, c: Cache, keyOptions: Value, params: Value, val: Value, now: Value)
    requires c.failure.None? && params.Arr?
    ensures var k := BuildCacheKeyOn(prefix, c, keyOptions, params, now);
      var o := AddToCollectionOn(prefix, c, keyOptions, params, val, now);
      && (o.reply.Ok? <==> k.reply.Ok?)
      && (k.reply.Ok? ==>
            var key := k.reply.value.0;
            && key in o.cache.sets
            && (forall m :: m in o.cache.sets[key] <==> m == ToStr(val) || (key in c.sets && m in c.sets[key]))
            && o.cache.sets - {key} == c.sets - {key})
  {
    var k := BuildCacheKeyOn(prefix, c, keyOptions, params, now);
    CollectionKeyIsKey(prefix, c, keyOptions, params, now);
    KeyReadsStrings(prefix, c, c, keyOptions, params, now);
    if k.reply.Ok? {
      var key := k.reply.value.0;
      assert AddToCollectionOn(prefix, c, keyOptions, params, val, now) == Outcome(Ok(Unit), SAddOn(k.cache, key, [ToStr(val)]), 0);
      Added(k.cache, key, ToStr(val));
    }
  }

  /// Removing from a collection: the value's text is no longer a member,
  /// the other members stay and no other set changes.
  lemma RemovedIsAbsent(prefix: string, c: Cache, keyOptions: Value, params: Value, val: Value, now: Value)
    requires c.failure.None? && params.Arr?
    ensures var k := BuildCacheKeyOn(prefix, c, keyOptions, params, now);
      var o := RemoveFromCollectionOn(prefix, c, keyOptions, params, val, now);
      && (o.reply.Ok? <==> k.reply.Ok?)
      && (k.reply.Ok? ==>
            var key := k.reply.value.0;
            && (key in o.cache.sets <==> key in c.sets)
            && (key in c.sets ==> forall m :: m in o.cache.sets[key] <==> m != ToStr(val) && m in c.sets[key])
            && o.cache.sets - {key} == c.sets - {key})
  {
    var k := BuildCacheKeyOn(prefix, c, keyOptions, params, now);
    CollectionKeyIsKey(prefix, c, keyOptions, params, now);
    KeyReadsStrings(prefix, c, c, keyOptions, params, now);
    if k.reply.Ok? {
      var key := k.reply.value.0;
      assert RemoveFromCollectionOn(prefix, c, keyOptions, params, val, now) == Outcome(Ok(Unit), SRemOn(k.cache, key, ToStr(val)), 0);
      Removed(k.cache, key, ToStr(val));
    }
  }

  /// SADD of one member on a working cache.
  lemma Added(c: Cache, key: string, member: string)
    requires c.failure.None?
    ensures var r := SAddOn(c, key, [member]);
      && key in r.sets
      && (forall m :: m in r.sets[key] <==> m == member || (key in c.sets && m in c.sets[key]))
      && r.sets - {key} == c.sets - {key}
  {
  }

  /// SREM of one member on a working cache.
  lemma Removed(c: Cache, key: string, member: string)
    requires c.failure.None?
    ensures var r := SRemOn(c, key, member);
      && (key in r.sets <==> key in c.sets)
      && (key in c.sets ==> forall m :: m in r.sets[key] <==> m != member && m in c.sets[key])
      && r.sets - {key} == c.sets - {key}
  {
  }

  /// With an array of parameters the collection key is the built key.
  lemma CollectionKeyIsKey(prefix: string, c: Cache, keyOptions: Value, params: Value, now: Value)
    requires params.Arr?
    ensures var k := BuildCacheKeyOn(prefix, c, keyOptions, params, now);
      var o := CollectionKeyOn(prefix, c, keyOptions, params, now);
      && o.cache == k.cache && o.queries == 0
      && (o.reply.Ok? <==> k.reply.Ok?)
      && (k.reply.Ok? ==> o.reply.value == k.reply.value.0)
  {
  }

  /// Adding a value and removing it again, later, with the same options
  /// leaves the set with exactly the members it had before, less that value.
  lemma AddThenRemove(prefix: string, c: Cache, keyOptions: Value, params: Value, val: Value, now: Value, later: Value)
    requires c.failure.None? && params.Arr? && now.Num? && now.n > 0
    ensures var k := BuildCacheKeyOn(prefix, c, keyOptions, params, now);
      var added := AddToCollectionOn(prefix, c, keyOptions, params, val, now);
      var removed := RemoveFromCollectionOn(prefix, added.cache, keyOptions, params, val, later);
      k.reply.Ok? ==>
        var key := k.reply.value.0;
        && removed.reply.Ok? && key in removed.cache.sets
        && forall m :: m in removed.cache.sets[key] <==> m != ToStr(val) && key in c.sets && m in c.sets[key]
  {
    var k := BuildCacheKeyOn(prefix, c, keyOptions, params, now);
    if k.reply.Ok? {
      var added := AddToCollectionOn(prefix, c, keyOptions, params, val, now);
      TimedKeyStable(prefix, c, keyOptions, params, now, later);
      KeyReadsStrings(prefix, k.cache, added.cache, keyOptions, params, later);
      AddedIsMember(prefix, c, keyOptions, params, val, now);
    }
  }

  /// After `CachedModel.save` the record is a cache hit: loading its id
  /// sends no SQL and delivers the hash, which holds every saved field.
  lemma SaveThenLoadHits(def: Definition, c: Cache, d: Db, id: Value, data: Record)
    requires c.failure.None? && !IsNullish(id) && data != map[]
    ensures var after := SaveThroughOn(c, def.table, id, Ok(data));
      var key := IdKey(ModelPrefix(def.table), id);
      var o := LoadByIdOn(def, ModelPrefix(def.table), after, d, id);
      && key in after.hashes
      && (forall f :: f in data ==> f in after.hashes[key] && after.hashes[key][f] == data[f])
      && o == Outcome(ModelValue(def, after.hashes[key]), after, 0)
  {
    SaveKeyIsLoadKey(def.table, id);
  }

  /// `CachedModel.delete` as written leaves the hash: once the row is gone,
  /// loading the old id is still a cache hit that sends no SQL and does not
  /// deliver null.
  lemma DeleteLeavesStaleHit(def: Definition, c: Cache, d: Db, id: Value)
    requires c.failure.None? && d.failure.None? && !IsNullish(id)
    requires IdKey(ModelPrefix(def.table), id) in c.hashes
    ensures var gone := d.(rows := RowsWithoutId(d.rows, id));
      var o := LoadByIdOn(def, ModelPrefix(def.table), DeleteThroughAsWritten(c, def.table, id), gone, id);
      && FirstMatch(gone.rows, "id", id).None?
      && o.queries == 0 && o.reply != Ok(Null)
  {
    SaveKeyIsLoadKey(def.table, id);
  }

  /// The corrected delete evicts the record: loading the old id goes to the
  /// database, which no longer has the row, and delivers null.
  lemma DeleteEvicts(def: Definition, c: Cache, d: Db, id: Value)
    requires c.failure.None? && d.failure.None? && !IsNullish(id)
    ensures var gone := d.(rows := RowsWithoutId(d.rows, id));
      var after := DeleteThroughOn(c, def.table, id);
      LoadByIdOn(def, ModelPrefix(def.table), after, gone, id) == Outcome(Ok(Null), after, 1)
  {
    SaveKeyIsLoadKey(def.table, id);
    var gone := d.(rows := RowsWithoutId(d.rows, id));
    assert FirstMatch(gone.rows, "id", id).None?;
  }

  // ----- the module -----

  class CachedModelModule {
    const def: Definition
    const prefix: string          // `_cache_prefix`
    const cache: CacheStore       // `redis`
    const db: SqlStore            // `connection`
    const base: ModelModule       // the plain module it extends

    predicate Valid() {
      && base.def == def && base.db == db
      && prefix == ModelPrefix(def.table)
      && CheckDefinition(def).Ok?
    }

    /// `setModel(definition)` for a definition the reserved-word checks accept.
    constructor (d: Definition, c: CacheStore, store: SqlStore)
      requires CheckDefinition(d).Ok?
      ensures def == d && cache == c && db == store && Valid()
    {
      def, prefix, cache, db := d, ModelPrefix(d.table), c, store;
      base := new ModelModule(d, store);
    }

    method GetTime(timer: string, now: Value) returns (r: Result<Value>)
      modifies cache`strings
      ensures var o := GetTimeOn(old(CacheOf(cache)), timer, now);
        r == o.reply && CacheOf(cache) == o.cache
    {
      var key := TimeKey(timer);
      var got := cache.GetString(key);
      if got.Err? {
        return Err(got.error);
      }
      if got.value.Some? && got.value.value != "" {
        return Ok(Str(got.value.value));
      }
      var done := cache.SetString(key, ToStr(now));
      r := Ok(now);
    }

    method BuildCacheKey(options: Value, params: Value, now: Value) returns (r: Result<(string, Value)>)
      modifies cache`strings
      ensures var o := BuildCacheKeyOn(prefix, old(CacheOf(cache)), options, params, now);
        r == o.reply && CacheOf(cache) == o.cache
    {
      var o := NormalOptions(options);
      var timer := KeyTimer(o);
      if timer.Err? {
        return Err(timer.error);
      }
      var bucket: Option<Value> := None;
      if timer.value.Some? {
        var t := GetTime(timer.value.value, now);
        if t.Err? {
          return Err(t.error);
        }
        bucket := Some(t.value);
      }
      r := Ok(KeyAndTtl(prefix, o, params, bucket));
    }

    method LoadById(id: Value) returns (r: Result<Value>)
      requires Valid()
      modifies cache`hashes, db`queries
      ensures var o := LoadByIdOn(def, prefix, old(CacheOf(cache)), old(DbOf(db)), id);
        r == o.reply && CacheOf(cache) == o.cache && db.queries == old(db.queries) + o.queries
    {
      var hit := cache.HGetAll(IdKey(prefix, id));
      if hit.Err? {
        return Err(hit.error);
      }
      if hit.value.Some? {
        return ModelValue(def, hit.value.value);
      }
      r := base.Load(id, Str("id"));
      if r.Ok? && r.value.Obj? {
        cache.HMSet(IdKey(prefix, IdOf(r.value)), CachedData(def, r.value.props));
      }
    }

    method FindId(value: Value, field: Value) returns (r: Result<Value>)
      ensures r == FindIdOn(prefix, CacheOf(cache), field, value)
    {
      var got := cache.GetString(IndexKey(prefix, field, value));
      if got.Err? {
        return Err(got.error);
      }
      r := if got.value.Some? then Ok(Str(got.value.value)) else Ok(Null);
    }

    method LoadModel(value: Value, field: Value) returns (r: Result<Value>)
      requires Valid()
      modifies cache`hashes, cache`sets, cache`strings, cache`ttls, db`queries
      ensures var o := LoadModelOn(def, prefix, old(CacheOf(cache)), old(DbOf(db)), value, field);
        r == o.reply && CacheOf(cache) == o.cache && db.queries == old(db.queries) + o.queries
    {
      var f := FieldOrId(field);
      if f == Str("id") {
        r := LoadById(value);
        return;
      }
      r := LoadByIndex(value, f);
    }

    /// `_loadModel` by another field.
    method LoadByIndex(value: Value, f: Value) returns (r: Result<Value>)
      requires Valid()
      modifies cache`hashes, cache`sets, cache`strings, cache`ttls, db`queries
      ensures var o := LoadByIndexOn(def, prefix, old(CacheOf(cache)), old(DbOf(db)), value, f);
        r == o.reply && CacheOf(cache) == o.cache && db.queries == old(db.queries) + o.queries
    {
      var key := IndexKey(prefix, f, value);
      var id := FindId(value, f);
      if id.Err? {
        return Err(id.error);
      }
      if Truthy(id.value) {
        r := LoadIndexed(key, id.value);
      } else {
        r := LoadUnindexed(key, value, f);
      }
    }

    /// An index hit: the load by the id found, then the entry is rewritten
    /// with the id of the model, or deleted when there was none.
    method LoadIndexed(key: string, id: Value) returns (r: Result<Value>)
      requires Valid()
      modifies cache`hashes, cache`sets, cache`strings, cache`ttls, db`queries
      ensures var o := LoadByIdOn(def, prefix, old(CacheOf(cache)), old(DbOf(db)), id);
        && r == o.reply && db.queries == old(db.queries) + o.queries
        && CacheOf(cache) == if o.reply.Err? then o.cache else Reindex(o.cache, key, o.reply.value)
    {
      r := LoadById(id);
      if r.Ok? {
        if r.value.Obj? {
          var done := cache.SetString(key, ToStr(IdOf(r.value)));
        } else {
          cache.Del(key);
        }
      }
    }

    /// An index miss: the plain load, whose model is remembered under the
    /// entry and in its hash.
    method LoadUnindexed(key: string, value: Value, f: Value) returns (r: Result<Value>)
      requires Valid()
      modifies cache`hashes, cache`strings, db`queries
      ensures r == DbLoadOn(def, old(DbOf(db)), if f.Str? then f.s else "id", value)
      ensures CacheOf(cache) == RememberBoth(def, prefix, old(CacheOf(cache)), key, r)
      ensures db.queries == old(db.queries) + 1
    {
      r := base.Load(value, f);
      RememberModel(key, r);
    }

    /// The writes after an index miss: the entry, then the record's hash.
    method RememberModel(key: string, r: Result<Value>)
      modifies cache`hashes, cache`strings
      ensures CacheOf(cache) == RememberBoth(def, prefix, old(CacheOf(cache)), key, r)
    {
      if r.Ok? && r.value.Obj? {
        var done := cache.SetString(key, ToStr(IdOf(r.value)));
        cache.HMSet(IdKey(prefix, IdOf(r.value)), CachedData(def, r.value.props));
      }
    }


    /// `_fillMissingCacheValues(slots, rows, ids)`, corrected: the rows are
    /// filed by id, each missed slot takes its model, and the model is queued
    /// to be written back to the cache.
    method FillMissing(slots: seq<Value>, rows: seq<Record>, ids: seq<Value>) returns (r: Result<seq<Value>>)
      requires |ids| == |slots|
      modifies cache`hashes
      ensures var o := FillMissingOn(def, prefix, old(CacheOf(cache)), slots, rows, ids);
        r == o.reply && CacheOf(cache) == o.cache
    {
      var byId := FileById(rows);
      if byId.Err? {
        return Err(byId.error);
      }
      var filled := FillSlots(slots, ids, byId.value);
      r := Ok(filled);
    }

    /// The first loop of `_fillMissingCacheValues`: the rows filed by id.
    method FileById(rows: seq<Record>) returns (r: Result<map<string, Value>>)
      ensures r == ByIdFrom(def, map[], rows)
    {
      var byId: map<string, Value> := map[];
      var rest := rows;
      while rest != []
        invariant ByIdFrom(def, byId, rest) == ByIdFrom(def, map[], rows)
        decreases |rest|
      {
        var m := ModelValue(def, rest[0]);
        if m.Err? {
          return Err(m.error);
        }
        byId := byId[ToStr(IdOf(m.value)) := m.value];
        rest := rest[1..];
      }
      r := Ok(byId);
    }

    /// The second loop: each missed slot whose id has a row takes its model,
    /// which is written back to the cache.
    method FillSlots(slots: seq<Value>, ids: seq<Value>, byId: map<string, Value>) returns (filled: seq<Value>)
      requires |ids| == |slots|
      modifies cache`hashes
      ensures filled == Filled(slots, ids, byId)
      ensures CacheOf(cache) == ApplyWrites(old(CacheOf(cache)), FillWrites(def, prefix, slots, ids, byId))
    {
      ghost var writes := FillWrites(def, prefix, slots, ids, byId);
      filled := slots;
      for i := 0 to |slots|
        invariant |filled| == |slots|
        invariant forall j :: 0 <= j < i ==> filled[j] == Filled(slots, ids, byId)[j]
        invariant forall j :: i <= j < |slots| ==> filled[j] == slots[j]
        invariant ApplyWrites(CacheOf(cache), FillWrites(def, prefix, slots[i..], ids[i..], byId)) ==
                  ApplyWrites(old(CacheOf(cache)), writes)
      {
        assert slots[i..][1..] == slots[i + 1..] && ids[i..][1..] == ids[i + 1..];
        if slots[i] == Null && ToStr(ids[i]) in byId {
          var m := byId[ToStr(ids[i])];
          filled := filled[i := m];
          cache.HMSet(IdKey(prefix, IdOf(m)), ModelData(def, m));
        }
      }
      assert filled == Filled(slots, ids, byId);
    }

    /// The replies of the `hgetall` batch, instantiated, and the ids that
    /// missed, collected in order.
    method CachedSlots(list: seq<Value>) returns (slots: Result<seq<Value>>, misses: seq<Value>)
      ensures slots == SlotsFrom(def, prefix, cache.hashes, [], list)
      ensures misses == MissIds(prefix, cache.hashes, list)
    {
      var hashes := cache.hashes;
      var found: seq<Value> := [];
      misses := [];
      for i := 0 to |list|
        invariant SlotsFrom(def, prefix, hashes, found, list[i..]) == SlotsFrom(def, prefix, hashes, [], list)
        invariant misses + MissIds(prefix, hashes, list[i..]) == MissIds(prefix, hashes, list)
      {
        var key := IdKey(prefix, list[i]);
        SlotsStep(def, prefix, hashes, found, list, i);
        MissStep(prefix, hashes, misses, list, i);
        if key in hashes {
          var m := ModelValue(def, hashes[key]);
          if m.Err? {
            return Err(m.error), MissIds(prefix, hashes, list);
          }
          found := found + [m.value];
        } else {
          found := found + [Null];
          misses := misses + [list[i]];
        }
      }
      LoopDone(def, prefix, hashes, found, misses, list);
      slots := Ok(found);
    }

    /// `_loadArray(ids)`: the batch of cached hashes, then at most one query
    /// for the misses, merged back into their slots.
    method LoadArray(ids: Value) returns (r: Result<seq<Value>>)
      requires Valid()
      modifies cache`hashes, db`queries
      ensures var o := LoadArrayOn(def, prefix, old(CacheOf(cache)), old(DbOf(db)), ids);
        r == o.reply && CacheOf(cache) == o.cache && db.queries == old(db.queries) + o.queries
    {
      if IsNullish(ids) {
        return Err(Raised("you must provide one or more ids to the method _loadArray"));
      }
      if !ids.Arr? {
        return Err(Raised("TypeError: ids.forEach is not a function"));
      }
      if ids.items == [] {
        return Ok([]);
      }
      var list := ids.items;
      if cache.failure.Some? {
        return Err(StoreError(cache.failure.value));
      }
      var slots, misses := CachedSlots(list);
      if slots.Err? {
        return Err(slots.error);
      }
      SlotsAligned(def, prefix, cache.hashes, [], list);
      if misses == [] {
        return Ok(slots.value);
      }
      var rows := db.SelectIds(misses);
      if rows.Err? {
        return Err(rows.error);
      }
      r := FillMissing(slots.value, rows.value, list);
    }

    /// `_unsortedCachedCollection(sql, params, options)`: the key first, then
    /// the id set under it.
    method UnsortedCollection(answer: seq<Record>, params: seq<Value>, options: Value, now: Value) returns (r: Result<seq<Value>>)
      requires Valid()
      modifies cache`hashes, cache`sets, cache`strings, cache`ttls, db`queries
      ensures var o := UnsortedOn(def, prefix, old(CacheOf(cache)), old(DbOf(db)), answer, params, options, now);
        r == o.reply && CacheOf(cache) == o.cache && db.queries == old(db.queries) + o.queries
    {
      var k := BuildCacheKey(options, Arr(params), now);
      if k.Err? {
        return Err(k.error);
      }
      r := FromSet(answer, k.value.0, k.value.1);
    }

    /// The callback of `buildCacheKey` in `_unsortedCachedCollection`.
    method FromSet(answer: seq<Record>, key: string, ttl: Value) returns (r: Result<seq<Value>>)
      requires Valid()
      modifies cache`hashes, cache`sets, cache`ttls, db`queries
      ensures var o := FromSetOn(def, prefix, old(CacheOf(cache)), old(DbOf(db)), answer, key, ttl);
        r == o.reply && CacheOf(cache) == o.cache && db.queries == old(db.queries) + o.queries
    {
      var members := cache.SMembers(key);
      if members.Err? {
        return Err(members.error);
      }
      if members.value != [] {
        r := LoadArray(Arr(StrValues(members.value)));
        return;
      }
      r := SetMiss(answer, key, ttl);
    }

    /// The statement for an empty set, then the SADD and the load.
    method SetMiss(answer: seq<Record>, key: string, ttl: Value) returns (r: Result<seq<Value>>)
      requires Valid()
      modifies cache`hashes, cache`sets, cache`ttls, db`queries
      ensures var o := SetMissOn(def, prefix, old(CacheOf(cache)), old(DbOf(db)), answer, key, ttl);
        r == o.reply && CacheOf(cache) == o.cache && db.queries == old(db.queries) + o.queries
    {
      var collection := base.Collection(answer);
      if collection.Err? {
        return Err(collection.error);
      }
      var models := collection.value;
      var ids: seq<Value> := [];
      for i := 0 to |models|
        invariant ids == IdsOf(models[..i])
      {
        ids := ids + [IdOf(models[i])];
      }
      assert models[..|models|] == models;
      if ids == [] {
        return Ok([]);
      }
      RememberSet(key, ids, ttl);
      r := LoadArray(Arr(ids));
    }

    /// The SADD of the ids, and the EXPIRE once it is done when there is a ttl.
    method RememberSet(key: string, ids: seq<Value>, ttl: Value)
      modifies cache`sets, cache`ttls
      ensures CacheOf(cache) == RememberIds(old(CacheOf(cache)), key, ids, ttl)
    {
      cache.SAdd(key, Texts(ids));
      if Truthy(ttl) {
        cache.Expire(key, ttl);
      }
    }

    /// `cachedCollection(sql, params, options)`.
    method CachedCollection(answer: seq<Record>, params: Value, options: Value, now: Value) returns (r: Result<Option<seq<Value>>>)
      requires Valid()
      modifies cache`hashes, cache`sets, cache`strings, cache`ttls, db`queries
      ensures var o := CachedCollectionOn(def, prefix, old(CacheOf(cache)), old(DbOf(db)), answer, params, options, now);
        r == o.reply && CacheOf(cache) == o.cache && db.queries == old(db.queries) + o.queries
    {
      var opts := if params.Arr? then options else params;
      if IsNullish(opts) {
        return Err(Raised("TypeError: Cannot read property 'sort' of " + ToStr(opts)));
      }
      var sort := SortOption(opts);
      if Truthy(sort) {
        var spec := NormalSortOn(def, sort);
        if spec.Err? {
          return Err(spec.error);
        }
        return Ok(None);
      }
      var u := UnsortedCollection(answer, ParamList(params), opts, now);
      r := if u.Ok? then Ok(Some(u.value)) else Err(u.error);
    }

    /// The key `addToCachedCollection` and `removeFromCachedCollection`
    /// write under.
    method CollectionKey(keyOptions: Value, params: Value, now: Value) returns (r: Result<string>)
      modifies cache`strings
      ensures var o := CollectionKeyOn(prefix, old(CacheOf(cache)), keyOptions, params, now);
        r == o.reply && CacheOf(cache) == o.cache
    {
      var k := BuildCacheKey(keyOptions, params, now);
      if k.Err? && (params.Arr? || k.error.Raised?) {
        return Err(k.error);
      }
      if !params.Arr? {
        return Err(Raised("TypeError: callback is not a function"));
      }
      r := Ok(k.value.0);
    }

    /// `addToCachedCollection(keyOptions, params, val)`.
    method AddToCachedCollection(keyOptions: Value, params: Value, val: Value, now: Value) returns (r: Result<Unit>)
      modifies cache`sets, cache`strings
      ensures var o := AddToCollectionOn(prefix, old(CacheOf(cache)), keyOptions, params, val, now);
        r == o.reply && CacheOf(cache) == o.cache
    {
      var key := CollectionKey(keyOptions, params, now);
      if key.Err? {
        return Err(key.error);
      }
      cache.SAdd(key.value, [ToStr(val)]);
      r := Ok(Unit);
    }

    /// `removeFromCachedCollection(keyOptions, params, val)`.
    method RemoveFromCachedCollection(keyOptions: Value, params: Value, val: Value, now: Value) returns (r: Result<Unit>)
      modifies cache`sets, cache`strings
      ensures var o := RemoveFromCollectionOn(prefix, old(CacheOf(cache)), keyOptions, params, val, now);
        r == o.reply && CacheOf(cache) == o.cache
    {
      var key := CollectionKey(keyOptions, params, now);
      if key.Err? {
        return Err(key.error);
      }
      cache.SRem(key.value, ToStr(val));
      r := Ok(Unit);
    }
  }

  /// `setModel(definition)` of the cached module: the plain module's checks,
  /// then the prefix `models:<table>`.
  method SetCachedModel(d: Definition, c: CacheStore, store: SqlStore) returns (r: Result<CachedModelModule>)
    ensures r.Err? <==> CheckDefinition(d).Err?
    ensures r.Ok? ==>
      fresh(r.value) && r.value.def == d && r.value.cache == c && r.value.db == store &&
      r.value.prefix == ModelPrefix(d.table) && r.value.Valid()
  {
    var check := CheckDefinition(d);
    if check.Err? {
      return Err(check.error);
    }
    var m := new CachedModelModule(d, c, store);
    r := Ok(m);
  }

  /// `CachedModel`: a model whose save and delete also write the cache.
  class CachedModel {
    const model: Model
    const cache: CacheStore

    constructor (m: Model, c: CacheStore)
      ensures model == m && cache == c
    {
      model, cache := m, c;
    }

    /// `save()`: the plain save, then, once it delivered the model (nothing
    /// to save, or the row written), its `dataObject()` is merged into the
    /// hash under the model's id as it is after the save.
    method Save(db: SqlStore, custom: (string, Value) -> Option<Value>, validationHandler: Option<nat>, insertId: Value)
      returns (out: SaveOutcome)
      requires model.Valid()
      modifies model`slots, model`own, model`dirty, model`dirtyKeys, db`rows, db`queries, cache`hashes
      ensures model.Valid()
      ensures out == NothingToSave || out.Written? ==>
        CacheOf(cache) == SaveThroughOn(old(CacheOf(cache)), model.def.table, model.Read("id"), model.DataObject())
      ensures !(out == NothingToSave || out.Written?) ==> CacheOf(cache) == old(CacheOf(cache))
      ensures old(model.dirtyKeys) == [] ==> out == NothingToSave && db.queries == old(db.queries)
    {
      out := model.Save(db, custom, validationHandler, insertId);
      if out == NothingToSave || out.Written? {
        var data := model.DataObject();
        if data.Ok? {
          cache.HMSet(RecordKey(model.def.table, model.Read("id")), data.value);
        }
      }
    }

    /// `delete()`, corrected: once the row is gone the hash under the old id
    /// is deleted, so a later load of that id misses.
    method Delete(db: SqlStore) returns (r: Result<Value>)
      requires model.Valid()
      modifies model`slots, model`own, model`dirty, model`dirtyKeys, db`rows, db`queries
      modifies cache`hashes, cache`sets, cache`strings, cache`ttls
      ensures model.Valid()
      ensures db.queries == old(db.queries) + 1
      ensures r.Err? <==> db.failure.Some?
      ensures r.Err? ==> CacheOf(cache) == old(CacheOf(cache)) && db.rows == old(db.rows)
      ensures r.Err? ==>
        model.slots == old(model.slots) && model.own == old(model.own) &&
        model.dirty == old(model.dirty) && model.dirtyKeys == old(model.dirtyKeys)
      ensures r.Ok? ==>
        r.value == Null && db.rows == RowsWithoutId(old(db.rows), old(model.Read("id"))) &&
        CacheOf(cache) == DeleteThroughOn(old(CacheOf(cache)), model.def.table, old(model.Read("id")))
      ensures r.Ok? && "id" in model.def.fields && !model.def.fields["id"].customSet ==>
        model.Read("id") == Null && model.dirty == old(model.dirty)["id" := Null]
      ensures r.Ok? && "id" !in model.def.fields ==> model.Read("id") == Null && model.dirty == old(model.dirty)
    {
      var oldId := model.Read("id");
      r := model.Delete(db);
      if r.Ok? {
        cache.Del(RecordKey(model.def.table, oldId));
      }
    }
  }
}
