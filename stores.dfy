/// The two stores the cached model layer talks to, reduced to the commands it
/// issues. The cache (Redis) is three keyspaces of maps; the database (MySQL)
/// is the model's table as a list of rows. When a store is failing, every
/// command reports the error and changes nothing; a write nobody waits for
/// ("fire and forget") is then simply lost.
module Stores {
  import opened Js

  /// SADD: append the members not yet present, in order.
  function AddMembers(existing: seq<string>, members: seq<string>): (r: seq<string>)
    ensures forall m :: m in r <==> m in existing || m in members
    ensures |r| >= |existing| && r[..|existing|] == existing
    decreases |members|
  {
    if members == [] then existing
    else if members[0] in existing then AddMembers(existing, members[1..])
    else AddMembers(existing + [members[0]], members[1..])
  }

  /// SREM of one member.
  function RemoveMember(existing: seq<string>, member: string): (r: seq<string>)
    ensures forall m :: m in r <==> m in existing && m != member
  {
    if existing == [] then []
    else if existing[0] == member then RemoveMember(existing[1..], member)
    else [existing[0]] + RemoveMember(existing[1..], member)
  }

  /// HMSET merges the given fields into the hash at that key.
  function Merged(hashes: map<string, Record>, key: string, fields: Record): Record {
    (if key in hashes then hashes[key] else map[]) + fields
  }

  class CacheStore {
    var hashes: map<string, Record>
    var sets: map<string, seq<string>>   // a set, kept in the order its members arrived
    var strings: map<string, string>
    var ttls: map<string, Value>
    var failure: Option<string>

    constructor ()
      ensures hashes == map[] && sets == map[] && strings == map[] && ttls == map[] && failure == None
    {
      hashes, sets, strings, ttls, failure := map[], map[], map[], map[], None;
    }

    /// HGETALL: the hash at `key`, or None when there is none.
    function HGetAll(key: string): (r: Result<Option<Record>>)
      reads this
      ensures r.Err? <==> failure.Some?
      ensures r.Ok? ==> (r.value.Some? <==> key in hashes)
    {
      if failure.Some? then Err(StoreError(failure.value))
      else if key in hashes then Ok(Some(hashes[key])) else Ok(None)
    }

    /// SMEMBERS: the members of the set at `key`, none when there is no set.
    function SMembers(key: string): (r: Result<seq<string>>)
      reads this
      ensures r.Err? <==> failure.Some?
      ensures r.Ok? ==> (r.value == [] <==> key !in sets || sets[key] == [])
    {
      if failure.Some? then Err(StoreError(failure.value))
      else if key in sets then Ok(sets[key]) else Ok([])
    }

    /// GET: the string at `key`, or None.
    function GetString(key: string): (r: Result<Option<string>>)
      reads this
      ensures r.Err? <==> failure.Some?
      ensures r.Ok? ==> (r.value.Some? <==> key in strings)
    {
      if failure.Some? then Err(StoreError(failure.value))
      else if key in strings then Ok(Some(strings[key])) else Ok(None)
    }

    /// HMSET; with no fields the command is refused and nothing changes.
    method HMSet(key: string, fields: Record)
      modifies this`hashes
      ensures hashes == if failure.None? && fields != map[] then old(hashes)[key := Merged(old(hashes), key, fields)] else old(hashes)
    {
      if failure.None? && fields != map[] {
        hashes := hashes[key := Merged(hashes, key, fields)];
      }
    }

    /// HDEL of some fields of a hash; with no field named the command is
    /// refused and nothing changes.
    method HDel(key: string, fields: seq<string>)
      modifies this`hashes
      ensures failure.Some? || fields == [] || key !in old(hashes) ==> hashes == old(hashes)
      ensures failure.None? && fields != [] && key in old(hashes) ==>
        var rest := old(hashes)[key] - (set f | f in fields);
        hashes == if rest == map[] then old(hashes) - {key} else old(hashes)[key := rest]
    {
      if failure.None? && fields != [] && key in hashes {
        var rest := hashes[key] - (set f | f in fields);
        hashes := if rest == map[] then hashes - {key} else hashes[key := rest];
      }
    }

    /// DEL: the key goes, whatever its type.
    method Del(key: string)
      modifies this`hashes, this`sets, this`strings, this`ttls
      ensures failure.Some? ==> hashes == old(hashes) && sets == old(sets) && strings == old(strings) && ttls == old(ttls)
      ensures failure.None? ==>
        hashes == old(hashes) - {key} && sets == old(sets) - {key} &&
        strings == old(strings) - {key} && ttls == old(ttls) - {key}
    {
      if failure.None? {
        hashes, sets, strings, ttls := hashes - {key}, sets - {key}, strings - {key}, ttls - {key};
      }
    }

    /// SET, with the reply a caller may wait for.
    method SetString(key: string, value: string) returns (r: Result<Unit>)
      modifies this`strings
      ensures r.Err? <==> failure.Some?
      ensures strings == if failure.None? then old(strings)[key := value] else old(strings)
    {
      if failure.Some? {
        r := Err(StoreError(failure.value));
      } else {
        strings := strings[key := value];
        r := Ok(Unit);
      }
    }

    /// SADD of several members.
    method SAdd(key: string, members: seq<string>)
      modifies this`sets
      ensures sets == if failure.None? then old(sets)[key := AddMembers(if key in old(sets) then old(sets)[key] else [], members)] else old(sets)
    {
      if failure.None? {
        sets := sets[key := AddMembers(if key in sets then sets[key] else [], members)];
      }
    }

    /// SREM of one member.
    method SRem(key: string, member: string)
      modifies this`sets
      ensures failure.None? && key in old(sets) ==> sets == old(sets)[key := RemoveMember(old(sets)[key], member)]
      ensures failure.Some? || key !in old(sets) ==> sets == old(sets)
    {
      if failure.None? && key in sets {
        sets := sets[key := RemoveMember(sets[key], member)];
      }
    }

    /// EXPIRE: records a time to live for an existing key.
    method Expire(key: string, ttl: Value)
      modifies this`ttls
      ensures ttls == if failure.None? && (key in hashes || key in sets || key in strings) then old(ttls)[key := ttl] else old(ttls)
    {
      if failure.None? && (key in hashes || key in sets || key in strings) {
        ttls := ttls[key := ttl];
      }
    }
  }

  /// `where field = value`: SQL equality never holds for NULL; values are
  /// compared by their text.
  predicate Matches(row: Record, field: string, value: Value) {
    field in row && !IsNullish(row[field]) && !IsNullish(value) && ToStr(row[field]) == ToStr(value)
  }

  /// The first row, in table order, with `field = value`.
  function FirstMatch(rows: seq<Record>, field: string, value: Value): (r: Option<Record>)
    ensures r.None? <==> forall i :: 0 <= i < |rows| ==> !Matches(rows[i], field, value)
    ensures r.Some? ==> exists i :: 0 <= i < |rows| && rows[i] == r.value && Matches(rows[i], field, value) &&
                                   (forall j :: 0 <= j < i ==> !Matches(rows[j], field, value))
  {
    if rows == [] then None
    else if Matches(rows[0], field, value) then Some(rows[0])
    else
      var r := FirstMatch(rows[1..], field, value);
      if r.Some? then
        assert forall i :: 1 <= i < |rows| ==> rows[i] == rows[1..][i - 1];
        r
      else r
  }

  /// `id in (ids...)`: the rows whose id is one of the listed ids.
  predicate IdListed(row: Record, ids: seq<Value>) {
    "id" in row && !IsNullish(row["id"]) && exists j :: 0 <= j < |ids| && Matches(row, "id", ids[j])
  }

  function RowsWithIds(rows: seq<Record>, ids: seq<Value>): (r: seq<Record>)
    ensures forall row :: row in r <==> row in rows && IdListed(row, ids)
  {
    if rows == [] then []
    else (if IdListed(rows[0], ids) then [rows[0]] else []) + RowsWithIds(rows[1..], ids)
  }

  /// `update ... where id = ?`: every row with that id takes the new column values.
  function UpdatedRows(rows: seq<Record>, changes: Record, id: Value): seq<Record> {
    seq(|rows|, i requires 0 <= i < |rows| => if Matches(rows[i], "id", id) then rows[i] + changes else rows[i])
  }

  /// `delete ... where id = ?`.
  function RowsWithoutId(rows: seq<Record>, id: Value): (r: seq<Record>)
    ensures forall row :: row in r <==> row in rows && !Matches(row, "id", id)
    ensures |r| <= |rows|
  {
    if rows == [] then []
    else (if Matches(rows[0], "id", id) then [] else [rows[0]]) + RowsWithoutId(rows[1..], id)
  }

  class SqlStore {
    var rows: seq<Record>       // the model's table, in storage order
    var failure: Option<string>
    var queries: nat            // statements sent so far

    constructor (table: seq<Record>)
      ensures rows == table && failure == None && queries == 0
    {
      rows, failure, queries := table, None, 0;
    }

    /// `select * from table where field = ? limit 1`.
    method SelectWhere(field: string, value: Value) returns (r: Result<Option<Record>>)
      modifies this`queries
      ensures queries == old(queries) + 1
      ensures r == if failure.Some? then Err(StoreError(failure.value)) else Ok(FirstMatch(rows, field, value))
    {
      queries := queries + 1;
      r := if failure.Some? then Err(StoreError(failure.value)) else Ok(FirstMatch(rows, field, value));
    }

    /// `select * from table where id in (...)`. The rows come in table order;
    /// callers only index them by id.
    method SelectIds(ids: seq<Value>) returns (r: Result<seq<Record>>)
      modifies this`queries
      ensures queries == old(queries) + 1
      ensures r == if failure.Some? then Err(StoreError(failure.value)) else Ok(RowsWithIds(rows, ids))
    {
      queries := queries + 1;
      r := if failure.Some? then Err(StoreError(failure.value)) else Ok(RowsWithIds(rows, ids));
    }

    /// `insert into table (...) values (...)`.
    method Insert(row: Record) returns (r: Result<Unit>)
      modifies this`rows, this`queries
      ensures queries == old(queries) + 1
      ensures r == if failure.Some? then Err(StoreError(failure.value)) else Ok(Unit)
      ensures rows == if failure.None? then old(rows) + [row] else old(rows)
    {
      queries := queries + 1;
      if failure.Some? {
        return Err(StoreError(failure.value));
      }
      rows := rows + [row];
      r := Ok(Unit);
    }

    /// `update table set ... where id = ?`.
    method UpdateWhereId(changes: Record, id: Value) returns (r: Result<Unit>)
      modifies this`rows, this`queries
      ensures queries == old(queries) + 1
      ensures r == if failure.Some? then Err(StoreError(failure.value)) else Ok(Unit)
      ensures rows == if failure.None? then UpdatedRows(old(rows), changes, id) else old(rows)
    {
      queries := queries + 1;
      if failure.Some? {
        return Err(StoreError(failure.value));
      }
      rows := UpdatedRows(rows, changes, id);
      r := Ok(Unit);
    }

    /// `delete from table where id = ?`.
    method DeleteWhereId(id: Value) returns (r: Result<Unit>)
      modifies this`rows, this`queries
      ensures queries == old(queries) + 1
      ensures r == if failure.Some? then Err(StoreError(failure.value)) else Ok(Unit)
      ensures rows == if failure.None? then RowsWithoutId(old(rows), id) else old(rows)
    {
      queries := queries + 1;
      if failure.Some? {
        return Err(StoreError(failure.value));
      }
      rows := RowsWithoutId(rows, id);
      r := Ok(Unit);
    }

    /// Any other statement. Its SQL is not interpreted: `answer` is what the
    /// server replies when it is up.
    method Query<T>(answer: Result<T>) returns (r: Result<T>)
      modifies this`queries
      ensures queries == old(queries) + 1
      ensures r == if failure.Some? then Err(StoreError(failure.value)) else answer
    {
      queries := queries + 1;
      r := if failure.Some? then Err(StoreError(failure.value)) else answer;
    }
  }
}
