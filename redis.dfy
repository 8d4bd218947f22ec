/** The Redis server both the token store and the response cache live in: one keyspace of
    string entries (which may carry an expiry) and hash entries. The clock is whole seconds. */
module Redis {
  import opened Outcome

  datatype Entry =
    | Str(value: string, expiresAt: Option<int>)
    | Hash(fields: map<string, string>)

  type Data = map<string, Entry>

  /** A string past its expiry is gone for every command (Redis expires keys lazily; the
      model leaves the stale entry in the map, where no command can see it). */
  predicate Live(data: Data, key: string, now: int) {
    key in data &&
    match data[key]
    case Hash(_) => true
    case Str(_, at) => at.None? || now < at.value
  }

  /** GET */
  function GetOf(data: Data, key: string, now: int): Result<Option<string>> {
    if !Live(data, key, now) then Ok(None)
    else if data[key].Hash? then Err(WrongType)
    else Ok(Some(data[key].value))
  }

  /** TTL: -2 for a missing key, -1 for a key without expiry, else the seconds left. */
  function TtlOf(data: Data, key: string, now: int): int {
    if !Live(data, key, now) then -2
    else if data[key].Hash? || data[key].expiresAt.None? then -1
    else data[key].expiresAt.value - now
  }

  /** SETEX: overwrites whatever the key held. */
  function SetexOf(data: Data, key: string, ttl: int, value: string, now: int): Data {
    data[key := Str(value, Some(now + ttl))]
  }

  /** HMGET, as redis-rb's mapped_hmget returns it: the requested fields the hash has.
      A field missing from the result is the nil of the Ruby hash. */
  function HmgetOf(data: Data, key: string, fields: set<string>, now: int): Result<map<string, string>> {
    if !Live(data, key, now) then Ok(map[])
    else if data[key].Str? then Err(WrongType)
    else Ok(map f | f in fields && f in data[key].fields :: data[key].fields[f])
  }

  /** HMSET: sets the given fields of the hash and keeps the others. */
  function HmsetOf(data: Data, key: string, fields: map<string, string>, now: int): Result<Data> {
    if !Live(data, key, now) then Ok(data[key := Hash(fields)])
    else if data[key].Str? then Err(WrongType)
    else Ok(data[key := Hash(data[key].fields + fields)])
  }

  /** A value written with SETEX is read back unchanged until its TTL has run out. */
  lemma GetAfterSetex(data: Data, key: string, ttl: int, value: string, now: int, later: int)
    requires now <= later < now + ttl
    ensures GetOf(SetexOf(data, key, ttl, value, now), key, later) == Ok(Some(value))
    ensures TtlOf(SetexOf(data, key, ttl, value, now), key, later) == now + ttl - later > 0
  {
  }

  /** ... and is gone from then on. */
  lemma GoneAfterTtl(data: Data, key: string, ttl: int, value: string, now: int, later: int)
    requires now + ttl <= later
    ensures GetOf(SetexOf(data, key, ttl, value, now), key, later) == Ok(None)
    ensures TtlOf(SetexOf(data, key, ttl, value, now), key, later) == -2
  {
  }

  /** Fields written with HMSET are read back by HMGET of the same fields, at any later time. */
  lemma HmgetAfterHmset(data: Data, key: string, fields: map<string, string>, now: int, later: int)
    requires HmsetOf(data, key, fields, now).Ok?
    ensures HmgetOf(HmsetOf(data, key, fields, now).value, key, fields.Keys, later) == Ok(fields)
  {
    var d := HmsetOf(data, key, fields, now).value;
    assert Live(d, key, later) && d[key].Hash?;
    var stored := d[key].fields;
    assert forall f :: f in fields ==> f in stored && stored[f] == fields[f];
    var got := HmgetOf(d, key, fields.Keys, later).value;
    assert got.Keys == fields.Keys;
    assert forall f :: f in got ==> got[f] == fields[f];
    assert got == fields;
  }

  class Store {
    var data: Data

    constructor (initial: Data)
      ensures data == initial
    {
      data := initial;
    }

    method Get(key: string, now: int) returns (r: Result<Option<string>>)
      ensures r == GetOf(data, key, now)
    {
      if key !in data {
        return Ok(None);
      }
      match data[key]
      case Hash(_) =>
        r := Err(WrongType);
      case Str(value, at) =>
        r := if at.None? || now < at.value then Ok(Some(value)) else Ok(None);
    }

    method Ttl(key: string, now: int) returns (r: int)
      ensures r == TtlOf(data, key, now)
    {
      if key !in data {
        return -2;
      }
      match data[key]
      case Hash(_) =>
        r := -1;
      case Str(_, at) =>
        if at.None? {
          r := -1;
        } else if now < at.value {
          r := at.value - now;
        } else {
          r := -2;
        }
    }

    /** Redis refuses a SETEX whose TTL is not positive; the handlers pass 30 or 60. */
    method Setex(key: string, ttl: int, value: string, now: int)
      requires ttl > 0
      modifies this
      ensures data == SetexOf(old(data), key, ttl, value, now)
    {
      data := data[key := Str(value, Some(now + ttl))];
    }

    method MappedHmget(key: string, fields: set<string>, now: int) returns (r: Result<map<string, string>>)
      ensures r == HmgetOf(data, key, fields, now)
    {
      if !Live(data, key, now) {
        r := Ok(map[]);
      } else if data[key].Str? {
        r := Err(WrongType);
      } else {
        var stored := data[key].fields;
        r := Ok(map f | f in fields && f in stored :: stored[f]);
      }
    }

    method MappedHmset(key: string, fields: map<string, string>, now: int) returns (r: Result<()>)
      modifies this
      ensures HmsetOf(old(data), key, fields, now).Err? ==> r == Err(WrongType) && data == old(data)
      ensures HmsetOf(old(data), key, fields, now).Ok? ==> r == Ok(()) && data == HmsetOf(old(data), key, fields, now).value
    {
      if !Live(data, key, now) {
        data := data[key := Hash(fields)];
        r := Ok(());
      } else if data[key].Str? {
        r := Err(WrongType);
      } else {
        data := data[key := Hash(data[key].fields + fields)];
        r := Ok(());
      }
    }
  }
}
