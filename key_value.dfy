/**
 * The key-value store shared by every service (Redis behind a
 * StringRedisTemplate), reduced to what the cache and login code use:
 * string values with an optional TTL, set-if-absent, delete, and hashes.
 * TTLs are kept as absolute deadlines on a millisecond clock that callers
 * pass in; an entry whose deadline has passed reads as absent.
 */
module KeyValue {
  import opened Wrappers

  /** A TTL amount; the store rejects non-positive ones. */
  type Positive = n: int | n > 0 witness 1

  /** The `TimeUnit`s the callers use. */
  datatype TimeUnit = Seconds | Minutes

  /** `unit.toMillis(amount)`. */
  function Millis(amount: nat, unit: TimeUnit): (ms: nat)
    ensures amount > 0 ==> ms >= 1000
    ensures unit == Seconds ==> ms == 1000 * amount
  {
    match unit
    case Seconds => amount * 1000
    case Minutes => amount * 60_000
  }

  /**
   * What a key can hold. `Text` is a plain string ("" sentinel, the lock's
   * "1", a login code); `Json` the JSON text of an object; `Logical` the JSON
   * text of a RedisData envelope (payload, or null, and its logical expiry
   * time); `Fields` a hash.
   */
  datatype Value<T> =
    | Text(s: string)
    | Json(obj: T)
    | Logical(data: Option<T>, expireTime: int)
    | Fields(fields: map<string, string>)

  /** A stored value and the instant at which the store evicts it, if any. */
  datatype Entry<T> = Entry(value: Value<T>, deadline: Option<int>)

  type Store<T> = map<string, Entry<T>>

  /** Exceptions the modelled code can raise. */
  datatype Failure =
    | WrongType        // a string command on a key that holds a hash
    | Unparsable       // JSON text that does not decode to the requested shape
    | RetriesExhausted // the model's bound on the unbounded mutex retry
    | TooManyResults   // a single-row query that matched several rows

  predicate Live<T>(e: Entry<T>, now: int) {
    e.deadline.None? || now < e.deadline.value
  }

  /** The key exists and has not expired at `now`. */
  predicate Visible<T>(s: Store<T>, key: string, now: int) {
    key in s && Live(s[key], now)
  }

  /** The reply to GET: null, a string, or a WRONGTYPE error. */
  datatype Reply<T> = Nil | Bulk(v: Value<T>) | Mistyped

  /** GET key at time `now`. */
  function Read<T>(s: Store<T>, key: string, now: int): (r: Reply<T>)
    ensures r.Nil? <==> !Visible(s, key, now)
    ensures r.Bulk? ==> Visible(s, key, now) && r.v == s[key].value && !r.v.Fields?
    ensures r.Mistyped? ==> Visible(s, key, now) && s[key].value.Fields?
  {
    if !Visible(s, key, now) then Nil
    else if s[key].value.Fields? then Mistyped
    else Bulk(s[key].value)
  }

  /** Characters hutool's `StrUtil.isBlank` skips (Java whitespace and space characters, and a few invisible ones). */
  predicate BlankChar(c: char) {
    var n := c as int;
    n == 0 || 9 <= n <= 13 || 28 <= n <= 32 || n == 0xA0 || n == 0x1680 || n == 0x180E
    || 0x2000 <= n <= 0x200A || n == 0x2028 || n == 0x2029 || n == 0x202A || n == 0x202F
    || n == 0x205F || n == 0x2800 || n == 0x3000 || n == 0x3164 || n == 0xFEFF
  }

  predicate BlankText(s: string) {
    forall i | 0 <= i < |s| :: BlankChar(s[i])
  }

  /** `StrUtil.isBlank(json)` for a GET reply: null, or a string of blank characters. JSON text is never blank. */
  predicate IsBlank<T>(r: Reply<T>) {
    r.Nil? || (r.Bulk? && r.v.Text? && BlankText(r.v.s))
  }

  /** The reply is exactly the cached-null sentinel `""` (Java's `== ""`, read as value equality). */
  predicate IsSentinel<T>(r: Reply<T>) {
    r.Bulk? && r.v.Text? && r.v.s == ""
  }

  /** `JSONUtil.toBean(json, type)`: only the JSON of an object decodes to it. */
  function DecodeBean<T>(v: Value<T>): (r: Result<Option<T>, Failure>)
    ensures r.Ok? <==> v.Json?
    ensures v.Json? ==> r == Ok(Some(v.obj))
    ensures r.Err? ==> r.error == Unparsable
  {
    if v.Json? then Ok(Some(v.obj)) else Err(Unparsable)
  }

  /** `JSONUtil.toBean(json, RedisData.class)` then `getData()` and `getExpireTime()`; any other shape fails. */
  function DecodeEnvelope<T>(v: Value<T>): (r: Result<(Option<T>, int), Failure>)
    ensures r.Ok? <==> v.Logical?
    ensures v.Logical? ==> r == Ok((v.data, v.expireTime))
  {
    if v.Logical? then Ok((v.data, v.expireTime)) else Err(Unparsable)
  }

  /** `t` agrees with `s` on every key outside `keys`. */
  ghost predicate SameExcept<T>(s: Store<T>, t: Store<T>, keys: set<string>) {
    forall k :: k !in keys ==> (k in s <==> k in t) && (k in s ==> s[k] == t[k])
  }

  /** SET key value [PX ttl]: the key holds exactly this entry; nothing else changes. */
  function Put<T>(s: Store<T>, key: string, v: Value<T>, deadline: Option<int>): (t: Store<T>)
    ensures key in t && t[key] == Entry(v, deadline)
    ensures SameExcept(s, t, {key})
  {
    s[key := Entry(v, deadline)]
  }

  /**
   * `trylock`: SET key "1" NX EX 10. Succeeds exactly when the key is absent
   * (or expired) and then holds the lock value; otherwise nothing changes.
   */
  function TryLock<T>(s: Store<T>, key: string, now: int): (p: (bool, Store<T>))
    ensures p.0 <==> !Visible(s, key, now)
    ensures p.0 ==> key in p.1 && p.1[key] == Entry(Text("1"), Some(now + 10_000)) && SameExcept(s, p.1, {key})
    ensures p.0 ==> Visible(p.1, key, now) && Visible(p.1, key, now + 9_999) && !Visible(p.1, key, now + 10_000)
    ensures !p.0 ==> p.1 == s
  {
    if Visible(s, key, now) then (false, s) else (true, Put(s, key, Text("1"), Some(now + 10_000)))
  }

  /**
   * HSET key fields...: merges into the hash at the key, keeping its TTL;
   * an absent key becomes a new hash; a string value is a WRONGTYPE error.
   */
  function HashPut<T>(s: Store<T>, key: string, fields: map<string, string>, now: int): (r: Result<Store<T>, Failure>)
    ensures r.Err? <==> Visible(s, key, now) && !s[key].value.Fields?
    ensures r.Ok? ==>
      && key in r.value && r.value[key].value.Fields?
      && fields.Keys <= r.value[key].value.fields.Keys
      && (forall f :: f in fields ==> r.value[key].value.fields[f] == fields[f])
      && SameExcept(s, r.value, {key})
  {
    if !Visible(s, key, now) then Ok(Put(s, key, Fields(fields), None))
    else if s[key].value.Fields? then Ok(Put(s, key, Fields(s[key].value.fields + fields), s[key].deadline))
    else Err(WrongType)
  }

  /** EXPIRE key ttl: a present key gets the new deadline; an absent key stays absent. */
  function ExpireKey<T>(s: Store<T>, key: string, ms: nat, now: int): (t: Store<T>)
    ensures Visible(s, key, now) ==> key in t && t[key] == s[key].(deadline := Some(now + ms))
    ensures !Visible(s, key, now) ==> t == s
    ensures SameExcept(s, t, {key})
  {
    if Visible(s, key, now) then Put(s, key, s[key].value, Some(now + ms)) else s
  }

  /** The store as a shared mutable object. */
  class KeyValueStore<T> {
    var entries: Store<T>

    constructor ()
      ensures entries == map[]
    {
      entries := map[];
    }

    method Get(key: string, now: int) returns (r: Reply<T>)
      ensures r == Read(entries, key, now)
    {
      r := Read(entries, key, now);
    }

    method Set(key: string, v: Value<T>, deadline: Option<int>)
      modifies this
      ensures entries == Put(old(entries), key, v, deadline)
    {
      entries := Put(entries, key, v, deadline);
    }

    method SetIfAbsent(key: string, now: int) returns (ok: bool)
      modifies this
      ensures (ok, entries) == TryLock(old(entries), key, now)
    {
      var p := TryLock(entries, key, now);
      ok, entries := p.0, p.1;
    }

    method Delete(key: string)
      modifies this
      ensures entries == old(entries) - {key}
    {
      entries := entries - {key};
    }

    method PutAll(key: string, fields: map<string, string>, now: int) returns (r: Result<(), Failure>)
      modifies this
      ensures var p := HashPut(old(entries), key, fields, now);
        (p.Ok? ==> r == Ok(()) && entries == p.value) && (p.Err? ==> r == Err(p.error) && entries == old(entries))
    {
      var p := HashPut(entries, key, fields, now);
      if p.Ok? {
        entries := p.value;
        r := Ok(());
      } else {
        r := Err(p.error);
      }
    }

    method Expire(key: string, ms: nat, now: int)
      modifies this
      ensures entries == ExpireKey(old(entries), key, ms, now)
    {
      entries := ExpireKey(entries, key, ms, now);
    }
  }
}
