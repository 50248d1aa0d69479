/**
 * The part of Redis the session cache uses: one hash (field -> string) per
 * key, an optional expiry deadline per key, and the server clock in seconds.
 * A key whose deadline has passed is gone, as if deleted.
 */
module Redis {
  import opened Results

  /** A snapshot of the store. */
  datatype Store = Store(hashes: map<string, map<string, string>>, deadlines: map<string, int>, now: int) {

    /** Only existing keys carry deadlines, and no deadline has passed yet. */
    predicate Valid() {
      && deadlines.Keys <= hashes.Keys
      && forall k :: k in deadlines ==> now <= deadlines[k]
    }

    /** The fields of `key`; an absent key reads as an empty hash. */
    function Fields(key: string): map<string, string> {
      if key in hashes then hashes[key] else map[]
    }

    /** `HGET key field`: the field's value, or nil. */
    function HGet(key: string, field: string): (r: Option<string>)
      ensures r.Some? <==> field in Fields(key)
      ensures r.Some? ==> r.value == Fields(key)[field]
    {
      if key in hashes && field in hashes[key] then Some(hashes[key][field]) else None
    }

    /** `HSET key field value`: creates the key if absent and leaves its expiry as it was. */
    function HSet(key: string, field: string, value: string): (s: Store)
      requires Valid()
      ensures s.Valid()
      ensures s.HGet(key, field) == Some(value)
      ensures forall f :: f != field ==> s.HGet(key, f) == HGet(key, f)
      ensures forall k :: k != key ==> (k in s.hashes <==> k in hashes)
      ensures forall k :: k != key && k in hashes ==> s.hashes[k] == hashes[k]
      ensures key in s.hashes && s.deadlines == deadlines && s.now == now
    {
      Store(hashes[key := Fields(key)[field := value]], deadlines, now)
    }

    /** `HMSET key fields`: sets every given field, keeps the others and the expiry. */
    function HMSet(key: string, fields: map<string, string>): (s: Store)
      requires Valid()
      ensures s.Valid()
      ensures forall f :: f in fields ==> s.HGet(key, f) == Some(fields[f])
      ensures forall f :: f !in fields ==> s.HGet(key, f) == HGet(key, f)
      ensures forall k :: k != key ==> (k in s.hashes <==> k in hashes)
      ensures forall k :: k != key && k in hashes ==> s.hashes[k] == hashes[k]
      ensures key in s.hashes && s.deadlines == deadlines && s.now == now
    {
      Store(hashes[key := Fields(key) + fields], deadlines, now)
    }

    /**
     * `EXPIRE key seconds`: on a missing key nothing happens; a positive
     * timeout sets the deadline `seconds` from now; any other deletes the key.
     */
    function Expire(key: string, seconds: int): (s: Store)
      requires Valid()
      ensures s.Valid() && s.now == now
      ensures key !in hashes ==> s == this
      ensures key in hashes && seconds > 0 ==>
        s.hashes == hashes && s.deadlines == deadlines[key := now + seconds]
      ensures key in hashes && seconds <= 0 ==>
        key !in s.hashes && s.hashes == hashes - {key} && s.deadlines == deadlines - {key}
    {
      if key !in hashes then this
      else if seconds <= 0 then Store(hashes - {key}, deadlines - {key}, now)
      else Store(hashes, deadlines[key := now + seconds], now)
    }

    /** Let `dt` seconds pass: every key whose deadline is now behind the clock disappears. */
    function Tick(dt: nat): (s: Store)
      requires Valid()
      ensures s.Valid() && s.now == now + dt
      ensures forall k :: k in deadlines && deadlines[k] < now + dt ==> k !in s.hashes
      ensures forall k :: k in hashes && (k !in deadlines || now + dt <= deadlines[k]) ==>
        k in s.hashes && s.hashes[k] == hashes[k] && s.Fields(k) == Fields(k)
      ensures s.hashes.Keys <= hashes.Keys
      ensures forall k :: k in s.deadlines ==> k in deadlines && s.deadlines[k] == deadlines[k]
      ensures forall k :: k in s.hashes && k in deadlines ==> k in s.deadlines
    {
      var t := now + dt;
      Store(
        map k | k in hashes && (k !in deadlines || t <= deadlines[k]) :: hashes[k],
        map k | k in deadlines && t <= deadlines[k] :: deadlines[k],
        t)
    }
  }

  /**
   * `HMSET` then `EXPIRE` on the same key: with a positive timeout the key
   * holds the given fields and expires `ttl` seconds from now; otherwise it is gone.
   */
  lemma HMSetThenExpire(s: Store, key: string, fields: map<string, string>, ttl: int)
    requires s.Valid()
    ensures var s' := s.HMSet(key, fields).Expire(key, ttl);
      && (ttl > 0 ==>
        && key in s'.hashes && key in s'.deadlines && s'.deadlines[key] == s.now + ttl
        && forall f :: f in fields ==> s'.HGet(key, f) == Some(fields[f]))
      && (ttl <= 0 ==> key !in s'.hashes)
  {
    var s1 := s.HMSet(key, fields);
    assert key in s1.hashes;
  }

  /** A key given a timeout of `ttl` seconds reads as absent once more than `ttl` seconds have passed. */
  lemma ExpiredKeyReadsAbsent(s: Store, key: string, ttl: int, dt: nat, field: string)
    requires s.Valid() && key in s.hashes && ttl > 0 && dt > ttl
    ensures s.Expire(key, ttl).Tick(dt).HGet(key, field).None?
  {
  }

  /** A key given a timeout of `ttl` seconds is still there, unchanged, while no more than `ttl` seconds have passed. */
  lemma LiveKeyKeepsFields(s: Store, key: string, ttl: int, dt: nat)
    requires s.Valid() && key in s.hashes && ttl > 0 && dt <= ttl
    ensures s.Expire(key, ttl).Tick(dt).Fields(key) == s.Fields(key)
  {
  }

  /** The Redis client object: a store updated in place, one command at a time. */
  class TtlStore {
    var hashes: map<string, map<string, string>>
    var deadlines: map<string, int>
    var now: int

    function State(): Store
      reads this
    {
      Store(hashes, deadlines, now)
    }

    ghost predicate Valid()
      reads this
    {
      State().Valid()
    }

    constructor (start: int)
      ensures Valid() && State() == Store(map[], map[], start)
    {
      hashes, deadlines, now := map[], map[], start;
    }

    /** `HGET key field` */
    function HGet(key: string, field: string): (r: Option<string>)
      reads this
      ensures r == State().HGet(key, field)
    {
      if key in hashes && field in hashes[key] then Some(hashes[key][field]) else None
    }

    /** `HSET key field value` */
    method HSet(key: string, field: string, value: string)
      requires Valid()
      modifies this
      ensures Valid()
      ensures State() == old(State()).HSet(key, field, value)
    {
      var fields := if key in hashes then hashes[key] else map[];
      hashes := hashes[key := fields[field := value]];
    }

    /** `HMSET key fields` */
    method HMSet(key: string, fields: map<string, string>)
      requires Valid()
      modifies this
      ensures Valid()
      ensures State() == old(State()).HMSet(key, fields)
    {
      var current := if key in hashes then hashes[key] else map[];
      hashes := hashes[key := current + fields];
    }

    /** `EXPIRE key seconds`; reports whether the key existed. */
    method Expire(key: string, seconds: int) returns (applied: bool)
      requires Valid()
      modifies this
      ensures Valid()
      ensures applied == (key in old(hashes))
      ensures State() == old(State()).Expire(key, seconds)
    {
      applied := key in hashes;
      if !applied {
        return;
      }
      if seconds <= 0 {
        hashes := hashes - {key};
        deadlines := deadlines - {key};
      } else {
        deadlines := deadlines[key := now + seconds];
      }
    }

    /** The clock moves `dt` seconds forward and expired keys disappear. */
    method Tick(dt: nat)
      requires Valid()
      modifies this
      ensures Valid()
      ensures State() == old(State()).Tick(dt)
    {
      var next := State().Tick(dt);
      hashes, deadlines, now := next.hashes, next.deadlines, next.now;
    }
  }
}
