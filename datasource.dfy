/** The reference counter store of actix-limitation/src/lib.rs
    (`RedisDatasource::track`), with Redis replaced by an in-memory map from
    key to counter and expiry, and each `track` call one indivisible step.

    The batch it sends is `SET key 0 EX expires NX`, `INCR key`, `TTL key`;
    the pure functions below give each command's effect, `TrackStep` the
    whole call, and the class `RedisDatasource` runs the same commands in
    place on its map. */
module DataSource {
  import opened Wrappers
  import opened Errors

  /** Redis keeps counters as signed 64-bit integers; INCR refuses to pass this. */
  const I64_MAX: nat := 0x7FFF_FFFF_FFFF_FFFF

  /** Redis's reply when INCR would pass I64_MAX. */
  const INCR_OVERFLOW: string := "ERR increment or decrement would overflow"
  /** Redis's reply to `SET ... EX 0`. */
  const INVALID_EXPIRE: string := "ERR invalid expire time in 'set' command"
  /** The range error's text when the reset epoch cannot be represented. */
  const EPOCH_OUT_OF_RANGE: string := "reset epoch out of range"

  /** One Redis key: its counter and the epoch second at which it expires. */
  datatype Entry = Entry(count: nat, expiresAt: int)

  type Entries = map<string, Entry>

  /** A key exists for Redis only until its expiry second is reached. */
  predicate Live(m: Entries, key: string, now: int)
  {
    key in m && now < m[key].expiresAt
  }

  /** Every counter fits a Redis integer. */
  ghost predicate Bounded(m: Entries)
  {
    forall k :: k in m ==> m[k].count <= I64_MAX
  }

  /** `SET key 0 EX expires NX`: create the key at 0, expiring `expires`
      seconds from now, unless it is live. */
  function SetIfAbsent(m: Entries, key: string, expires: nat, now: int): (m': Entries)
    ensures m'.Keys == m.Keys + {key}
    ensures Live(m, key, now) ==> m' == m
    ensures !Live(m, key, now) ==> m'[key] == Entry(0, now + expires)
    ensures forall k :: k in m && k != key ==> m'[k] == m[k]
  {
    if Live(m, key, now) then m else m[key := Entry(0, now + expires)]
  }

  /** `INCR key`: add one to the counter, or fail when it would overflow. */
  function Increment(m: Entries, key: string): (r: Result<Entries, string>)
    requires key in m
    ensures r.Ok? <==> m[key].count < I64_MAX
    ensures r.Ok? ==> r.value.Keys == m.Keys && r.value[key] == Entry(m[key].count + 1, m[key].expiresAt)
    ensures r.Ok? ==> forall k :: k in m && k != key ==> r.value[k] == m[k]
  {
    if m[key].count >= I64_MAX then Err(INCR_OVERFLOW)
    else Ok(m[key := m[key].(count := m[key].count + 1)])
  }

  /** `TTL key`: the seconds left before the key expires. */
  function TimeToLive(m: Entries, key: string, now: int): (ttl: int)
    requires key in m
    ensures ttl > 0 <==> Live(m, key, now)
    ensures now + ttl == m[key].expiresAt
  {
    m[key].expiresAt - now
  }

  /** `Status::epoch_utc_plus`: the epoch `secs` seconds after `now`, failing
      with a range error past `maxEpoch`, the last second the time library
      can represent. */
  function EpochUtcPlus(now: int, secs: int, maxEpoch: int): (r: Result<int, ComponentRange>)
    ensures r.Ok? <==> now + secs <= maxEpoch
    ensures r.Ok? ==> r.value - secs == now
  {
    if now + secs <= maxEpoch then Ok(now + secs) else Err(ComponentRange(EPOCH_OUT_OF_RANGE))
  }

  /** The store after a `track` call and what the call returned. */
  datatype Transition = Transition(entries: Entries, result: Result<(nat, int), Error>)

  /** One `track(key, expires)` call at wall-clock second `now`. `link` is the
      connection attempt: `Some(reason)` when it failed. Every failure, the
      time conversion's included, comes back as a Track error; on success the
      call returns the new count and the absolute reset epoch, which is the
      key's own expiry, so every caller in the window sees the same one. */
  function TrackStep(m: Entries, key: string, expires: nat, now: int, link: Option<string>, maxEpoch: int): (t: Transition)
    ensures t.result.Err? ==> t.result.error.Track?
    ensures t.result.Ok? ==>
      && key in t.entries && now < t.entries[key].expiresAt
      && t.result.value == (t.entries[key].count, t.entries[key].expiresAt)
    ensures t.result.Ok? ==> t.result.value.0 >= 1
    ensures link.Some? || expires == 0 ==> t.entries == m
    ensures link.Some? ==> t.result == Err(Track(link.value))
    ensures link.None? && expires == 0 ==> t.result == Err(Track(INVALID_EXPIRE))
  {
    if link.Some? then Transition(m, Err(Track(link.value)))
    else if expires == 0 then Transition(m, Err(Track(INVALID_EXPIRE)))
    else
      var created := SetIfAbsent(m, key, expires, now);
      match Increment(created, key)
      case Err(reason) => Transition(created, Err(Track(reason)))
      case Ok(incremented) =>
        match EpochUtcPlus(now, TimeToLive(incremented, key, now), maxEpoch)
        case Err(range) => Transition(incremented, Err(Track(range.text)))
        case Ok(reset) => Transition(incremented, Ok((incremented[key].count, reset)))
  }

  /** The first call on an absent or expired key opens a window: the key is
      created at 0 expiring `expires` seconds from now and incremented to 1.
      The call returns count 1 and that expiry when the expiry can be
      represented, and a Track error otherwise; the new key stands either way. */
  lemma TrackOpensWindow(m: Entries, key: string, expires: nat, now: int, maxEpoch: int)
    requires !Live(m, key, now) && expires > 0
    ensures var t := TrackStep(m, key, expires, now, None, maxEpoch);
      && t.entries == m[key := Entry(1, now + expires)]
      && (t.result.Ok? <==> now + expires <= maxEpoch)
      && (t.result.Ok? ==> t.result.value == (1, now + expires))
      && (t.result.Err? ==> t.result.error == Track(EPOCH_OUT_OF_RANGE))
  {
  }

  /** A call on a live key leaves its expiry alone (NX) and raises its count
      by exactly one. The increment stands even when the reset epoch then
      cannot be represented and the call fails. */
  lemma TrackCountsInWindow(m: Entries, key: string, expires: nat, now: int, maxEpoch: int)
    requires Live(m, key, now) && m[key].count < I64_MAX && expires > 0
    ensures var t := TrackStep(m, key, expires, now, None, maxEpoch);
      && t.entries == m[key := Entry(m[key].count + 1, m[key].expiresAt)]
      && (t.result.Ok? <==> m[key].expiresAt <= maxEpoch)
      && (t.result.Ok? ==> t.result.value == (m[key].count + 1, m[key].expiresAt))
  {
  }

  /** Once the window has run out, the next call starts a new one at count 1. */
  lemma TrackAfterExpiry(m: Entries, key: string, expires: nat, now: int, maxEpoch: int)
    requires key in m && m[key].expiresAt <= now && expires > 0 && now + expires <= maxEpoch
    ensures TrackStep(m, key, expires, now, None, maxEpoch).result == Ok((1, now + expires))
  {
    TrackOpensWindow(m, key, expires, now, maxEpoch);
  }

  /** A counter at I64_MAX makes INCR fail: the call reports a Track error
      and the store is left as it was. */
  lemma TrackOverflow(m: Entries, key: string, expires: nat, now: int, maxEpoch: int)
    requires Live(m, key, now) && m[key].count == I64_MAX && expires > 0
    ensures TrackStep(m, key, expires, now, None, maxEpoch)
      == Transition(m, Err(Track(INCR_OVERFLOW)))
  {
  }

  /** A call touches only its own key. */
  lemma TrackIsolatesKeys(m: Entries, key: string, expires: nat, now: int, link: Option<string>, maxEpoch: int, other: string)
    requires other != key
    ensures var t := TrackStep(m, key, expires, now, link, maxEpoch);
      (other in t.entries <==> other in m) && (other in m ==> t.entries[other] == m[other])
  {
  }

  /** No call lets a counter grow past what Redis can hold. */
  lemma TrackKeepsBounded(m: Entries, key: string, expires: nat, now: int, link: Option<string>, maxEpoch: int)
    requires Bounded(m)
    ensures Bounded(TrackStep(m, key, expires, now, link, maxEpoch).entries)
  {
  }

  /** The Redis-backed data source, its server state held in `entries`. */
  class RedisDatasource {
    var entries: Entries

    ghost predicate Valid()
      reads this
    {
      Bounded(entries)
    }

    /** An empty Redis database. */
    constructor ()
      ensures Valid() && entries == map[]
    {
      entries := map[];
    }

    /** `SET key 0 EX expires NX`. */
    method Set(key: string, expires: nat, now: int)
      requires Valid()
      modifies this
      ensures Valid()
      ensures entries == SetIfAbsent(old(entries), key, expires, now)
    {
      if !Live(entries, key, now) {
        entries := entries[key := Entry(0, now + expires)];
      }
    }

    /** `INCR key`: the new count, or Redis's error with nothing changed. */
    method Incr(key: string) returns (r: Result<nat, string>)
      requires Valid() && key in entries
      modifies this
      ensures Valid()
      ensures var expected := Increment(old(entries), key);
        if expected.Ok?
        then entries == expected.value && r == Ok(entries[key].count)
        else entries == old(entries) && r == Err(expected.error)
    {
      var count := entries[key].count;
      if count >= I64_MAX {
        r := Err(INCR_OVERFLOW);
      } else {
        entries := entries[key := entries[key].(count := count + 1)];
        r := Ok(count + 1);
      }
    }

    /** `TTL key`. */
    method Ttl(key: string, now: int) returns (ttl: int)
      requires key in entries
      ensures ttl == TimeToLive(entries, key, now)
    {
      ttl := entries[key].expiresAt - now;
    }

    /** `track`: connect, run the SET NX / INCR / TTL batch as one step,
        convert the TTL into a reset epoch, and map every failure to Track. */
    method Track(key: string, expires: nat, now: int, link: Option<string>, maxEpoch: int)
      returns (r: Result<(nat, int), Error>)
      requires Valid()
      modifies this
      ensures Valid()
      ensures entries == TrackStep(old(entries), key, expires, now, link, maxEpoch).entries
      ensures r == TrackStep(old(entries), key, expires, now, link, maxEpoch).result
    {
      TrackKeepsBounded(entries, key, expires, now, link, maxEpoch);
      if link.Some? {
        return Err(Error.Track(link.value));
      }
      if expires == 0 {
        return Err(Error.Track(INVALID_EXPIRE));
      }
      Set(key, expires, now);
      var count := Incr(key);
      if count.Err? {
        return Err(Error.Track(count.error));
      }
      var ttl := Ttl(key, now);
      var reset := EpochUtcPlus(now, ttl, maxEpoch);
      if reset.Err? {
        return Err(Error.Track(reset.error.text));
      }
      r := Ok((count.value, reset.value));
    }
  }
}
