/** The limiter of actix-limitation/src/lib.rs: its defaults, its builder,
    and `Limiter::count`, which consumes one unit of a key's window and
    compares the count with the limit only after the increment. */
module Limitation {
  import opened Wrappers
  import opened Errors
  import opened DataSource

  const DEFAULT_REQUEST_LIMIT: nat := 5000
  const DEFAULT_PERIOD_SECS: nat := 3600
  const DEFAULT_COOKIE_NAME: string := "sid"
  /** Only present when the crate's session feature is on. */
  const DEFAULT_SESSION_KEY: string := "rate-api-id"

  /** `std::time::Duration`: whole seconds and a sub-second part in nanoseconds. */
  datatype Duration = Duration(secs: nat, nanos: nat)

  function FromSecs(secs: nat): (d: Duration)
    ensures AsSecs(d) == secs && d.nanos == 0
  {
    Duration(secs, 0)
  }

  /** `Duration::as_secs`: the whole seconds, the sub-second part dropped. */
  function AsSecs(d: Duration): nat
  {
    d.secs
  }

  /** A request's key, when it has one; `None` means "do not limit". */
  type KeyFn<!R> = R -> Option<string>

  /** The builder's fields; `getKeyFn` stays unset until the caller gives one. */
  datatype Builder<T, !R> = Builder(
    client: T,
    limit: nat,
    period: Duration,
    getKeyFn: Option<KeyFn<R>>,
    cookieName: string,
    sessionKey: Option<string>)

  /** The limiter: a data source, the limit per window and the window length. */
  datatype Limiter<T, !R> = Limiter(client: T, limit: nat, period: Duration, getKeyFn: KeyFn<R>)

  /** `Limiter::builder`: a builder holding the client and every default.
      `session` says whether the session feature, and with it the session
      key, is compiled in. */
  function NewBuilder<T(==), R>(client: T, session: bool): (b: Builder<T, R>)
    ensures b.client == client
    ensures b.limit == 5000 && AsSecs(b.period) == 3600 && b.period.nanos == 0
    ensures b.getKeyFn.None? && b.cookieName == "sid"
    ensures session <==> b.sessionKey.Some?
    ensures session ==> b.sessionKey == Some("rate-api-id")
  {
    Builder(client, DEFAULT_REQUEST_LIMIT, FromSecs(DEFAULT_PERIOD_SECS), None,
      DEFAULT_COOKIE_NAME, if session then Some(DEFAULT_SESSION_KEY) else None)
  }

  /** `Builder::build`, reduced to what the limiter keeps: the limit, the
      period and a key function, the fallback standing for the cookie or
      session lookup used when none was given. */
  function Build<T, R>(b: Builder<T, R>, fallback: KeyFn<R>): (l: Limiter<T, R>)
    ensures l.limit == b.limit && l.period == b.period
  {
    Limiter(b.client, b.limit, b.period, if b.getKeyFn.Some? then b.getKeyFn.value else fallback)
  }

  /** A limiter built from the defaults allows 5000 requests per hour. */
  lemma DefaultLimiter<T, R>(client: T, session: bool, fallback: KeyFn<R>)
    ensures var l := Build(NewBuilder<T, R>(client, session), fallback);
      l.limit == 5000 && l.period == FromSecs(3600)
  {
  }

  /** The status a count outcome carries: Ok's own, or the one inside LimitExceeded. */
  function Reported(r: Result<Status, Error>): Option<Status>
  {
    match r
    case Ok(status) => Some(status)
    case Err(LimitExceeded(status)) => Some(status)
    case Err(_) => None
  }

  /** What `count` makes of the data source's answer: a failure passes
      through unchanged; otherwise the status holds the tracked count, the
      limit and the reset epoch, and the call fails with LimitExceeded
      exactly when the count is strictly above the limit. */
  function Decide(limit: nat, tracked: Result<(nat, int), Error>): (r: Result<Status, Error>)
    ensures tracked.Err? ==> r == Err(tracked.error)
    ensures tracked.Ok? ==> (r.Err? <==> tracked.value.0 > limit)
    ensures tracked.Ok? ==> r.Err? ==> r.error.LimitExceeded?
    ensures tracked.Ok? ==> Reported(r) == Some(Status(tracked.value.0, limit, tracked.value.1))
  {
    match tracked
    case Err(e) => Err(e)
    case Ok((count, reset)) =>
      var status := Status(count, limit, reset);
      if count > limit then Err(LimitExceeded(status)) else Ok(status)
  }

  /** `Limiter::count` over the Redis data source: track the key with the
      period in whole seconds, then decide. Since the store keeps every
      counter within a Redis integer, so is any count it reports. */
  method Count<R>(lim: Limiter<RedisDatasource, R>, key: string, now: int, link: Option<string>, maxEpoch: int)
    returns (r: Result<Status, Error>)
    requires lim.client.Valid()
    modifies lim.client
    ensures lim.client.Valid()
    ensures var t := TrackStep(old(lim.client.entries), key, AsSecs(lim.period), now, link, maxEpoch);
      lim.client.entries == t.entries && r == Decide(lim.limit, t.result)
    ensures Reported(r).Some? ==> Reported(r).value.count <= I64_MAX
  {
    var tracked := lim.client.Track(key, AsSecs(lim.period), now, link, maxEpoch);
    r := Decide(lim.limit, tracked);
  }

  /** The outcomes of successive `count(key)` calls, made at the wall-clock
      seconds in `times` against the store `m`, with the connection up. */
  function Run(m: Entries, limit: nat, key: string, expires: nat, times: seq<int>, maxEpoch: int)
    : (rs: seq<Result<Status, Error>>)
    ensures |rs| == |times|
    decreases |times|
  {
    if times == [] then []
    else
      var t := TrackStep(m, key, expires, times[0], None, maxEpoch);
      [Decide(limit, t.result)] + Run(t.entries, limit, key, expires, times[1..], maxEpoch)
  }

  /** Inside an open window whose counter stands at `c`, the j-th further
      call sees count c + j + 1 and the window's own reset epoch. */
  lemma {:induction false} RunInsideWindow(m: Entries, limit: nat, key: string, expires: nat,
                                           times: seq<int>, maxEpoch: int, c: nat, e: int, j: nat)
    requires expires > 0 && key in m && m[key] == Entry(c, e) && e <= maxEpoch
    requires c + |times| <= I64_MAX
    requires forall i :: 0 <= i < |times| ==> times[i] < e
    requires j < |times|
    ensures Run(m, limit, key, expires, times, maxEpoch)[j] == Decide(limit, Ok((c + j + 1, e)))
    decreases j
  {
    TrackCountsInWindow(m, key, expires, times[0], maxEpoch);
    if j > 0 {
      var t := TrackStep(m, key, expires, times[0], None, maxEpoch);
      RunInsideWindow(t.entries, limit, key, expires, times[1..], maxEpoch, c + 1, e, j - 1);
    }
  }

  /** The fixed window: starting on an absent or expired key, calls made
      before the window's expiry see counts 1, 2, 3, ... and the same reset
      epoch; exactly the first `limit` of them succeed and every later one
      fails with LimitExceeded, carrying its status. */
  lemma FixedWindow(m: Entries, limit: nat, key: string, expires: nat, times: seq<int>, maxEpoch: int)
    requires |times| > 0 && !Live(m, key, times[0]) && expires > 0
    requires times[0] + expires <= maxEpoch && |times| <= I64_MAX
    requires forall i :: 0 <= i < |times| ==> times[i] < times[0] + expires
    ensures var rs := Run(m, limit, key, expires, times, maxEpoch);
      forall i :: 0 <= i < |times| ==>
        var s := Status(i + 1, limit, times[0] + expires);
        rs[i] == if i < limit then Ok(s) else Err(LimitExceeded(s))
  {
    var e := times[0] + expires;
    TrackOpensWindow(m, key, expires, times[0], maxEpoch);
    var t := TrackStep(m, key, expires, times[0], None, maxEpoch);
    var rs := Run(m, limit, key, expires, times, maxEpoch);
    forall i | 1 <= i < |times|
      ensures rs[i] == Decide(limit, Ok((i + 1, e)))
    {
      RunInsideWindow(t.entries, limit, key, expires, times[1..], maxEpoch, 1, e, i - 1);
    }
  }

  /** Limit 2, a 60-second period, key "u1": counts 1 and 2 pass with the
      same reset, the third call is refused with count 3. */
  lemma ScenarioLimitTwo(now: int, maxEpoch: int)
    requires now + 60 <= maxEpoch
    ensures Run(map[], 2, "u1", 60, [now, now, now], maxEpoch) ==
      [Ok(Status(1, 2, now + 60)), Ok(Status(2, 2, now + 60)), Err(LimitExceeded(Status(3, 2, now + 60)))]
  {
    FixedWindow(map[], 2, "u1", 60, [now, now, now], maxEpoch);
  }

  /** The (i+1)-th outcome of a run is the i-th outcome of the run that
      starts after its first call. */
  lemma RunShift(m: Entries, limit: nat, key: string, expires: nat, times: seq<int>, maxEpoch: int, i: nat)
    requires i + 1 < |times|
    ensures Run(m, limit, key, expires, times, maxEpoch)[i + 1] ==
      Run(TrackStep(m, key, expires, times[0], None, maxEpoch).entries, limit, key, expires, times[1..], maxEpoch)[i]
  {
  }

  /** The same limiter 61 seconds later: the window has expired, and the
      next call passes with count 1 and a fresh reset. */
  lemma ScenarioAfterExpiry(now: int, maxEpoch: int)
    requires now + 121 <= maxEpoch
    ensures Run(map[], 2, "u1", 60, [now, now, now, now + 61], maxEpoch)[3] ==
      Ok(Status(1, 2, now + 121))
  {
    var m: Entries := map[];
    var e := now + 60;
    TrackOpensWindow(m, "u1", 60, now, maxEpoch);
    var m1 := TrackStep(m, "u1", 60, now, None, maxEpoch).entries;
    assert m1 == m["u1" := Entry(1, e)];
    TrackCountsInWindow(m1, "u1", 60, now, maxEpoch);
    var m2 := TrackStep(m1, "u1", 60, now, None, maxEpoch).entries;
    assert m2["u1"] == Entry(2, e);
    TrackCountsInWindow(m2, "u1", 60, now, maxEpoch);
    var m3 := TrackStep(m2, "u1", 60, now, None, maxEpoch).entries;
    assert m3["u1"] == Entry(3, e);
    TrackAfterExpiry(m3, "u1", 60, now + 61, maxEpoch);
    var times := [now, now, now, now + 61];
    assert times[1..] == [now, now, now + 61];
    assert times[1..][1..] == [now, now + 61];
    assert times[1..][1..][1..] == [now + 61];
    RunShift(m, 2, "u1", 60, times, maxEpoch, 2);
    RunShift(m1, 2, "u1", 60, times[1..], maxEpoch, 1);
    RunShift(m2, 2, "u1", 60, times[1..][1..], maxEpoch, 0);
    assert Run(m3, 2, "u1", 60, [now + 61], maxEpoch)[0] ==
      Decide(2, TrackStep(m3, "u1", 60, now + 61, None, maxEpoch).result);
  }
}
