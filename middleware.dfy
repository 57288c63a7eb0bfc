/** The interceptor of actix-limitation/src/middleware.rs
    (`RateLimiterMiddleware::call`) reduced to its decision: resolve the
    request's key once; with no key, forward the request uncounted; with a
    key, count it and forward it or answer for the downstream service. */
module Middleware {
  import opened Wrappers
  import opened Errors

  const TOO_MANY_REQUESTS: nat := 429
  const INTERNAL_SERVER_ERROR: nat := 500

  /** The five ways a request is disposed of. */
  datatype Outcome =
    | Bypass                      // no key: forwarded, never counted
    | Allow(status: Status)       // counted, within the limit: forwarded
    | RejectLimited(status: Status) // LimitExceeded: 429, logged as a warning
    | RejectTrack(reason: string) // the store failed: 500, logged as an error
    | RejectOther(error: Error)   // Time or Other: 500, logged as an error

  /** A reply: the downstream service's own response (the left body) or one
      the interceptor builds from a status code alone (the right body). */
  datatype Reply<B> = Forwarded(response: B) | Generated(code: nat)

  /** One call of the interceptor: how it disposed of the request, the key it
      passed to `count` (None when it did not call `count`), whether it called
      the downstream service, and what it returned. */
  datatype Handling<B, E> = Handling(outcome: Outcome, counted: Option<string>, forwarded: bool, reply: Result<Reply<B>, E>)

  /** The decision for a resolved key, `count` standing for what
      `Limiter::count` returns for that key. A missing key always bypasses;
      with a key, an Ok count allows, and each error variant picks its own
      rejection. */
  function Classify(key: Option<string>, count: string -> Result<Status, Error>): (o: Outcome)
    ensures key.None? <==> o.Bypass?
    ensures key.Some? ==> var c := count(key.value);
      && (o.Allow? <==> c.Ok?)
      && (o.Allow? ==> o.status == c.value)
      && (o.RejectLimited? <==> c.Err? && c.error.LimitExceeded?)
      && (o.RejectLimited? ==> c.error == LimitExceeded(o.status))
      && (o.RejectTrack? <==> c.Err? && c.error.Track?)
      && (o.RejectTrack? ==> c.error == Track(o.reason))
      && (o.RejectOther? <==> c.Err? && (c.error.Time? || c.error.Other?))
      && (o.RejectOther? ==> c.error == o.error)
  {
    match key
    case None => Bypass
    case Some(k) =>
      match count(k)
      case Ok(status) => Allow(status)
      case Err(LimitExceeded(status)) => RejectLimited(status)
      case Err(Track(reason)) => RejectTrack(reason)
      case Err(e) => RejectOther(e)
  }

  /** The status code of a reply the interceptor builds itself. */
  function RejectionCode(o: Outcome): (code: nat)
    requires !o.Bypass? && !o.Allow?
    ensures code == TOO_MANY_REQUESTS <==> o.RejectLimited?
    ensures code == INTERNAL_SERVER_ERROR <==> o.RejectTrack? || o.RejectOther?
  {
    if o.RejectLimited? then TOO_MANY_REQUESTS else INTERNAL_SERVER_ERROR
  }

  /** The downstream result with its response moved into the left body. */
  function MapIntoLeft<B, E>(r: Result<B, E>): Result<Reply<B>, E>
  {
    match r
    case Ok(b) => Ok(Forwarded(b))
    case Err(e) => Err(e)
  }

  /** `RateLimiterMiddleware::call`. The key function is applied to the
      request before anything else; `count` is called with that key, and
      only when there is one; the downstream service is called exactly when
      the request bypasses or is allowed, and its result is then returned
      unchanged. A rejection is always an Ok reply with 429 or 500, so an
      Err can only be the downstream service's own. */
  function Handle<Req, B, E>(getKey: Req -> Option<string>, count: string -> Result<Status, Error>,
                             service: Req -> Result<B, E>, req: Req): (h: Handling<B, E>)
    ensures h.outcome == Classify(getKey(req), count)
    ensures h.counted == getKey(req)
    ensures h.forwarded <==> h.outcome.Bypass? || h.outcome.Allow?
    ensures h.forwarded ==> h.reply == MapIntoLeft(service(req))
    ensures !h.forwarded ==> h.reply == Ok(Generated(RejectionCode(h.outcome)))
    ensures h.reply.Err? ==> h.forwarded && service(req).Err? && h.reply.error == service(req).error
  {
    var key := getKey(req);
    var outcome := Classify(key, count);
    if outcome.Bypass? || outcome.Allow? then
      Handling(outcome, key, true, MapIntoLeft(service(req)))
    else
      Handling(outcome, key, false, Ok(Generated(RejectionCode(outcome))))
  }

  /** Fail-open on a missing identity: whatever the limiter would say, a
      request without a key reaches the downstream service and gets its
      response back, and nothing is counted. */
  lemma MissingKeyAlwaysForwarded<Req, B, E>(getKey: Req -> Option<string>, count: string -> Result<Status, Error>,
                                             service: Req -> Result<B, E>, req: Req)
    requires getKey(req).None?
    ensures var h := Handle(getKey, count, service, req);
      h.outcome == Bypass && h.counted.None? && h.forwarded && h.reply == MapIntoLeft(service(req))
  {
  }

  /** Fail-closed on a limiter failure: a counted request whose count fails,
      for whatever reason, never reaches the downstream service; it gets 429
      when the limit was exceeded and 500 otherwise. */
  lemma LimiterErrorRejects<Req, B, E>(getKey: Req -> Option<string>, count: string -> Result<Status, Error>,
                                       service: Req -> Result<B, E>, req: Req)
    requires getKey(req).Some? && count(getKey(req).value).Err?
    ensures var h := Handle(getKey, count, service, req);
      var e := count(getKey(req).value).error;
      && !h.forwarded
      && h.reply == Ok(Generated(if e.LimitExceeded? then TOO_MANY_REQUESTS else INTERNAL_SERVER_ERROR))
  {
  }
}
