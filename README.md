# actix-limitation: a fixed-window rate limiter, modelled in Dafny

actix-limitation limits requests per key with a fixed-window counter. Each
key gets a counter in Redis. The first request of a window creates the
counter at 0 with an expiry of one period, and every request increments it.
A request is refused once the count after its own increment is above the
limit. An Actix middleware resolves each request's key. It forwards requests
that have no key, and it answers with 429 or 500 when counting refuses the
request or fails.

The model has five modules:

- `Wrappers` (wrappers.dfy): Rust-like `Option` and `Result`.
- `Errors` (errors.dfy): the `Error` enum of errors.rs with its display
  messages, its `source` and its one `From` conversion. It also holds the
  `Status` record `{count, limit, reset}` that `LimitExceeded` carries.
- `DataSource` (datasource.dfy): `RedisDatasource::track` against an
  in-memory Redis, a map from key to `Entry(count, expiresAt)`.
  - Each Redis command is a pure function: `SetIfAbsent` for
    `SET key 0 EX expires NX`, `Increment` for `INCR` and `TimeToLive` for
    `TTL`.
  - `TrackStep` is one whole `track` call, taken as a single atomic step.
  - The class `RedisDatasource` keeps the map as a field and runs the same
    commands in place. Its `Track` method is proved equal to `TrackStep`.
- `Limitation` (limiter.dfy): the defaults, `Limiter::builder`,
  `Limiter::count` (`Decide` and the method `Count`), and the fixed-window
  theorem over successive calls (`Run`, `FixedWindow`).
- `Middleware` (middleware.dfy): `RateLimiterMiddleware::call` as the pure
  function `Handle`. It returns the outcome (one of five), the key passed to
  `count`, whether the downstream service was called, and the reply.

Things outside the program are parameters:

- `now` is the wall-clock second.
- `link` is the connection attempt. `Some(reason)` means it failed.
- `maxEpoch` is the last second the time library can represent.
- `getKey`, `count` and `service` in `Handle` are the key closure, the
  limiter's answer for a key, and the downstream service.

The `Time` variant is documented as "Time conversion failed"
(actix-limitation/src/errors.rs:18-20). Yet `RedisDatasource::track` maps a
failed TTL-to-epoch conversion to `Error::Track`
(actix-limitation/src/lib.rs:193), and the model follows the code. So the
code shown never builds a `Time` error itself. A user-supplied
`DataSource::track` may still return one: `count` passes it on
(actix-limitation/src/lib.rs:132), and the middleware answers it with 500
(actix-limitation/src/middleware.rs:109-115).

## Model

| member | source | states |
|---|---|---|
| `Errors.Message` | actix-limitation/src/errors.rs:7-26 | Track, LimitExceeded, Time and Other display as "Failed to Track connection", "Limit is exceeded for a key", "Time conversion failed" and "Generic error"; each message belongs to exactly one variant |
| `Errors.MessageIdentifiesVariant` | actix-limitation/src/errors.rs:9-24 | two errors display the same message iff they are the same variant, whatever their payloads |
| `Errors.Source` | actix-limitation/src/errors.rs:11-25 | only a Time error has an underlying source (its range error); the other fields are `not(source)` |
| `Errors.FromComponentRange` | actix-limitation/src/errors.rs:18-41 | the only conversion into Error is from the time range error, and it yields Time with that error as source |
| `DataSource.EpochUtcPlus` | actix-limitation/src/lib.rs:192-193 | the reset epoch is now + ttl, not the raw TTL; it fails exactly when that lies past the representable range |
| `DataSource.SetIfAbsent` | actix-limitation/src/lib.rs:176-182 | `SET key 0 EX expires NX`: the key exists afterwards and no other key is added; a live key is left untouched; an absent or expired key becomes count 0 expiring `expires` seconds from now; every other key keeps its entry |
| `DataSource.Increment` | actix-limitation/src/lib.rs:183-184 | `INCR`: succeeds iff the counter is below the Redis integer maximum, and then raises that key's count by one, keeping its expiry, the set of keys and every other key's entry |
| `DataSource.TimeToLive` | actix-limitation/src/lib.rs:185-186 | `TTL`: now plus the result is the key's expiry, and the result is positive iff the key is live |
| `DataSource.TrackStep` | actix-limitation/src/lib.rs:160-197 | every failure of `track` (connection, query, time conversion) is a Track error, never Time; on success it returns a count of at least 1 and the key's own expiry as reset, still in the future; a failed connection returns Track with the connection's reason, and a zero expiry returns Track with Redis's invalid-expire reply, never Ok, in both cases with the store unchanged |
| `DataSource.TrackOpensWindow` | actix-limitation/src/lib.rs:174-193 | on an absent or expired key, `track` creates it at 0 expiring now + expires and increments it to 1, whether or not the reset can be represented; it returns count 1 with that reset iff now + expires is representable, and a Track error otherwise |
| `DataSource.TrackCountsInWindow` | actix-limitation/src/lib.rs:176-186 | on a live key, SET NX does nothing: the expiry is kept and the count rises by exactly one; the increment stands even if the reset conversion then fails |
| `DataSource.TrackAfterExpiry` | actix-limitation/src/lib.rs:176-184 | once a key's window has expired, the next call starts a new window at count 1 |
| `DataSource.TrackOverflow` | actix-limitation/src/lib.rs:183-191 | a counter at the Redis integer maximum makes INCR fail; the call is a Track error and the store is unchanged |
| `DataSource.TrackIsolatesKeys` | actix-limitation/src/lib.rs:174-186 | a call changes no key but its own |
| `DataSource.TrackKeepsBounded` | actix-limitation/src/lib.rs:183-184 | no call lets a counter pass the Redis integer maximum |
| `DataSource.RedisDatasource.Set` | actix-limitation/src/lib.rs:176-182 | SET NX on the in-place map: create the key at 0 with its expiry unless it is live; keeps every counter within the Redis integer range |
| `DataSource.RedisDatasource.Incr` | actix-limitation/src/lib.rs:183-184 | INCR on the in-place map: returns the new count, or the overflow error with the map unchanged; keeps every counter within the Redis integer range |
| `DataSource.RedisDatasource.Ttl` | actix-limitation/src/lib.rs:185-186 | TTL: the seconds left before the key expires |
| `DataSource.RedisDatasource.Track` | actix-limitation/src/lib.rs:160-197 | running SET NX, INCR and TTL in place leaves the map and returns the result that `TrackStep` gives, and keeps every counter within the Redis integer range |
| `Limitation.NewBuilder` | actix-limitation/src/lib.rs:64-125 | the builder holds the given client and starts with limit 5000, a period of 3600 s, no key function, cookie name "sid", and session key "rate-api-id" exactly when the session feature is on |
| `Limitation.Build` | actix-limitation/src/lib.rs:204-213 | stands for `Builder::build`, whose code (builder.rs) is not part of this model; it assumes that `build` keeps the builder's limit and period (the ensures) and takes the given key function or else a fallback standing for the cookie/session lookup |
| `Limitation.DefaultLimiter` | actix-limitation/src/lib.rs:204-213 | a limiter built from the defaults has limit 5000 and period 3600 s |
| `Limitation.Decide` | actix-limitation/src/lib.rs:129-139 | a track error is passed on unchanged; otherwise the result is LimitExceeded iff count > limit (a count equal to the limit is Ok), and the status, whether Ok or inside LimitExceeded, is exactly (count, limit, reset) |
| `Limitation.Count` | actix-limitation/src/lib.rs:128-140 | `count` tracks the key with the period in whole seconds, leaves the store as that `track` call does, and returns the decision on its result; any status it reports has a count within the Redis integer range, since the store keeps every counter there |
| `Limitation.Run` | actix-limitation/src/lib.rs:128-140 | successive `count` calls on one key, threading the store; one outcome per call |
| `Limitation.RunInsideWindow` | actix-limitation/src/lib.rs:128-186 | inside a live window whose counter is at c, the j-th further call sees count c + j + 1 and the window's reset |
| `Limitation.FixedWindow` | actix-limitation/src/lib.rs:128-186 | from an absent or expired key, calls made before the window expires see counts 1, 2, 3, ... with one reset; exactly the first `limit` succeed, and call limit + 1 and every later one fails with LimitExceeded carrying its status |
| `Limitation.ScenarioLimitTwo` | actix-limitation/src/lib.rs:128-186 | limit 2, period 60 s, key "u1": Ok(count 1), Ok(count 2), then LimitExceeded(count 3), all with the same reset |
| `Limitation.ScenarioAfterExpiry` | actix-limitation/src/lib.rs:128-186 | the same limiter 61 s later answers Ok with count 1 and a fresh reset |
| `Middleware.Classify` | actix-limitation/src/middleware.rs:74-123 | no key iff bypass; with a key, Ok count iff allow (with its status), LimitExceeded iff the 429 rejection, Track iff the Track rejection, Time or Other iff the generic rejection |
| `Middleware.RejectionCode` | actix-limitation/src/middleware.rs:94-115 | a generated reply is 429 iff the limit was exceeded, and 500 iff the store or anything else failed |
| `Middleware.Handle` | actix-limitation/src/middleware.rs:69-125 | the key function is applied first; `count` is called with that key and only if there is one; the service is called iff the request bypasses or is allowed, and its result is then returned unchanged (left body); a rejection is an Ok reply; an Err can only be the service's own |
| `Middleware.MissingKeyAlwaysForwarded` | actix-limitation/src/middleware.rs:74-87 | a request with no key is never counted and always gets the downstream service's response, whatever the limiter would say |
| `Middleware.LimiterErrorRejects` | actix-limitation/src/middleware.rs:89-117 | a request whose count fails never reaches the service; it gets 429 for LimitExceeded and 500 for anything else |

## Left out

- Actix plumbing is left out: `Transform`, `Service`, `forward_ready!`, the boxed futures, `Rc` sharing and the `EitherBody` mapping (actix-limitation/src/middleware.rs:13-67). Only the outcome of `call` is modelled. The left and right bodies are the two `Reply` variants.
- Redis connection handling and async querying are left out (`RedisDatasource::new`, `get_multiplexed_tokio_connection`, `query_async`). A connection failure is the `link` parameter. Redis is a map, and the pipeline is one atomic step.
- Concurrency across requests and processes is left out. Each `track` call is one indivisible transition.
- The wall clock and `Status::epoch_utc_plus` are in status.rs, which is not part of this model. `now` is a parameter, and the conversion is `now + ttl`, which fails past `maxEpoch`. The range error's text is a placeholder.
- `Status` keeps only the three values that `Status::new` receives. The derived `remaining` field is in status.rs and is not modelled.
- `Builder::build` and the cookie/session key fallback are in builder.rs, which is not part of this model. `Build` assumes that `build` copies the limit and the period and uses the given key function or the fallback. `DefaultLimiter` relies on that assumption. The other builder setters are not modelled.
- Limitation.Count is stated for the Redis data source only. For any other data source, `Decide` gives what `count` makes of `track`'s answer.
- Middleware.Handle: exactly one application of the key function per request is not stated. The pure function applies it once by construction.
- DataSource.TrackStep: an expiry of 0 seconds (a period under one second) is a Track error with the store unchanged. In Redis, `SET ... EX 0` fails inside the MULTI block while the INCR after it may still run and leave a key without expiry. That residue is not modelled.
- DataSource.TrackStep and Limitation.FixedWindow: Redis's expiry clock and the process clock used by `epoch_utc_plus` are one `now`, and no time passes between the TTL read and the conversion. The result that every call in a window gets exactly the same reset depends on this. In the program, reset is the process clock after the await plus a TTL that Redis rounds, so two calls in one window can report resets a second or so apart.
- Redis's own limit on `EX` values, its TTL rounding and its handling of keys written by other clients are not modelled.
- `limit` and counts are unbounded naturals rather than `usize`. A Redis counter can never pass `I64_MAX`, which fits in a 64-bit `usize`.
- Log messages (actix-limitation/src/middleware.rs:95, 102, 110), the `Debug` impl of the key function, and the crate-level doc example are left out.
