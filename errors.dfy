/** The limiter's failure modes (actix-limitation/src/errors.rs) and the
    status record they carry. */
module Errors {
  import opened Wrappers

  /** The snapshot `Status::new(count, limit, reset)` builds. Only the three
      values the constructor is given are kept: the rest of the record is
      derived inside status.rs, which is not part of this model. */
  datatype Status = Status(count: nat, limit: nat, reset: int)

  /** `time::error::ComponentRange`: a time component fell outside its
      range. Only its display text is kept. */
  datatype ComponentRange = ComponentRange(text: string)

  /** The four failure modes. */
  datatype Error =
    | Track(reason: string)
    | LimitExceeded(status: Status)
    | Time(range: ComponentRange)
    | Other(reason: string)

  const TRACK_MESSAGE: string := "Failed to Track connection"
  const LIMIT_EXCEEDED_MESSAGE: string := "Limit is exceeded for a key"
  const TIME_MESSAGE: string := "Time conversion failed"
  const OTHER_MESSAGE: string := "Generic error"

  /** The derived `Display`: one fixed message per variant, whatever the payload. */
  function Message(e: Error): (s: string)
    ensures s == TRACK_MESSAGE <==> e.Track?
    ensures s == LIMIT_EXCEEDED_MESSAGE <==> e.LimitExceeded?
    ensures s == TIME_MESSAGE <==> e.Time?
    ensures s == OTHER_MESSAGE <==> e.Other?
  {
    match e
    case Track(_) => TRACK_MESSAGE
    case LimitExceeded(_) => LIMIT_EXCEEDED_MESSAGE
    case Time(_) => TIME_MESSAGE
    case Other(_) => OTHER_MESSAGE
  }

  /** Two errors display alike exactly when they are the same variant. */
  lemma MessageIdentifiesVariant(a: Error, b: Error)
    ensures Message(a) == Message(b) <==>
      (a.Track? && b.Track?) || (a.LimitExceeded? && b.LimitExceeded?) ||
      (a.Time? && b.Time?) || (a.Other? && b.Other?)
  {
  }

  /** The derived `std::error::Error::source`: every field but Time's is
      marked `not(source)`, so only a Time error has an underlying cause. */
  function Source(e: Error): (r: Option<ComponentRange>)
    ensures r.Some? <==> e.Time?
    ensures r.Some? ==> Time(r.value) == e
  {
    match e
    case Time(range) => Some(range)
    case _ => None
  }

  /** The one derived conversion, `From<ComponentRange>`. The other three
      variants are marked `from(ignore)`, so there is no conversion from a
      string or from a Status. */
  function FromComponentRange(c: ComponentRange): (e: Error)
    ensures e.Time? && Message(e) == TIME_MESSAGE
    ensures Source(e) == Some(c)
  {
    Time(c)
  }
}
