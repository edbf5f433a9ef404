/** Optional and fallible values, standing for Go's nil pointers and error returns. */
module Wrappers {

  datatype Option<+T> = None | Some(value: T)

  datatype Result<+T, +E> = Success(value: T) | Failure(error: E)
}

/** Instants and durations are integers counting nanoseconds, as in Go's time package. */
module Time {

  const SECOND: int := 1_000_000_000
  const MINUTE: int := 60_000_000_000

  /** Whole seconds of a duration, rounded toward zero as Go's float-to-integer conversion does. */
  function WholeSeconds(d: int): int {
    if d >= 0 then d / SECOND else -((-d) / SECOND)
  }

  /** The part of a duration that lies beyond a whole second, dropped. */
  function CutToSecond(d: int): int {
    if d >= 0 then d - d % 1_000_000_000 else d + -d % 1_000_000_000
  }

  lemma WholeSecondsCut(d: int)
    ensures WholeSeconds(d) * SECOND == CutToSecond(d)
  {
  }

  /** A timestamp kept as RFC 3339 text in the status: it carries seconds only. */
  datatype Timestamp = Empty | Malformed | At(seconds: int)

  function Format(t: int): Timestamp {
    At(t / SECOND)
  }

  lemma FormatExactly(t: int)
    ensures Format(t) == At(t / 1_000_000_000)
  {
  }
}
