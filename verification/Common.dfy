/** Values shared by every module: optional columns, identifiers and instants. */
module Common {
  datatype Option<+T> = None | Some(value: T)

  type Id = string

  /** An instant, in nanoseconds since the Unix epoch (the resolution of the server's clock). */
  type Time = int

  const SECOND: Time := 1_000_000_000
  const MINUTE: Time := 60 * SECOND
  const DAY: Time := 24 * 60 * MINUTE

  /** What a `timestamptz` column keeps of an instant: whole microseconds. */
  function Micro(t: Time): (r: Time)
    ensures r <= t < r + 1000
    ensures r % 1000 == 0
  {
    t - t % 1000
  }

  /** Comparing a stored instant with a clock reading does not depend on the lost nanoseconds. */
  lemma StoredComparison(stored: Time, now: Time)
    requires stored % 1000 == 0
    ensures stored <= now <==> stored <= Micro(now)
  {
  }
}
