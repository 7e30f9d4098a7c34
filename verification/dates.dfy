/**
 * Differences between two JavaScript time values (milliseconds), rounded
 * to whole days or minutes the way the dashboard rounds them.
 */
module Dates {

  const MillisPerMinute := 1000 * 60
  const MillisPerDay := 1000 * 60 * 60 * 24

  /** `Math.ceil((dueDate - now) / (1000 * 60 * 60 * 24))`: the least whole number of days covering the difference. */
  function DaysUntil(dueDate: int, now: int): (d: int)
    ensures (d - 1) * MillisPerDay < dueDate - now <= d * MillisPerDay
  {
    -((now - dueDate) / MillisPerDay)
  }

  /** A due date no earlier than another is never fewer days away. */
  lemma DaysUntilMonotone(due1: int, due2: int, now: int)
    requires due1 <= due2
    ensures DaysUntil(due1, now) <= DaysUntil(due2, now)
  {
  }

  /** `Math.floor((now - timestamp) / 60000)`: whole minutes elapsed, rounded down. */
  function MinutesSince(timestamp: int, now: int): (m: int)
    ensures m * MillisPerMinute <= now - timestamp < (m + 1) * MillisPerMinute
  {
    (now - timestamp) / MillisPerMinute
  }
}
