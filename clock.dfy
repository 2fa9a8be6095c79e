/** Time as the stores see it: instants are whole milliseconds since the
    epoch (what `Date.getTime()` returns), and a calendar date
    (`toISOString().split('T')[0]`) is the number of the UTC day holding
    the instant. The clock itself is read by the callers and passed in. */
module Clock {

  const MsPerDay: int := 24 * 60 * 60 * 1000

  /** The UTC day number of instant `t`. */
  function DayOf(t: int): (d: int)
    ensures d * MsPerDay <= t < (d + 1) * MsPerDay
  {
    t / MsPerDay
  }

  /** `n` whole days after `t`. */
  function AddDays(t: int, n: int): (r: int)
    ensures DayOf(r) == DayOf(t) + n
    ensures n >= 1 ==> r > t
    ensures n == 0 ==> r == t
  {
    var r := t + n * MsPerDay;
    DayBoundsUnique(r, DayOf(t) + n);
    r
  }

  /** A day number is determined by the bounds `DayOf` promises. */
  lemma DayBoundsUnique(t: int, d: int)
    requires d * MsPerDay <= t < (d + 1) * MsPerDay
    ensures DayOf(t) == d
  {
  }

  /** The date of "24 hours ago" is the day before today's date. */
  lemma YesterdayIsPreviousDay(now: int)
    ensures DayOf(now - MsPerDay) == DayOf(now) - 1
  {
    DayBoundsUnique(now - MsPerDay, DayOf(now) - 1);
  }
}
