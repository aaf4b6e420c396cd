/** The trading day of a clock reading.  Readings count microseconds. */
module Calendar {
  /** India Standard Time is five and a half hours ahead of UTC, all year. */
  const IST_OFFSET: int := 19_800_000_000
  const DAY: int := 86_400_000_000

  function DayOf(now: int): int { (now + IST_OFFSET) / DAY }

  function TimeOfDay(now: int): int { (now + IST_OFFSET) % DAY }

  /** Day and time of day are the reading, in Indian time. */
  lemma DayAndTime(now: int)
    ensures DayOf(now) * DAY + TimeOfDay(now) == now + IST_OFFSET && 0 <= TimeOfDay(now) < DAY
  {
  }

  lemma DaysAscend(a: int, b: int)
    requires a <= b
    ensures DayOf(a) <= DayOf(b)
  {
  }
}
