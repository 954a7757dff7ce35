/** Moscow calendar days over integer milliseconds since the Unix epoch.
  * Moscow is a fixed UTC+3, so a calendar day is a plain integer. */
module Moscow {

  /** First instant of a calendar day. */
  function DayStart(day: int): int {
    day * 86_400_000 - 10_800_000
  }

  function DayOf(at: int): int {
    (at + 10_800_000) / 86_400_000
  }

  /** Day 0 is Thursday, 1970-01-01; 0 is Sunday and 6 is Saturday. */
  function DayOfWeek(day: int): int {
    (day + 4) % 7
  }

  predicate Weekday(day: int) {
    DayOfWeek(day) != 0 && DayOfWeek(day) != 6
  }

  function Max(a: int, b: int): int { if a >= b then a else b }

  function Min(a: int, b: int): int { if a <= b then a else b }
}
