/** Legacy deadlines counted in whole weekdays (src/utils/work-calendar.ts). */
module WorkCalendar {
  import opened Moscow
  import WorkingTime

  /** Configured opening and closing times of a day, in milliseconds after its start. */
  datatype Schedule = Schedule(open: int, close: int) {
    /** The configuration loader accepts HH:MM times with the start before the end. */
    predicate Valid() { 0 <= open < close < 86_400_000 }

    function Opens(day: int): int { DayStart(day) + open }

    function Closes(day: int): int { DayStart(day) + close }
  }

  datatype Workday = Workday(start: int, end: int) | InvalidOrdinal

  /** Weekdays up to and including `day` whose closing comes strictly after `at`. */
  ghost function ClosingsAfter(at: int, day: int, s: Schedule): nat
    decreases day - DayOf(at)
  {
    if day < DayOf(at) then 0
    else ClosingsAfter(at, day - 1, s) + if Weekday(day) && at < s.Closes(day) then 1 else 0
  }

  /** `day` is the n-th weekday closing strictly after `at`. */
  ghost predicate IsNthClosing(at: int, n: int, day: int, s: Schedule) {
    Weekday(day) && at < s.Closes(day) && ClosingsAfter(at, day, s) == n
  }

  /** Days before the registration day have closed already, so none is left out of the count. */
  lemma EarlierDaysAreClosed(at: int, day: int, s: Schedule)
    requires s.Valid() && day < DayOf(at)
    ensures s.Closes(day) < at
  {
  }

  lemma {:induction false} ClosingsGrow(at: int, day: int, day': int, s: Schedule)
    requires day <= day'
    ensures ClosingsAfter(at, day, s) <= ClosingsAfter(at, day', s)
    decreases day' - day
  {
    if day < day' { ClosingsGrow(at, day, day' - 1, s); }
  }

  /** A later registration leaves no more closings up to the same day. */
  lemma {:induction false} ClosingsShrink(at: int, at': int, day: int, s: Schedule)
    requires s.Valid() && at <= at'
    ensures ClosingsAfter(at', day, s) <= ClosingsAfter(at, day, s)
    decreases day - DayOf(at)
  {
    if day >= DayOf(at) { ClosingsShrink(at, at', day - 1, s); }
  }

  method IncidentWorkday(createdAt: int, ordinal: int, s: Schedule) returns (r: Workday, ghost day: int)
    requires s.Valid()
    ensures r == InvalidOrdinal <==> ordinal < 1
    ensures ordinal >= 1 ==> IsNthClosing(createdAt, ordinal, day, s)
    ensures ordinal >= 1 ==> r == Workday(s.Opens(day), s.Closes(day))
  {
    day := DayOf(createdAt);
    if ordinal < 1 { return InvalidOrdinal, day; }
    var d := DayOf(createdAt);
    if createdAt >= s.Closes(d) { d := d + 1; }
    ghost var first := d;
    while !Weekday(d)
      invariant first <= d <= WorkingTime.WeekdayFrom(first)
      invariant ClosingsAfter(createdAt, d - 1, s) == 0
      decreases WorkingTime.WeekdayFrom(first) - d
    { d := d + 1; }
    var n := 1;
    while n < ordinal
      invariant 1 <= n <= ordinal && first <= d
      invariant IsNthClosing(createdAt, n, d, s)
    {
      d := d + 1;
      ghost var next := d;
      while !Weekday(d)
        invariant next <= d <= WorkingTime.WeekdayFrom(next)
        invariant ClosingsAfter(createdAt, d - 1, s) == n
        decreases WorkingTime.WeekdayFrom(next) - d
      { d := d + 1; }
      n := n + 1;
    }
    day := d;
    r := Workday(s.Opens(d), s.Closes(d));
  }

  /** The n-th closing is unique, and a later ordinal means a strictly later day. */
  lemma NthClosingIsStrictlyIncreasing(at: int, n: int, day: int, n': int, day': int, s: Schedule)
    requires s.Valid() && IsNthClosing(at, n, day, s) && IsNthClosing(at, n', day', s)
    ensures n < n' <==> day < day'
    ensures n == n' <==> day == day'
    ensures at < s.Closes(day)
  {
    if day < day' {
      if day < DayOf(at) { EarlierDaysAreClosed(at, day, s); }
      ClosingsGrow(at, day, day' - 1, s);
    } else if day' < day {
      if day' < DayOf(at) { EarlierDaysAreClosed(at, day', s); }
      ClosingsGrow(at, day', day - 1, s);
    }
  }

  /** Registering later never gives an earlier deadline. */
  lemma NthClosingIsMonotone(at: int, at': int, n: int, day: int, day': int, s: Schedule)
    requires s.Valid() && at <= at' && IsNthClosing(at, n, day, s) && IsNthClosing(at', n, day', s)
    ensures day <= day' && s.Closes(day) <= s.Closes(day')
  {
    if day' < day {
      ClosingsShrink(at, at', day', s);
      ClosingsGrow(at, day', day - 1, s);
      EarlierOrCounted(at, day, s);
    }
  }

  lemma EarlierOrCounted(at: int, day: int, s: Schedule)
    requires s.Valid() && Weekday(day) && at < s.Closes(day)
    ensures ClosingsAfter(at, day, s) == ClosingsAfter(at, day - 1, s) + 1
  {
    if day < DayOf(at) { EarlierDaysAreClosed(at, day, s); }
  }

  // ----- The closed form ----------------------------------------------------

  function FirstDay(at: int, s: Schedule): int {
    WorkingTime.WeekdayFrom(if at >= s.Closes(DayOf(at)) then DayOf(at) + 1 else DayOf(at))
  }

  /** Week arithmetic: every five weekdays skip one weekend. */
  function NthDay(at: int, n: int, s: Schedule): int {
    var first := FirstDay(at, s);
    first + (n - 1) + 2 * ((DayOfWeek(first) - 1 + n - 1) / 5)
  }

  lemma WeekendFollows(friday: int)
    requires DayOfWeek(friday) == 5
    ensures !Weekday(friday + 1) && !Weekday(friday + 2)
  {
  }

  lemma LaterCloses(day: int, later: int, s: Schedule)
    requires day <= later
    ensures s.Closes(day) <= s.Closes(later)
  {
  }

  /** The weekday after the last closing is the next one, with the weekend of a Friday left out. */
  lemma NextClosing(at: int, n: int, before: int, day: int, s: Schedule)
    requires s.Valid() && IsNthClosing(at, n - 1, before, s) && Weekday(day) && DayOf(at) <= before
    requires if DayOfWeek(before) == 5 then day == before + 3 else day == before + 1
    ensures IsNthClosing(at, n, day, s)
  {
    hide DayOfWeek, Weekday, DayOf, DayStart;
    LaterCloses(before, day, s);
    if day == before + 3 {
      WeekendFollows(before);
      assert ClosingsAfter(at, before + 1, s) == n - 1;
      assert ClosingsAfter(at, before + 2, s) == n - 1;
    }
  }

  lemma FirstClosing(at: int, s: Schedule)
    requires s.Valid()
    ensures IsNthClosing(at, 1, FirstDay(at, s), s) && DayOf(at) <= FirstDay(at, s) && NthDay(at, 1, s) == FirstDay(at, s)
  {
    NoClosingBefore(at, FirstDay(at, s) - 1, s);
  }

  lemma {:induction false} NthDayIsNthClosing(at: int, n: int, s: Schedule)
    requires s.Valid() && 1 <= n
    ensures IsNthClosing(at, n, NthDay(at, n, s), s)
    ensures FirstDay(at, s) <= NthDay(at, n, s)
    decreases n
  {
    hide DayOfWeek, Weekday, DayOf, DayStart, FirstDay, IsNthClosing;
    FirstClosing(at, s);
    if n > 1 {
      NthDayIsNthClosing(at, n - 1, s);
      assert Weekday(FirstDay(at, s)) by { ClosesOnAWeekday(at, 1, FirstDay(at, s), s); }
      WeekStep(FirstDay(at, s), n);
      NextClosing(at, n, NthDay(at, n - 1, s), NthDay(at, n, s), s);
    }
  }

  lemma ClosesOnAWeekday(at: int, n: int, day: int, s: Schedule)
    requires IsNthClosing(at, n, day, s)
    ensures Weekday(day)
  {
  }

  lemma {:induction false} NoClosingBefore(at: int, day: int, s: Schedule)
    requires s.Valid() && day < FirstDay(at, s)
    ensures ClosingsAfter(at, day, s) == 0
    decreases day - DayOf(at)
  {
    if day >= DayOf(at) { NoClosingBefore(at, day - 1, s); }
  }

  lemma Quotient(i: int, q: int, r: int)
    requires i == 5 * q + r && 0 <= r < 5
    ensures i / 5 == q && i % 5 == r
  {
  }

  lemma WeekdayAt(monday: int, weeks: int, r: int)
    requires DayOfWeek(monday) == 1 && 0 <= r < 5
    ensures DayOfWeek(monday + 7 * weeks + r) == 1 + r
  {
    var w := (monday + 4) / 7;
    assert monday + 7 * weeks + r + 4 == 7 * (w + weeks) + (1 + r);
  }

  /** One ordinal further is the next day, or the Monday after a Friday. */
  lemma WeekStep(first: int, n: int)
    requires Weekday(first) && 1 < n
    ensures var before := first + (n - 2) + 2 * ((DayOfWeek(first) - 1 + n - 2) / 5);
            var day := first + (n - 1) + 2 * ((DayOfWeek(first) - 1 + n - 1) / 5);
            && Weekday(before) && Weekday(day)
            && (if DayOfWeek(before) == 5 then day == before + 3 else day == before + 1)
  {
    var i, monday := DayOfWeek(first) - 1 + n - 2, first - (DayOfWeek(first) - 1);
    var q, r := i / 5, i % 5;
    WeekdayAt(monday, q, r);
    if r == 4 {
      Quotient(i + 1, q + 1, 0);
      WeekdayAt(monday, q + 1, 0);
    } else {
      Quotient(i + 1, q, r + 1);
      WeekdayAt(monday, q, r + 1);
    }
  }

  /** The legacy deadline of a registration is the closed form, later than the registration. */
  lemma DeadlineIsClosedForm(at: int, n: int, day: int, s: Schedule)
    requires s.Valid() && IsNthClosing(at, n, day, s) && 1 <= n
    ensures day == NthDay(at, n, s) && at < s.Closes(day)
  {
    NthDayIsNthClosing(at, n, s);
    NthClosingIsStrictlyIncreasing(at, n, day, n, NthDay(at, n, s), s);
  }
}
