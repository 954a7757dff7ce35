/** Continuous working time, Monday to Friday 08:00-17:00 Moscow (src/sla/working-time.ts).
  * The loops are proved against `Measure`, which counts working milliseconds one by one. */
module WorkingTime {
  import opened Moscow

  datatype Due = Due(at: int) | InvalidDuration

  /** A JavaScript number of hours, exact where it is finite. */
  datatype Hours = Finite(hours: real) | NotFinite

  function Opens(day: int): int { DayStart(day) + 28_800_000 }

  function Closes(day: int): int { DayStart(day) + 61_200_000 }

  /** The declarative meaning: this millisecond is working time. */
  predicate Working(t: int) {
    Weekday(DayOf(t)) && Opens(DayOf(t)) <= t < Closes(DayOf(t))
  }

  /** How many working milliseconds lie in [from, to). */
  ghost function Measure(from: int, to: int): nat
    decreases to - from
  {
    if to <= from then 0
    else Measure(from, to - 1) + if Working(to - 1) then 1 else 0
  }

  /** r is the first working instant at or after `at`. */
  ghost predicate IsNextWorking(at: int, r: int) {
    at <= r && Working(r) && forall t :: at <= t < r ==> !Working(t)
  }

  /** r is the instant at which exactly ms of working time have passed since `at`. */
  ghost predicate IsDue(at: int, ms: int, r: int) {
    if ms == 0 then r == at
    else at < r && Working(r - 1) && Measure(at, r) == ms
  }

  /** What `new Date` keeps of an instant between two milliseconds: it truncates toward 1970. */
  function Truncated(x: real): int { if x >= 0.0 then x.Floor else -((-x).Floor) }

  /** r is the truncation of the instant at which exactly d milliseconds of working time, whole or not, have passed:
    * a fraction of a millisecond passes inside a working millisecond. */
  ghost predicate IsDueAfter(at: int, d: real, r: int)
    requires 0.0 <= d
  {
    if d == d.Floor as real then IsDue(at, d.Floor, r)
    else exists t :: at <= t && Working(t) && Measure(at, t) == d.Floor && r == Truncated(t as real + (d - d.Floor as real))
  }

  // ----- Measure as a measure ---------------------------------------------

  /** Working time adds up over adjacent intervals. */
  lemma {:induction false} MeasureSplit(a: int, b: int, c: int)
    requires a <= b <= c
    ensures Measure(a, c) == Measure(a, b) + Measure(b, c)
    decreases c - b
  {
    if b < c { MeasureSplit(a, b, c - 1); }
  }

  /** It grows with the end and shrinks with the start of the interval. */
  lemma MeasureMonotone(a: int, a': int, b: int, b': int)
    requires a <= a' && b' <= b
    ensures Measure(a', b') <= Measure(a, b)
  {
    if a' <= b' {
      MeasureSplit(a, a', b);
      MeasureSplit(a', b', b);
    }
  }

  lemma {:induction false} NothingToMeasure(a: int, b: int)
    requires forall t :: a <= t < b ==> !Working(t)
    ensures Measure(a, b) == 0
    decreases b - a
  {
    if a < b { NothingToMeasure(a, b - 1); }
  }

  /** Inside one day the measure is the overlap with that day's window. */
  lemma {:induction false} MeasureWithinDay(day: int, a: int, b: int)
    requires DayStart(day) <= a <= b <= DayStart(day + 1)
    ensures Measure(a, b) == if Weekday(day) then Max(0, Min(b, Closes(day)) - Max(a, Opens(day))) else 0
    decreases b - a
  {
    if a < b {
      MeasureWithinDay(day, a, b - 1);
      assert DayOf(b - 1) == day;
    }
  }

  lemma WindowIsWorking(t: int)
    requires Working(t)
    ensures DayStart(DayOf(t)) <= t < Closes(DayOf(t)) < DayStart(DayOf(t) + 1)
    ensures forall u :: t <= u < Closes(DayOf(t)) ==> DayOf(u) == DayOf(t)
  {
  }

  // ----- The loops ----------------------------------------------------------

  function WeekdayFrom(day: int): (d: int)
    ensures day <= d <= day + 2 && Weekday(d)
    ensures forall e :: day <= e < d ==> !Weekday(e)
  {
    if Weekday(day) then day else if Weekday(day + 1) then day + 1 else day + 2
  }

  method NextWorkingInstant(at: int) returns (r: int)
    ensures IsNextWorking(at, r)
  {
    var day := DayOf(at);
    while true
      invariant DayOf(at) <= day <= WeekdayFrom(DayOf(at) + 1)
      invariant forall t :: at <= t < DayStart(day) ==> !Working(t)
      decreases WeekdayFrom(DayOf(at) + 1) - day
    {
      if Weekday(day) && at < Closes(day) {
        r := Max(at, Opens(day));
        assert DayOf(r) == day;
        forall t | at <= t < r ensures !Working(t) {
          if t >= DayStart(day) { assert DayOf(t) == day; }
        }
        return;
      }
      forall t | at <= t < DayStart(day + 1) ensures !Working(t) {
        if t >= DayStart(day) { assert DayOf(t) == day; }
      }
      day := day + 1;
    }
  }

  /** Opening hours under the policy: the instant is its own next working instant. */
  method PolicyWorkingHours(at: int) returns (working: bool)
    ensures working <==> Working(at)
  {
    var next := NextWorkingInstant(at);
    working := next == at;
  }

  method AddWorkingHours(at: int, hours: Hours) returns (r: Due)
    ensures r == InvalidDuration <==> hours.NotFinite? || hours.hours < 0.0
    ensures r.Due? ==> IsDueAfter(at, hours.hours * 3_600_000.0, r.at)
  {
    hide Measure, Weekday, DayOf, DayStart;
    if hours.NotFinite? || hours.hours < 0.0 { return InvalidDuration; }
    if hours.hours == 0.0 { return Due(at); }
    ghost var d := hours.hours * 3_600_000.0;
    var cursor := NextWorkingInstant(at);
    var remaining := hours.hours * 3_600_000.0;
    NothingToMeasure(at, cursor);
    while true
      invariant at <= cursor && Working(cursor) && 0.0 < remaining
      invariant Measure(at, cursor) as real + remaining == d
      decreases remaining
    {
      var close := Closes(DayOf(cursor));
      var available := close - cursor;
      WindowIsWorking(cursor);
      if remaining <= available as real {
        LastStretch(at, cursor, d, remaining);
        return Due(Truncated(cursor as real + remaining));
      }
      remaining := remaining - available as real;
      var next := NextWorkingInstant(close);
      WholeStretch(at, cursor, next);
      cursor := next;
    }
  }

  /** From inside one window to the opening of the next the rest of the first one is worked. */
  lemma WholeStretch(at: int, cursor: int, next: int)
    requires at <= cursor && Working(cursor) && IsNextWorking(Closes(DayOf(cursor)), next)
    ensures Measure(at, next) == Measure(at, cursor) + Closes(DayOf(cursor)) - cursor
  {
    var close := Closes(DayOf(cursor));
    WindowIsWorking(cursor);
    MeasureWithinDay(DayOf(cursor), cursor, close);
    NothingToMeasure(close, next);
    MeasureSplit(at, cursor, close);
    MeasureSplit(at, close, next);
  }

  /** Inside the window that is long enough the rest is counted off from the cursor. */
  lemma LastStretch(at: int, cursor: int, d: real, remaining: real)
    requires at <= cursor && Working(cursor) && 0.0 < remaining <= (Closes(DayOf(cursor)) - cursor) as real
    requires Measure(at, cursor) as real + remaining == d
    ensures IsDueAfter(at, d, Truncated(cursor as real + remaining))
  {
    hide Measure, Weekday;
    var t := cursor + remaining.Floor;
    WindowIsWorking(cursor);
    MeasureSplit(at, cursor, t);
    MeasureWithinDay(DayOf(cursor), cursor, t);
    assert d.Floor == Measure(at, cursor) + remaining.Floor;
    if remaining == remaining.Floor as real {
      assert DayOf(t - 1) == DayOf(cursor);
      assert Truncated(t as real) == t;
    } else {
      assert DayOf(t) == DayOf(cursor) && Working(t);
    }
  }

  method WorkingMilliseconds(from: int, to: int) returns (sum: int)
    ensures sum == Measure(from, to)
  {
    if to <= from { return 0; }
    var day := DayOf(from);
    sum := 0;
    while day <= DayOf(to)
      invariant DayOf(from) <= day <= DayOf(to) + 1
      invariant sum == Measure(from, Max(from, Min(to, DayStart(day))))
      decreases DayOf(to) + 1 - day
    {
      var a, b := Max(from, DayStart(day)), Min(to, DayStart(day + 1));
      MeasureWithinDay(day, a, b);
      MeasureSplit(from, a, b);
      if Weekday(day) {
        sum := sum + Max(0, Min(to, Closes(day)) - Max(from, Opens(day)));
      }
      day := day + 1;
    }
  }

  // ----- Adjunction ---------------------------------------------------------

  /** The working time from `at` to t reaches ms exactly when t has reached the due instant. */
  lemma DueIsAdjoint(at: int, ms: int, due: int, t: int)
    requires 0 < ms && IsDue(at, ms, due)
    ensures Measure(at, t) >= ms <==> t >= due
  {
    if t >= due {
      MeasureMonotone(at, at, t, due);
    } else {
      MeasureMonotone(at, at, due - 1, t);
    }
  }

  /** A duration of no whole number of milliseconds is exceeded exactly after its due instant; before 1970, where
    * truncation rounds up, from its due instant on. */
  lemma FractionIsAdjoint(at: int, d: real, due: int, t: int)
    requires 0.0 <= d && d != d.Floor as real && IsDueAfter(at, d, due)
    ensures Measure(at, t) as real > d <==> if due > 0 then t > due else t >= due
  {
    var tick :| at <= tick && Working(tick) && Measure(at, tick) == d.Floor
                && due == Truncated(tick as real + (d - d.Floor as real));
    assert due == if tick >= 0 then tick else tick + 1;
    assert !Working(0) && !Working(-1);
    if t > tick { MeasureMonotone(at, at, t, tick + 1); } else { MeasureMonotone(at, at, tick, t); }
  }

  /** So there is at most one due instant ... */
  lemma DueIsUnique(at: int, ms: int, due: int, due': int)
    requires 0 <= ms && IsDue(at, ms, due) && IsDue(at, ms, due')
    ensures due == due'
  {
    if 0 < ms {
      DueIsAdjoint(at, ms, due, due');
      DueIsAdjoint(at, ms, due', due);
    }
  }

  /** ... and it falls strictly after the opening and no later than the closing of a weekday. */
  lemma DueLiesInAWindow(at: int, ms: int, due: int)
    requires 0 < ms && IsDue(at, ms, due)
    ensures exists day :: Weekday(day) && Opens(day) < due <= Closes(day)
  {
    assert Weekday(DayOf(due - 1)) && Opens(DayOf(due - 1)) < due <= Closes(DayOf(due - 1));
  }

  /** Durations compose: x and then y from there is x + y from the start. */
  lemma DueComposes(a: int, x: int, b: int, y: int, c: int)
    requires 0 <= x && 0 <= y && IsDue(a, x, b) && IsDue(b, y, c)
    ensures IsDue(a, x + y, c)
  {
    if 0 < x && 0 < y { MeasureSplit(a, b, c); }
  }

  /** Monotone in the start and in the duration. */
  lemma DueIsMonotone(a: int, x: int, due: int, a': int, x': int, due': int)
    requires a <= a' && 0 < x <= x' && IsDue(a, x, due) && IsDue(a', x', due')
    ensures due <= due'
  {
    MeasureMonotone(a, a', due', due');
    DueIsAdjoint(a, x, due, due');
  }

  // ----- The due instant as a function --------------------------------------

  function NextWorking(at: int): (r: int)
    ensures IsNextWorking(at, r)
  {
    var day := DayOf(at);
    var d := if at < Closes(day) then WeekdayFrom(day) else WeekdayFrom(day + 1);
    assert DayOf(Max(at, Opens(d))) == d;
    assert forall t :: at <= t < Max(at, Opens(d)) ==> !Working(t) by {
      forall t | at <= t < Max(at, Opens(d)) ensures !Working(t) {
        assert day <= DayOf(t) <= d;
      }
    }
    Max(at, Opens(d))
  }

  /** A due instant exists for every start and duration: tick through working milliseconds. */
  lemma {:induction false} DueExists(at: int, ms: nat)
    ensures exists r :: IsDue(at, ms, r)
  {
    if ms == 0 {
      assert IsDue(at, ms, at);
    } else {
      DueExists(at, ms - 1);
      var before :| IsDue(at, ms - 1, before);
      var tick := NextWorking(before);
      NothingToMeasure(before, tick);
      MeasureSplit(at, before, tick);
      assert IsDue(at, ms, tick + 1);
    }
  }

  ghost function DueAt(at: int, ms: nat): (r: int)
    ensures IsDue(at, ms, r)
  {
    DueExists(at, ms);
    var r :| IsDue(at, ms, r);
    r
  }

  /** Adding x and then y working milliseconds is adding x + y. */
  lemma DueAtComposes(a: int, x: nat, y: nat)
    ensures DueAt(DueAt(a, x), y) == DueAt(a, x + y)
  {
    DueComposes(a, x, DueAt(a, x), y, DueAt(DueAt(a, x), y));
    DueIsUnique(a, x + y, DueAt(DueAt(a, x), y), DueAt(a, x + y));
  }

  // ----- What the policy reads off the two clocks ---------------------------

  const ANSWER_MS: int := 86_400_000
  const PREPARATION_MS: int := 79_200_000
  const GRACE_MS: int := 7_200_000

  /** The late-project warning compares two due instants; it appears exactly when more than
    * two working hours passed between registration and assignment. */
  lemma LateProjectWarning(createdAt: int, deadlineAt: int, assignedAt: int, preparationDueAt: int)
    requires createdAt <= assignedAt
    requires IsDue(createdAt, ANSWER_MS, deadlineAt) && IsDue(assignedAt, PREPARATION_MS, preparationDueAt)
    ensures preparationDueAt > deadlineAt <==> Measure(createdAt, assignedAt) > GRACE_MS
  {
    if deadlineAt < assignedAt {
      MeasureMonotone(createdAt, createdAt, assignedAt, deadlineAt);
    } else {
      MeasureSplit(createdAt, assignedAt, deadlineAt);
      DueIsAdjoint(assignedAt, PREPARATION_MS, preparationDueAt, deadlineAt);
    }
  }

  /** Working time past the deadline is positive exactly when more than 24 working hours
    * passed since registration. */
  lemma OverdueAtDelivery(createdAt: int, deadlineAt: int, deliveredAt: int)
    requires IsDue(createdAt, ANSWER_MS, deadlineAt)
    ensures Measure(deadlineAt, deliveredAt) > 0 <==> Measure(createdAt, deliveredAt) > ANSWER_MS
  {
    if deliveredAt >= deadlineAt {
      MeasureSplit(createdAt, deadlineAt, deliveredAt);
    } else {
      MeasureMonotone(createdAt, createdAt, deadlineAt, deliveredAt);
    }
  }
}
