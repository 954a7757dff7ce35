/** Which deletion intents a sweep examines (src/retention/file-deletions.ts:35-49): the hundred with the
  * oldest stamps, each stamped anew when it is examined. */
module FileRotation {

  const BATCH: nat := 100

  /** Order of the query: by stamp, then by key. */
  predicate Before(stamps: map<nat, int>, a: nat, b: nat)
    requires a in stamps && b in stamps
  {
    stamps[a] < stamps[b] || (stamps[a] == stamps[b] && a < b)
  }

  /** The first rows of the query: what a sweep has examined, also one that stops early. */
  predicate IsFront(stamps: map<nat, int>, batch: set<nat>) {
    && batch <= stamps.Keys
    && forall a, b :: a in batch && b in stamps && b !in batch ==> Before(stamps, a, b)
  }

  /** The rows the query returns. */
  predicate IsBatch(stamps: map<nat, int>, batch: set<nat>) {
    IsFront(stamps, batch) && (|batch| == BATCH || (|batch| < BATCH && batch == stamps.Keys))
  }

  /** Rows after a sweep in which some stamps could not be written: those and the rows outside the batch stay as old
    * as they were, the others inside are stamped by the sweep or gone, and rows queued meanwhile are stamped no
    * earlier than the sweep began. */
  predicate SweptBut(stamps: map<nat, int>, batch: set<nat>, failed: set<nat>, at: int, stamps': map<nat, int>) {
    && failed <= batch
    && (forall k :: k in stamps && (k !in batch || k in failed) ==> k in stamps' && stamps'[k] == stamps[k])
    && (forall k :: k in stamps' && ((k in batch && k !in failed) || k !in stamps) ==> stamps'[k] >= at)
  }

  /** Rows after a sweep that stamped its whole batch. */
  predicate Swept(stamps: map<nat, int>, batch: set<nat>, at: int, stamps': map<nat, int>) {
    SweptBut(stamps, batch, {}, at, stamps')
  }

  /** A run of sweeps: the i-th starts at rows[i], examines batches[i] at times[i] and leaves rows[i + 1]. */
  predicate Sweeps(rows: seq<map<nat, int>>, batches: seq<set<nat>>, times: seq<int>) {
    && |rows| == |batches| + 1 && |times| == |batches|
    && forall i :: 0 <= i < |batches| ==> IsBatch(rows[i], batches[i]) && Swept(rows[i], batches[i], times[i], rows[i + 1])
  }

  /** No sweep is timed at or before one of these stamps. */
  predicate ClockAhead(stamps: map<nat, int>, times: seq<int>) {
    forall i, k :: 0 <= i < |times| && k in stamps ==> stamps[k] < times[i]
  }

  function Examined(batches: seq<set<nat>>): set<nat> {
    if batches == [] then {} else Examined(batches[..|batches| - 1]) + batches[|batches| - 1]
  }

  /** How many rows come before this one. */
  ghost function Rank(stamps: map<nat, int>, k: nat): nat
    requires k in stamps
  {
    |set a | a in stamps && Before(stamps, a, k)|
  }

  // ----- Sweeps take rows in rank order -------------------------------------

  /** Of the first rows, the unexamined still carry their stamps; every other row is stamped later. */
  predicate Progress(first: map<nat, int>, examined: set<nat>, rows: map<nat, int>, floor: int) {
    && (forall k :: k in first && k !in examined ==> k in rows && rows[k] == first[k])
    && (forall k :: k in rows && (k !in first || k in examined) ==> rows[k] >= floor)
  }

  /** The examined rows of the first ones are those of lowest rank. */
  predicate DownClosed(first: map<nat, int>, examined: set<nat>) {
    forall a, k :: a in first && k in first && Before(first, a, k) && k in examined ==> a in examined
  }

  lemma BatchTakesEarlier(rows: map<nat, int>, batch: set<nat>, a: nat, k: nat)
    requires IsBatch(rows, batch) && k in batch && a in rows && k in rows && Before(rows, a, k)
    ensures a in batch
  {
  }

  /** One sweep examines the hundred rows next in rank that were not examined yet, or all that are left. */
  lemma SweepProgress(first: map<nat, int>, examined: set<nat>, rows: map<nat, int>, batch: set<nat>, at: int,
      rows': map<nat, int>, floor: int)
    requires Progress(first, examined, rows, floor) && IsBatch(rows, batch) && Swept(rows, batch, at, rows') && floor <= at
    requires DownClosed(first, examined) && forall k :: k in first ==> first[k] < floor
    ensures Progress(first, examined + batch, rows', floor) && DownClosed(first, examined + batch)
    ensures var waiting := |first.Keys - examined|;
            |first.Keys - (examined + batch)| == if waiting > BATCH then waiting - BATCH else 0
  {
    var waiting := first.Keys - examined;
    assert first.Keys - (examined + batch) == waiting - batch;
    if waiting <= batch {
      assert waiting - batch == {};
      Included(waiting, batch);
    } else {
      var left :| left in waiting && left !in batch;
      forall k | k in batch ensures k in waiting { assert Before(rows, k, left); }
      Included(batch, waiting);
      assert |waiting - batch| == |waiting| - |batch|;
    }
    forall a, k | a in first && k in first && Before(first, a, k) && k in examined + batch ensures a in examined + batch {
      if k in batch && a !in examined { BatchTakesEarlier(rows, batch, a, k); }
    }
  }

  lemma Included<T>(a: set<T>, b: set<T>)
    requires a <= b
    ensures |a| <= |b| && (|a| == |b| ==> a == b)
  {
    assert b == a + (b - a);
    if |a| == |b| { assert b - a == {}; }
  }

  lemma {:induction false} SweepsProgress(rows: seq<map<nat, int>>, batches: seq<set<nat>>, times: seq<int>, floor: int, n: nat)
    requires Sweeps(rows, batches, times) && n <= |batches|
    requires forall i :: 0 <= i < |times| ==> floor <= times[i]
    requires forall k :: k in rows[0] ==> rows[0][k] < floor
    ensures Progress(rows[0], Examined(batches[..n]), rows[n], floor) && DownClosed(rows[0], Examined(batches[..n]))
    ensures |rows[0].Keys - Examined(batches[..n])| == if |rows[0]| > BATCH * n then |rows[0]| - BATCH * n else 0
  {
    hide IsBatch, Swept;
    if n == 0 {
      assert rows[0].Keys - {} == rows[0].Keys;
    } else {
      hide Progress, DownClosed, Before;
      SweepsProgress(rows, batches, times, floor, n - 1);
      SweepProgress(rows[0], Examined(batches[..n - 1]), rows[n - 1], batches[n - 1], times[n - 1], rows[n], floor);
      assert batches[..n][..n - 1] == batches[..n - 1];
    }
  }

  lemma {:induction false} ClockFloor(stamps: map<nat, int>, times: seq<int>) returns (floor: int)
    requires times != [] && ClockAhead(stamps, times)
    ensures forall i :: 0 <= i < |times| ==> floor <= times[i]
    ensures forall k :: k in stamps ==> stamps[k] < floor
  {
    floor := times[0];
    for i := 1 to |times|
      invariant forall j :: 0 <= j < i ==> floor <= times[j]
      invariant forall k :: k in stamps ==> stamps[k] < floor
    {
      if times[i] < floor { floor := times[i]; }
    }
  }

  /** In a down-closed set are exactly the rows of rank below its size. */
  lemma MemberByRank(first: map<nat, int>, members: set<nat>, k: nat)
    requires DownClosed(first, members) && members <= first.Keys && k in first
    ensures k in members <==> Rank(first, k) < |members|
  {
    var before := set a | a in first && Before(first, a, k);
    if k in members {
      Included(before + {k}, members);
    } else {
      Included(members, before);
    }
  }

  /** While the clock is ahead of the stamps, a row is examined within m sweeps exactly when fewer than 100 m rows
    * come before it, whatever is queued or removed meanwhile. */
  lemma ExaminedByRank(rows: seq<map<nat, int>>, batches: seq<set<nat>>, times: seq<int>, k: nat)
    requires Sweeps(rows, batches, times) && ClockAhead(rows[0], times) && k in rows[0]
    ensures k in Examined(batches) <==> Rank(rows[0], k) < BATCH * |batches|
  {
    var first := rows[0];
    if batches != [] {
      var floor := ClockFloor(first, times);
      SweepsProgress(rows, batches, times, floor, |batches|);
      assert batches[..|batches|] == batches;
      var members := first.Keys * Examined(batches);
      MemberByRank(first, members, k);
      assert first.Keys - Examined(batches) == first.Keys - members;
      assert |first.Keys - members| == |first| - |members|;
      RankIsBelowSize(first, k);
    }
  }

  lemma RankIsBelowSize(first: map<nat, int>, k: nat)
    requires k in first
    ensures Rank(first, k) < |first|
  {
    var before := set a | a in first && Before(first, a, k);
    Included(before + {k}, first.Keys);
  }

  /** So n rows are all examined within ceil(n / 100) sweeps. */
  lemma RotationExaminesAll(rows: seq<map<nat, int>>, batches: seq<set<nat>>, times: seq<int>)
    requires Sweeps(rows, batches, times) && ClockAhead(rows[0], times)
    requires |batches| >= (|rows[0]| + BATCH - 1) / BATCH
    ensures rows[0].Keys <= Examined(batches)
  {
    forall k | k in rows[0].Keys ensures k in Examined(batches) {
      ExaminedByRank(rows, batches, times, k);
      RankIsBelowSize(rows[0], k);
    }
  }

  // ----- Stamps that could not be written -----------------------------------

  /** A run of sweeps that may stop early and fail to write stamps. */
  predicate FaultySweeps(rows: seq<map<nat, int>>, batches: seq<set<nat>>, failed: seq<set<nat>>, times: seq<int>) {
    && |rows| == |batches| + 1 && |times| == |batches| && |failed| == |batches|
    && forall i :: 0 <= i < |batches| ==>
         IsFront(rows[i], batches[i]) && SweptBut(rows[i], batches[i], failed[i], times[i], rows[i + 1])
  }

  function Sizes(sets: seq<set<nat>>): nat {
    if sets == [] then 0 else Sizes(sets[..|sets| - 1]) + |sets[|sets| - 1]|
  }

  /** `kept` are the first rows that were examined and still carry their old stamps. */
  predicate Carrying(first: map<nat, int>, examined: set<nat>, kept: set<nat>, rows: map<nat, int>, floor: int) {
    && kept <= first.Keys && kept <= examined
    && (forall k :: k in first && (k !in examined || k in kept) ==> k in rows && rows[k] == first[k])
    && (forall k :: k in rows && (k !in first || (k in examined && k !in kept)) ==> rows[k] >= floor)
  }

  function StillKept(first: map<nat, int>, examined: set<nat>, kept: set<nat>, batch: set<nat>, failed: set<nat>): set<nat> {
    (kept - batch) + (failed * ((first.Keys - examined) + kept))
  }

  lemma InQuery(stamps: map<nat, int>, batch: set<nat>)
    requires IsFront(stamps, batch)
    ensures batch <= stamps.Keys
  {
  }

  lemma FaultyKeeps(first: map<nat, int>, examined: set<nat>, kept: set<nat>, rows: map<nat, int>, batch: set<nat>,
      failed: set<nat>, at: int, rows': map<nat, int>, floor: int)
    requires Carrying(first, examined, kept, rows, floor) && SweptBut(rows, batch, failed, at, rows') && floor <= at && batch <= rows.Keys
    ensures Carrying(first, examined + batch, StillKept(first, examined, kept, batch, failed), rows', floor)
  {
  }

  /** As long as rows are left, a sweep brings the unexamined and the kept rows down by its own size, but for the
    * stamps it could not write. */
  lemma FaultyCount(first: map<nat, int>, examined: set<nat>, kept: set<nat>, rows: map<nat, int>, batch: set<nat>,
      failed: set<nat>, floor: int)
    requires Carrying(first, examined, kept, rows, floor) && IsFront(rows, batch)
    requires forall k :: k in first ==> first[k] < floor
    requires !(first.Keys <= examined + batch)
    ensures |first.Keys - (examined + batch)| + |StillKept(first, examined, kept, batch, failed)| + |batch|
         <= |first.Keys - examined| + |kept| + |failed|
  {
    var waiting := first.Keys - examined;
    var left :| left in waiting && left !in batch;
    forall k | k in batch ensures k in waiting + kept { assert Before(rows, k, left); }
    assert first.Keys - (examined + batch) == waiting - batch;
    assert batch == (batch * waiting) + (batch * kept);
    assert |batch| == |batch * waiting| + |batch * kept|;
    assert |waiting - batch| == |waiting| - |batch * waiting| by { assert waiting == (waiting - batch) + (batch * waiting); }
    assert |kept - batch| == |kept| - |batch * kept| by { assert kept == (kept - batch) + (batch * kept); }
    Included(failed * (waiting + kept), failed);
    UnionSize(kept - batch, failed * (waiting + kept));
  }

  lemma UnionSize(a: set<nat>, b: set<nat>)
    ensures |a + b| <= |a| + |b|
  {
    assert a + b == a + (b - a);
    Included(b - a, b);
  }

  /** Either all first rows are examined, or those left and those kept are within a number. */
  predicate WithinLeft(first: map<nat, int>, examined: set<nat>, kept: set<nat>, number: int) {
    first.Keys <= examined || |first.Keys - examined| + |kept| <= number
  }

  lemma FaultyStep(first: map<nat, int>, examined: set<nat>, kept: set<nat>, rows: map<nat, int>, batch: set<nat>,
      failed: set<nat>, at: int, rows': map<nat, int>, floor: int, number: int)
    requires Carrying(first, examined, kept, rows, floor) && IsFront(rows, batch) && SweptBut(rows, batch, failed, at, rows')
    requires floor <= at && (forall k :: k in first ==> first[k] < floor) && WithinLeft(first, examined, kept, number)
    ensures var kept' := StillKept(first, examined, kept, batch, failed);
            Carrying(first, examined + batch, kept', rows', floor)
            && WithinLeft(first, examined + batch, kept', number + |failed| - |batch|)
  {
    hide Carrying, SweptBut, StillKept;
    InQuery(rows, batch);
    FaultyKeeps(first, examined, kept, rows, batch, failed, at, rows', floor);
    if !(first.Keys <= examined + batch) { FaultyCount(first, examined, kept, rows, batch, failed, floor); }
  }

  lemma NothingExamined(first: map<nat, int>, batches: seq<set<nat>>, failed: seq<set<nat>>, floor: int)
    ensures Carrying(first, Examined(batches[..0]), {}, first, floor) && Sizes(batches[..0]) == Sizes(failed[..0]) == 0
    ensures WithinLeft(first, Examined(batches[..0]), {}, |first|)
  {
    assert first.Keys - {} == first.Keys;
  }

  lemma LastOf(sets: seq<set<nat>>, n: nat)
    requires 0 < n <= |sets|
    ensures Examined(sets[..n]) == Examined(sets[..n - 1]) + sets[n - 1] && Sizes(sets[..n]) == Sizes(sets[..n - 1]) + |sets[n - 1]|
  {
    assert sets[..n][..n - 1] == sets[..n - 1];
  }

  lemma {:induction false} FaultyProgress(rows: seq<map<nat, int>>, batches: seq<set<nat>>, failed: seq<set<nat>>, times: seq<int>,
      floor: int, n: nat) returns (kept: set<nat>)
    requires FaultySweeps(rows, batches, failed, times) && n <= |batches|
    requires forall i :: 0 <= i < |times| ==> floor <= times[i]
    requires forall k :: k in rows[0] ==> rows[0][k] < floor
    ensures Carrying(rows[0], Examined(batches[..n]), kept, rows[n], floor)
    ensures WithinLeft(rows[0], Examined(batches[..n]), kept, |rows[0]| + Sizes(failed[..n]) - Sizes(batches[..n]))
  {
    hide IsFront, SweptBut, Carrying, StillKept, WithinLeft, Examined, Sizes;
    if n == 0 {
      kept := {};
      NothingExamined(rows[0], batches, failed, floor);
    } else {
      LastOf(batches, n);
      LastOf(failed, n);
      var before := FaultyProgress(rows, batches, failed, times, floor, n - 1);
      var examined, number := Examined(batches[..n - 1]), |rows[0]| + Sizes(failed[..n - 1]) - Sizes(batches[..n - 1]);
      kept := StillKept(rows[0], examined, before, batches[n - 1], failed[n - 1]);
      FaultyStep(rows[0], examined, before, rows[n - 1], batches[n - 1], failed[n - 1], times[n - 1], rows[n], floor, number);
    }
  }

  /** Each stamp that could not be written costs one place in a later sweep, and nothing else: sweeps of any sizes,
    * stopped early or not, have examined all rows once their sizes add up to the rows and the failed stamps. */
  lemma FailedStampsCostOneEach(rows: seq<map<nat, int>>, batches: seq<set<nat>>, failed: seq<set<nat>>, times: seq<int>)
    requires FaultySweeps(rows, batches, failed, times) && ClockAhead(rows[0], times)
    requires Sizes(batches) >= |rows[0]| + Sizes(failed)
    ensures rows[0].Keys <= Examined(batches)
  {
    if batches == [] {
      assert |rows[0].Keys| == 0;
    } else {
      var floor := ClockFloor(rows[0], times);
      var kept := FaultyProgress(rows, batches, failed, times, floor, |batches|);
      assert batches[..|batches|] == batches && failed[..|batches|] == failed;
    }
  }

  /** So n rows and f failed stamps take ceil((n + f) / 100) whole sweeps at most. */
  lemma WholeSweepsWithFailedStamps(rows: seq<map<nat, int>>, batches: seq<set<nat>>, failed: seq<set<nat>>, times: seq<int>)
    requires FaultySweeps(rows, batches, failed, times) && ClockAhead(rows[0], times)
    requires forall i :: 0 <= i < |batches| ==> IsBatch(rows[i], batches[i])
    requires |batches| >= (|rows[0]| + Sizes(failed) + BATCH - 1) / BATCH
    ensures rows[0].Keys <= Examined(batches)
  {
    if i :| 0 <= i < |batches| && batches[i] == rows[i].Keys {
      TakenWhole(rows, batches, failed, times, i);
    } else {
      FullSizes(batches);
      FailedStampsCostOneEach(rows, batches, failed, times);
    }
  }

  lemma {:induction false} FullSizes(batches: seq<set<nat>>)
    requires forall i :: 0 <= i < |batches| ==> |batches[i]| == BATCH
    ensures Sizes(batches) == BATCH * |batches|
  {
    if batches != [] { FullSizes(batches[..|batches| - 1]); }
  }

  /** A sweep that takes every row takes all that were left. */
  lemma TakenWhole(rows: seq<map<nat, int>>, batches: seq<set<nat>>, failed: seq<set<nat>>, times: seq<int>, n: nat)
    requires FaultySweeps(rows, batches, failed, times) && n < |batches| && batches[n] == rows[n].Keys
    ensures rows[0].Keys <= Examined(batches)
  {
    hide IsFront, SweptBut, Examined;
    assert batches[..|batches|] == batches;
    forall k | k in rows[0].Keys ensures k in Examined(batches) {
      StaysOrExamined(rows, batches, failed, times, n, k);
      if k in batches[n] { ExaminedGrows(batches, n + 1, |batches|, k); } else { ExaminedGrows(batches, n, |batches|, k); }
    }
  }

  lemma {:induction false} StaysOrExamined(rows: seq<map<nat, int>>, batches: seq<set<nat>>, failed: seq<set<nat>>, times: seq<int>, n: nat,
      k: nat)
    requires FaultySweeps(rows, batches, failed, times) && n <= |batches| && k in rows[0]
    ensures k in rows[n] || k in Examined(batches[..n])
  {
    if n > 0 {
      StaysOrExamined(rows, batches, failed, times, n - 1, k);
      assert batches[..n][..n - 1] == batches[..n - 1];
    }
  }

  lemma {:induction false} ExaminedGrows(batches: seq<set<nat>>, n: nat, m: nat, k: nat)
    requires n <= m <= |batches| && (k in Examined(batches[..n]) || (n > 0 && k in batches[n - 1]))
    ensures k in Examined(batches[..m])
  {
    if n < m {
      ExaminedGrows(batches, n, m - 1, k);
    }
    if m > 0 { assert batches[..m][..m - 1] == batches[..m - 1]; }
  }

  // ----- A first sweep at the millisecond of a stamp ------------------------

  lemma {:induction false} ExaminedFirst(batches: seq<set<nat>>)
    requires batches != []
    ensures Examined(batches) == batches[0] + Examined(batches[1..])
  {
    if |batches| > 1 {
      ExaminedFirst(batches[..|batches| - 1]);
      assert batches[..|batches| - 1][1..] == batches[1..][..|batches| - 2];
    }
  }

  /** The sweeps after the first one, on the rows it left. */
  lemma LaterSweeps(rows: seq<map<nat, int>>, batches: seq<set<nat>>, times: seq<int>, k: nat)
    requires Sweeps(rows, batches, times) && batches != [] && ClockAhead(rows[1], times[1..]) && k in rows[0]
    ensures k !in batches[0] ==> k in rows[1]
    ensures k in Examined(batches) <==> k in batches[0] || k in Examined(batches[1..])
    ensures k !in batches[0] ==> (k in Examined(batches[1..]) <==> Rank(rows[1], k) < BATCH * (|batches| - 1))
  {
    assert Swept(rows[0], batches[0], times[0], rows[1]);
    ExaminedFirst(batches);
    if k in rows[1] {
      SweepsFrom(rows, batches, times);
      ExaminedByRank(rows[1..], batches[1..], times[1..], k);
    }
  }

  lemma SweepsFrom(rows: seq<map<nat, int>>, batches: seq<set<nat>>, times: seq<int>)
    requires Sweeps(rows, batches, times) && batches != []
    ensures Sweeps(rows[1..], batches[1..], times[1..])
  {
    var later, left, at := rows[1..], batches[1..], times[1..];
    forall i | 0 <= i < |left| ensures IsBatch(later[i], left[i]) && Swept(later[i], left[i], at[i], later[i + 1]) {
      assert IsBatch(rows[i + 1], batches[i + 1]) && Swept(rows[i + 1], batches[i + 1], times[i + 1], rows[i + 2]);
    }
  }

  /** Whatever the stamps at the first sweep: when each later sweep comes after every stamp the first one left, all
    * rows are examined within 1 + ceil(r / 100) sweeps, r the rows after the first. */
  lemma TiedFirstSweepCostsOne(rows: seq<map<nat, int>>, batches: seq<set<nat>>, times: seq<int>)
    requires Sweeps(rows, batches, times) && batches != [] && ClockAhead(rows[1], times[1..])
    requires |batches| >= 1 + (|rows[1]| + BATCH - 1) / BATCH
    ensures rows[0].Keys <= Examined(batches)
  {
    forall k | k in rows[0].Keys ensures k in Examined(batches) {
      LaterSweeps(rows, batches, times, k);
      if k !in batches[0] { RankIsBelowSize(rows[1], k); }
    }
  }

  /** Any smaller number of sweeps, ceil(n / 100) among them, is enough exactly when every row the first sweep did
    * not take is among the next hundreds of the rows it left. */
  lemma SweepsSufficeIff(rows: seq<map<nat, int>>, batches: seq<set<nat>>, times: seq<int>)
    requires Sweeps(rows, batches, times) && batches != [] && ClockAhead(rows[1], times[1..])
    ensures rows[0].Keys <= Examined(batches) <==>
              forall k :: k in rows[0] && k !in batches[0] ==> k in rows[1] && Rank(rows[1], k) < BATCH * (|batches| - 1)
  {
    ExaminedFirst(batches);
    forall k | k in rows[0]
      ensures k in Examined(batches) <==> (k !in batches[0] ==> k in rows[1] && Rank(rows[1], k) < BATCH * (|batches| - 1))
    {
      LaterSweeps(rows, batches, times, k);
    }
  }

  lemma FirstKeys(n: nat) returns (keys: set<nat>)
    ensures |keys| == n && forall k: nat :: k in keys <==> k < n
  {
    keys := {};
    for i := 0 to n
      invariant |keys| == i && forall k: nat :: k in keys <==> k < i
    {
      keys := keys + {i};
    }
  }

  /** The rows of 101 intents of which these hundred were stamped last, at that millisecond. */
  function Stamped(all: set<nat>, hundred: set<nat>, at: int): (rows: map<nat, int>)
    ensures rows.Keys == all
  {
    map k | k in all :: if k in hundred then at else at - 1
  }

  lemma NextHundred(all: set<nat>, stamped: set<nat>, batch: set<nat>, at: int)
    requires stamped <= all && batch <= all && |batch| == BATCH
    requires forall a, b :: a in batch && b in all && b !in batch ==> (b in stamped && (a in stamped ==> a < b)) || (a !in stamped && a < b)
    ensures IsBatch(Stamped(all, stamped, at), batch)
    ensures all == stamped + batch ==> Swept(Stamped(all, stamped, at), batch, at + 1, Stamped(all, batch, at + 1))
  {
  }

  /** The tie that costs the extra sweep: of 101 intents stamped at the millisecond of the first sweep, the last is
    * not examined in two sweeps, though the second comes later; the third finds it. */
  lemma TieMissesTheBound(at: int) returns (rows: seq<map<nat, int>>, batches: seq<set<nat>>, times: seq<int>)
    ensures Sweeps(rows, batches, times) && |batches| == 3 && times == [at, at + 1, at + 2]
    ensures |rows[0]| == BATCH + 1 && (forall k :: k in rows[0] ==> rows[0][k] == times[0]) && ClockAhead(rows[1], times[1..])
    ensures BATCH in rows[0] && BATCH !in Examined(batches[..2]) && BATCH in batches[2]
  {
    hide IsBatch, Swept, Sweeps, Examined;
    var hundred := FirstKeys(BATCH);
    var all := hundred + {BATCH};
    var late := hundred - {BATCH - 1} + {BATCH};
    var tied, second, third := Stamped(all, all, at), Stamped(all, hundred, at + 1), Stamped(all, late, at + 2);
    rows, batches, times := [tied, tied, second, third], [hundred, hundred, late], [at, at + 1, at + 2];
    NextHundred(all, all, hundred, at);
    Restamped(all, hundred, at);
    NextHundred(all, hundred, late, at + 1);
    assert |late| == BATCH;
    assert |tied| == |tied.Keys|;
    ThreeSweeps(rows, batches, times);
    TwoBatches(hundred, late);
  }

  lemma Restamped(all: set<nat>, batch: set<nat>, at: int)
    requires batch <= all
    ensures Swept(Stamped(all, all, at), batch, at, Stamped(all, all, at))
    ensures Swept(Stamped(all, all, at), batch, at + 1, Stamped(all, batch, at + 1))
  {
  }

  lemma ThreeSweeps(rows: seq<map<nat, int>>, batches: seq<set<nat>>, times: seq<int>)
    requires |rows| == 4 && |batches| == 3 && |times| == 3
    requires IsBatch(rows[0], batches[0]) && Swept(rows[0], batches[0], times[0], rows[1])
    requires IsBatch(rows[1], batches[1]) && Swept(rows[1], batches[1], times[1], rows[2])
    requires IsBatch(rows[2], batches[2]) && Swept(rows[2], batches[2], times[2], rows[3])
    ensures Sweeps(rows, batches, times)
  {
    hide IsBatch, Swept;
  }

  lemma TwoBatches(a: set<nat>, b: set<nat>)
    ensures Examined([a, a, b][..2]) == a
  {
    assert [a, a, b][..2] == [a, a] && [a, a][..1] == [a] && [a][..0] == [];
    assert Examined([a]) == Examined([]) + a;
    assert Examined([a, a]) == Examined([a]) + a;
  }
}
