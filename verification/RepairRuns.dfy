/** Whole runs in which every photo repair is its two statements, with anything that does not wait for the answer
  * lock in between: when they keep what the workflow promises. */
module RepairRuns {
  import opened Incident
  import opened IncidentInvariants
  import opened Workflow
  import opened WorkflowSafety
  import opened WorkflowGuarantees
  import opened RepairRace
  import opened Wrappers

  /** What a repair has read and not written yet. */
  datatype OpenRepair = OpenRepair(seen: Case, key: JobKey)

  /** `repairs` holds the repair that has each incident's answer lock. */
  datatype Split = Split(w: World, repairs: map<nat, OpenRepair>)

  datatype Act = Whole(e: Event) | ReadRepair(id: nat, from: Option<nat>, key: JobKey) | WriteRepair(id: nat) | DropRepair(id: nat)

  /** A transaction that takes the answer lock waits while a repair of its incident holds it. */
  predicate Waits(x: Split, e: Event) {
    TakesAnswerLock(e) && Subject(x.w, e).Some? && Subject(x.w, e).value in x.repairs
  }

  function Begun(x: Split, id: nat, from: Option<nat>, key: JobKey): Split {
    if id in x.repairs || id !in x.w.cases || RepairPhoto(x.w.cases[id], from, key, x.w.now).Refused? then x
    else x.(repairs := x.repairs[id := OpenRepair(x.w.cases[id], key)])
  }

  predicate CanWrite(x: Split, id: nat) { id in x.repairs && id in x.w.cases && x.repairs[id].seen.answers != [] }

  function WriteOf(x: Split, id: nat): Step
    requires CanWrite(x, id)
  {
    RepairWrite(x.w.cases[id], x.repairs[id].seen, x.repairs[id].key, x.w.now)
  }

  function Written(x: Split, id: nat): Split {
    var done := x.(repairs := x.repairs - {id});
    if CanWrite(x, id) && WriteOf(x, id).Done? then done.(w := Store(x.w, None, id, WriteOf(x, id).c)) else done
  }

  ghost function Next(x: Split, a: Act): Split {
    match a
    case Whole(e) => if Waits(x, e) then x else x.(w := Apply(x.w, e))
    case ReadRepair(id, from, key) => Begun(x, id, from, key)
    case WriteRepair(id) => Written(x, id)
    case DropRepair(id) => x.(repairs := x.repairs - {id})
  }

  ghost function Runs(x: Split, acts: seq<Act>): Split {
    if acts == [] then x else Next(Runs(x, acts[..|acts| - 1]), acts[|acts| - 1])
  }

  const Begin: Split := Split(Start, map[])

  /** A write that finds the incident delivered, or the version it read neither the latest nor followed by one that
    * was sent back: what a guard of the update could refuse. */
  predicate Unsafe(x: Split, a: Act) {
    a.WriteRepair? && CanWrite(x, a.id) && WriteOf(x, a.id).Done? && !StillRepairable(x.w.cases[a.id], x.repairs[a.id].seen)
  }

  ghost predicate AllSafe(x: Split, acts: seq<Act>) {
    forall n :: 0 <= n < |acts| ==> !Unsafe(Runs(x, acts[..n]), acts[n])
  }

  // ----- The invariant ------------------------------------------------------

  predicate HeldOk(p: OpenRepair, c: Case) {
    p.seen.answers != [] && AnswersInv(p.seen) && Evolves(p.seen, c) && Between(c)
  }

  ghost predicate SplitInv(x: Split) {
    WorldInv(x.w) && forall id :: id in x.repairs ==> id in x.w.cases && HeldOk(x.repairs[id], x.w.cases[id])
  }

  lemma HeldStays(x: Split, e: Event, id: nat)
    requires SplitInv(x) && !Waits(x, e) && id in x.repairs
    requires Follows(x.w, Apply(x.w, e))
    ensures id in Apply(x.w, e).cases && HeldOk(x.repairs[id], Apply(x.w, e).cases[id])
  {
    hide WorldInv, Apply, StepOf, Evolves, AnswersInv, TakesAnswerLock, Subject;
    var c := x.w.cases[id];
    OnlyItsIncident(x.w, e, id);
    assert FollowsAt(x.w, Apply(x.w, e), id);
    EvolvesIsTransitive(x.repairs[id].seen, c, Apply(x.w, e).cases[id]);
    if Subject(x.w, e) == Some(id) { StepStaysBetween(x.w, e, id); }
  }

  lemma WholeInv(x: Split, e: Event)
    requires SplitInv(x)
    ensures SplitInv(Next(x, Whole(e))) && Follows(x.w, Next(x, Whole(e)).w)
  {
    hide WorldInv, Apply, HeldOk, Follows, Waits;
    Unchanged(x.w);
    if !Waits(x, e) {
      ApplyInv(x.w, e);
      forall id | id in x.repairs ensures id in Apply(x.w, e).cases && HeldOk(x.repairs[id], Apply(x.w, e).cases[id]) {
        HeldStays(x, e, id);
      }
    }
  }

  lemma BegunInv(x: Split, id: nat, from: Option<nat>, key: JobKey)
    requires SplitInv(x)
    ensures SplitInv(Begun(x, id, from, key)) && Follows(x.w, Begun(x, id, from, key).w)
  {
    hide OneHolder, ReadsInv, Follows, Latest, SetAnswer;
    Unchanged(x.w);
    if Begun(x, id, from, key) != x { SameEvolves(x.w.cases[id]); }
  }

  /** A repair's write stores a good step like any other transaction. */
  lemma StoredWrite(w: World, id: nat, c': Case)
    requires WorldInv(w) && id in w.cases && Good(w.cases[id], Done(c'), w.now) && c'.status == RevisionRequired
    ensures WorldInv(Store(w, None, id, c')) && Follows(w, Store(w, None, id, c'))
  {
    hide Inv, Edge, LeasesKept, Evolves;
    UpdateKeepsOneHolder(w, id, c');
    UpdateReads(w, id, c');
    UpdateFollows(w, id, c');
    UpdateCases(w, id, c');
    StoringKeeps(w, None, id, c');
  }

  lemma WriteIs(c: Case, seen: Case, key: JobKey, now: int)
    requires seen.answers != [] && RepairWrite(c, seen, key, now).Done?
    ensures RepairWrite(c, seen, key, now).c.status == RevisionRequired
  {
    hide SetStatus;
  }

  lemma WrittenStep(x: Split, id: nat)
    requires SplitInv(x) && CanWrite(x, id) && WriteOf(x, id).Done?
    ensures StillRepairable(x.w.cases[id], x.repairs[id].seen) ==> Good(x.w.cases[id], WriteOf(x, id), x.w.now)
    ensures !StillRepairable(x.w.cases[id], x.repairs[id].seen) ==> !Inv(WriteOf(x, id).c, x.w.now)
  {
    hide OneHolder, ReadsInv, Inv, Good, RepairWrite, Evolves;
    var c, p := x.w.cases[id], x.repairs[id];
    assert Inv(c, x.w.now);
    var n := SeenRow(c, p.seen, x.w.now);
    if StillRepairable(c, p.seen) { SafeWrite(c, p.seen, n, p.key, x.w.now); } else { UnsafeWrite(c, p.seen, n, p.key, x.w.now); }
  }

  lemma WrittenInv(x: Split, id: nat)
    requires SplitInv(x) && !Unsafe(x, WriteRepair(id))
    ensures SplitInv(Written(x, id)) && Follows(x.w, Written(x, id).w)
  {
    hide WorldInv, Follows, Good, HeldOk, RepairWrite, StillRepairable;
    Unchanged(x.w);
    if CanWrite(x, id) && WriteOf(x, id).Done? {
      WrittenStep(x, id);
      WriteIs(x.w.cases[id], x.repairs[id].seen, x.repairs[id].key, x.w.now);
      StoredWrite(x.w, id, WriteOf(x, id).c);
    }
  }

  /** One act keeps the invariant exactly when it is not an unsafe write. */
  lemma StepKeepsIff(x: Split, a: Act)
    requires SplitInv(x)
    ensures SplitInv(Next(x, a)) <==> !Unsafe(x, a)
    ensures !Unsafe(x, a) ==> Follows(x.w, Next(x, a).w)
  {
    hide SplitInv, Unsafe, Follows, Apply, Begun, Written;
    if Unsafe(x, a) {
      UnsafeBreaks(x, a);
    } else {
      match a {
        case Whole(e) => WholeInv(x, e);
        case ReadRepair(id, from, key) => BegunInv(x, id, from, key);
        case WriteRepair(id) => WrittenInv(x, id);
        case DropRepair(id) => DropInv(x, id);
      }
      NotUnsafe(x, a);
    }
  }

  lemma NotUnsafe(x: Split, a: Act)
    ensures !a.WriteRepair? ==> !Unsafe(x, a)
  {
  }

  lemma DropInv(x: Split, id: nat)
    requires SplitInv(x)
    ensures SplitInv(x.(repairs := x.repairs - {id})) && Follows(x.w, x.w)
  {
    hide WorldInv, HeldOk, Follows;
    Unchanged(x.w);
  }

  lemma UnsafeBreaks(x: Split, a: Act)
    requires SplitInv(x) && Unsafe(x, a)
    ensures !SplitInv(Next(x, a))
  {
    hide OneHolder, ReadsInv, Inv, RepairWrite, StillRepairable, HeldOk;
    WrittenStep(x, a.id);
    assert Next(x, a).w.cases[a.id] == WriteOf(x, a.id).c;
  }

  // ----- Every run ----------------------------------------------------------

  lemma {:induction false} SafeRunInv(x: Split, acts: seq<Act>)
    requires SplitInv(x) && AllSafe(x, acts)
    ensures SplitInv(Runs(x, acts)) && Follows(x.w, Runs(x, acts).w)
  {
    hide Next, Unsafe, WorldInv, HeldOk, Evolves;
    if acts == [] {
      Unchanged(x.w);
    } else {
      var front := acts[..|acts| - 1];
      forall n | 0 <= n < |front| ensures !Unsafe(Runs(x, front[..n]), front[n]) {
        assert front[..n] == acts[..n] && front[n] == acts[n];
      }
      SafeRunInv(x, front);
      var mid, last := Runs(x, front), Runs(x, acts);
      assert acts[..|acts| - 1] == front;
      StepKeepsIff(mid, acts[|acts| - 1]);
      forall id | id in x.w.cases ensures FollowsAt(x.w, last.w, id) {
        assert FollowsAt(x.w, mid.w, id) && FollowsAt(mid.w, last.w, id);
        EvolvesIsTransitive(x.w.cases[id], mid.w.cases[id], last.w.cases[id]);
      }
    }
  }

  lemma BeginInv()
    ensures SplitInv(Begin)
  {
  }

  /** Over any run from the start in which every repair's write is safe, the whole invariant of the workflow holds,
    * and once an answer is delivered it stays the one delivered answer, whatever safe run follows. */
  lemma DeliveredForeverUnderSplitRepairs(before: seq<Act>, more: seq<Act>, id: nat, i: nat)
    requires AllSafe(Begin, before) && AllSafe(Runs(Begin, before), more)
    requires var w := Runs(Begin, before).w; id in w.cases && i < |w.cases[id].answers| && DeliveredAt(w.cases[id].answers, i)
    ensures var w, w' := Runs(Begin, before).w, Runs(Runs(Begin, before), more).w;
            && WorldInv(w) && WorldInv(w') && id in w'.cases
            && var c, c' := w.cases[id], w'.cases[id];
               DeliveredOnce(c) && DeliveredOnce(c') && c'.answers == c.answers && i == |c.answers| - 1
               && c'.sent == c.sent && c'.slaDeliveredAt == c.slaDeliveredAt && c'.overdue == c.overdue && c'.cycles == c.cycles
  {
    hide Runs, AllSafe, DeliveredOnce;
    BeginInv();
    SafeRunInv(Begin, before);
    var x := Runs(Begin, before);
    SafeRunInv(x, more);
    DeliveredStays(x.w, Runs(x, more).w, id, i);
  }

  lemma DeliveredStays(w: World, w': World, id: nat, i: nat)
    requires WorldInv(w) && WorldInv(w') && Follows(w, w')
    requires id in w.cases && i < |w.cases[id].answers| && DeliveredAt(w.cases[id].answers, i)
    ensures id in w'.cases
    ensures var c, c' := w.cases[id], w'.cases[id];
            DeliveredOnce(c) && DeliveredOnce(c') && c'.answers == c.answers && i == |c.answers| - 1
            && c'.sent == c.sent && c'.slaDeliveredAt == c.slaDeliveredAt && c'.overdue == c.overdue && c'.cycles == c.cycles
  {
    assert AnswerOk(w.cases[id].answers, i);
    DeliveredIsOnce(w.cases[id], w.now);
    assert FollowsAt(w, w', id);
    DeliveredIsOnce(w'.cases[id], w'.now);
  }
}
