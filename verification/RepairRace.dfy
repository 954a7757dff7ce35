/** The photo repair as two statements. Under READ COMMITTED other transactions commit between its read and its
  * writes, which name rows by id and check nothing but the failed job (src/answers/answer.service.ts). */
module RepairRace {
  import opened Incident
  import opened IncidentInvariants
  import opened AnswerInvariants
  import opened Workflow
  import opened WorkflowSafety
  import opened WorkflowGuarantees
  import opened StageProtection
  import opened Wrappers

  /** `update` by id sets the status column alone. */
  function SetStatus(answers: seq<Answer>, id: nat, status: AnswerStatus): seq<Answer> {
    seq(|answers|, i requires 0 <= i < |answers| => if answers[i].id == id then answers[i].(status := status) else answers[i])
  }

  /** The writes of a repair that read `seen`, on the incident as it is now. */
  function RepairWrite(c: Case, seen: Case, key: JobKey, now: int): Step
    requires seen.answers != []
  {
    if key !in c.jobs || c.jobs[key].status != Failed then Refused(Conflict)
    else
      Done(StaffRefresh(c.(
        jobs := c.jobs[key := c.jobs[key].(superseded := true, error := Superseded)],
        status := RevisionRequired, revisionReason := Some("photo unavailable"), overdue := seen.deadlineAt <= now,
        answers := SetStatus(c.answers, Latest(seen.answers).id, Revision))))
  }

  /** What still has to be true when the writes run: nothing was delivered, and the version read is still the
    * latest, or a later one was itself sent back. */
  predicate StillRepairable(c: Case, seen: Case)
    requires seen.answers != []
  {
    !IsDelivered(c) && c.answers != [] && (Latest(c.answers).id == Latest(seen.answers).id || Last(c, Revision))
  }

  // ----- Without interference -----------------------------------------------

  /** With nothing in between the two statements are the transaction of the workflow. */
  lemma UndisturbedIsRepair(c: Case, from: Option<nat>, key: JobKey, now: int)
    requires Inv(c, now) && RepairPhoto(c, from, key, now).Done?
    ensures RepairWrite(c, c, key, now) == RepairPhoto(c, from, key, now)
  {
    LatestIsLast(c.answers);
    SetLatest(c, Latest(c.answers).(status := Revision));
    OnlyOneRow(c, |c.answers| - 1, Revision);
  }

  lemma OnlyOneRow(c: Case, n: nat, status: AnswerStatus)
    requires AnswersInv(c) && n < |c.answers|
    ensures SetStatus(c.answers, c.answers[n].id, status) == c.answers[n := c.answers[n].(status := status)]
  {
    forall i | 0 <= i < |c.answers| && i != n ensures c.answers[i].id != c.answers[n].id {
      if i < n { assert Differ(c.answers, i, n); } else { assert Differ(c.answers, n, i); }
    }
  }

  // ----- What may happen in between -----------------------------------------

  /** The transactions that wait for the incident's answer lock, which the repair holds. */
  predicate TakesAnswerLock(e: Event) { SectorEvent(e) || e.Repair? }

  /** For the other transactions under that lock one step is the whole truth: while it is held nobody else touches
    * an incident at their stage, except for its jobs. */
  lemma AnswerLockIsolates(w: World, e: Event, id: nat)
    requires Subject(w, e) == Some(id) && id in w.cases && StageInv(w.cases[id])
    requires Submittable(w.cases[id].status) && !TakesAnswerLock(e) && StepOf(w, e, id).Done?
    ensures var c, c' := w.cases[id], StepOf(w, e, id).c; c' == c.(jobs := c'.jobs, purged := c'.purged)
  {
    hide HeldByOther, LiveFor, Editing, Reviews, NextWaiting, ClaimsElsewhere, NextFree, HoldsClaim, Latest, SetAnswer,
         StartAssignment, FinishAssignment, OpenStatus;
  }

  predicate Between(c: Case) { c.status == WaitingReview || c.status == Resolved || c.status == RevisionRequired }

  lemma StepStaysBetween(w: World, e: Event, id: nat)
    requires Subject(w, e) == Some(id) && id in w.cases && Between(w.cases[id]) && !TakesAnswerLock(e)
    ensures StepOf(w, e, id).Done? ==> Between(StepOf(w, e, id).c)
  {
    hide HeldByOther, LiveFor, Editing, Reviews, NextWaiting, ClaimsElsewhere, NextFree, HoldsClaim, Latest, SetAnswer,
         StartAssignment, FinishAssignment, OpenStatus;
  }

  lemma {:induction false} RunStaysBetween(w: World, id: nat, events: seq<Event>)
    requires id in w.cases && Between(w.cases[id])
    requires forall i :: 0 <= i < |events| && TakesAnswerLock(events[i]) ==> Subject(Run(w, events[..i]), events[i]) != Some(id)
    ensures id in Run(w, events).cases && Between(Run(w, events).cases[id])
  {
    hide StepOf, Apply;
    if events != [] {
      var front, e := events[..|events| - 1], events[|events| - 1];
      forall i | 0 <= i < |front| && TakesAnswerLock(front[i]) ensures Subject(Run(w, front[..i]), front[i]) != Some(id) {
        assert front[..i] == events[..i] && front[i] == events[i];
      }
      RunStaysBetween(w, id, front);
      OnlyItsIncident(Run(w, front), e, id);
      if Subject(Run(w, front), e) == Some(id) { StepStaysBetween(Run(w, front), e, id); }
    }
  }

  // ----- Exactly when the writes are safe -----------------------------------

  /** The row the writes hit is a row of the incident still. */
  lemma SeenRow(c: Case, seen: Case, now: int) returns (n: nat)
    requires Inv(c, now) && Evolves(seen, c) && seen.answers != [] && forall i :: 0 <= i < |seen.answers| ==> AnswerOk(seen.answers, i)
    ensures n == |seen.answers| - 1 && n < |c.answers| && c.answers[n].id == Latest(seen.answers).id
    ensures Latest(c.answers) == c.answers[|c.answers| - 1]
    ensures Latest(c.answers).id == Latest(seen.answers).id <==> n == |c.answers| - 1
  {
    n := |seen.answers| - 1;
    LatestIsLast(seen.answers);
    LatestIsLast(c.answers);
    assert SameText(seen.answers, c.answers, n);
    if n < |c.answers| - 1 { assert Differ(c.answers, n, |c.answers| - 1); }
  }

  lemma RepairedRows(c: Case, n: nat, key: JobKey, now: int)
    requires Inv(c, now) && n < |c.answers| && !IsDelivered(c)
    requires key in c.jobs && c.jobs[key].status == Failed
    ensures var rows := c.answers[n := c.answers[n].(status := Revision)];
            var jobs := c.jobs[key := c.jobs[key].(superseded := true, error := Superseded)];
            && AnswerRows(rows) && JobRows(rows, c.requester, jobs) && !LastDelivered(rows)
            && (forall i :: 0 <= i < |rows| ==> SameText(c.answers, rows, i))
  {
    var rows := c.answers[n := c.answers[n].(status := Revision)];
    forall i | 0 <= i < |rows| ensures AnswerOk(rows, i) && SameText(c.answers, rows, i) { assert AnswerOk(c.answers, i); }
    forall i, j | 0 <= i < j < |rows| ensures Differ(rows, i, j) { assert Differ(c.answers, i, j); }
    forall k | k in c.jobs ensures JobOk(rows, c.requester, k, c.jobs[k]) {
      assert JobOk(c.answers, c.requester, k, c.jobs[k]);
      var i :| 0 <= i < |c.answers| && c.answers[i].id == k.answer;
      assert rows[i].id == k.answer;
    }
  }

  /** The incident with the version at n sent back. */
  function SentBackAt(c: Case, n: nat, key: JobKey, overdue: bool): Case
    requires n < |c.answers| && key in c.jobs
  {
    c.(jobs := c.jobs[key := c.jobs[key].(superseded := true, error := Superseded)], status := RevisionRequired, reviewLease := None,
       revisionReason := Some("photo unavailable"), overdue := overdue, answers := c.answers[n := c.answers[n].(status := Revision)])
  }

  lemma SentBackRows(c: Case, n: nat, key: JobKey, overdue: bool, now: int)
    requires Inv(c, now) && Between(c) && n < |c.answers| && key in c.jobs && c.jobs[key].status == Failed
    requires !IsDelivered(c) && (n == |c.answers| - 1 || Last(c, Revision))
    ensures var r := SentBackAt(c, n, key, overdue); StageInv(r) && AnswersInv(r) && JobsInv(r) && DeliveryInv(r) && Evolves(c, r)
  {
    hide CyclesInv, PreparationInv, ClockInv, LeaseInv, AnswerOk, Differ, JobOk;
    RepairedRows(c, n, key, now);
  }

  lemma SentBackClocks(c: Case, n: nat, key: JobKey, overdue: bool, now: int)
    requires Inv(c, now) && Between(c) && n < |c.answers| && key in c.jobs && !IsDelivered(c)
    ensures var r := SentBackAt(c, n, key, overdue);
            CyclesInv(r, now) && PreparationInv(r, now) && ClockInv(r, now) && LeaseInv(r, now) && Edge(c, r) && LeasesKept(c, r, now)
  {
    hide CyclesInv, PreparationInv, ClockInv, LeaseInv, LeasesKept;
    ClocksStay(c, SentBackAt(c, n, key, overdue), now);
  }

  lemma SafeWrite(c: Case, seen: Case, n: nat, key: JobKey, now: int)
    requires Inv(c, now) && Between(c) && seen.answers != [] && n < |c.answers| && c.answers[n].id == Latest(seen.answers).id
    requires RepairWrite(c, seen, key, now).Done? && !IsDelivered(c) && (n == |c.answers| - 1 || Last(c, Revision))
    ensures Good(c, RepairWrite(c, seen, key, now), now)
  {
    hide StageInv, AnswersInv, JobsInv, DeliveryInv, CyclesInv, PreparationInv, ClockInv, LeaseInv, Edge, Evolves, LeasesKept;
    SentBackRows(c, n, key, seen.deadlineAt <= now, now);
    SentBackClocks(c, n, key, seen.deadlineAt <= now, now);
    HasAnswers(c, now);
    OnlyOneRow(c, n, Revision);
    assert RepairWrite(c, seen, key, now) == Done(SentBackAt(c, n, key, seen.deadlineAt <= now));
  }

  /** The rows that result from any other write belong to no incident in revision. */
  lemma BrokenRows(c: Case, n: nat, c': Case)
    requires AnswersInv(c) && n < |c.answers| && !(!IsDelivered(c) && (n == |c.answers| - 1 || Last(c, Revision)))
    requires c'.status == RevisionRequired && c'.answers == c.answers[n := c.answers[n].(status := Revision)]
    ensures !AnswersInv(c')
  {
    var last := |c.answers| - 1;
    assert AnswerOk(c.answers, last);
    if IsDelivered(c) && n == last { assert !AnswerOk(c'.answers, last); } else { assert !Last(c', Revision); }
  }

  lemma WrittenRows(c: Case, seen: Case, n: nat, key: JobKey, now: int)
    requires AnswersInv(c) && seen.answers != [] && n < |c.answers| && c.answers[n].id == Latest(seen.answers).id
    requires RepairWrite(c, seen, key, now).Done?
    ensures var c' := RepairWrite(c, seen, key, now).c;
            c'.status == RevisionRequired && c'.answers == c.answers[n := c.answers[n].(status := Revision)]
  {
    hide AnswersInv;
    OnlyOneRow(c, n, Revision);
  }

  lemma UnsafeWrite(c: Case, seen: Case, n: nat, key: JobKey, now: int)
    requires Inv(c, now) && seen.answers != [] && n < |c.answers| && c.answers[n].id == Latest(seen.answers).id
    requires RepairWrite(c, seen, key, now).Done? && !(!IsDelivered(c) && (n == |c.answers| - 1 || Last(c, Revision)))
    ensures !Inv(RepairWrite(c, seen, key, now).c, now) && !Good(c, RepairWrite(c, seen, key, now), now)
  {
    hide AnswersInv, RepairWrite, IsDelivered, Last, StageInv, JobsInv, DeliveryInv, CyclesInv, PreparationInv, ClockInv, LeaseInv;
    WrittenRows(c, seen, n, key, now);
    BrokenRows(c, n, RepairWrite(c, seen, key, now).c);
  }

  /** Whatever commits between a repair's read and its writes, the writes keep the incident's invariant and make a
    * legal step exactly when nothing was delivered meanwhile and the version read is still the latest, or the later
    * one was sent back too. */
  lemma WritesAreSafeIff(w: World, id: nat, from: Option<nat>, key: JobKey, events: seq<Event>)
    requires Reachable(w) && id in w.cases && RepairPhoto(w.cases[id], from, key, w.now).Done?
    requires forall i :: 0 <= i < |events| && TakesAnswerLock(events[i]) ==> Subject(Run(w, events[..i]), events[i]) != Some(id)
    ensures id in Run(w, events).cases
    ensures var seen, w' := w.cases[id], Run(w, events); var c := w'.cases[id];
            RepairWrite(c, seen, key, w'.now).Done? ==>
              (Good(c, RepairWrite(c, seen, key, w'.now), w'.now) <==> StillRepairable(c, seen))
  {
    hide Inv, Run, Reachable, RepairWrite, Good;
    ReachableInv(w);
    RunInv(w, events);
    RunStaysBetween(w, id, events);
    var seen, w' := w.cases[id], Run(w, events);
    assert FollowsAt(w, w', id);
    assert AnswersInv(seen) by { HasAnswers(seen, w.now); }
    var c := w'.cases[id];
    var n := SeenRow(c, seen, w'.now);
    if RepairWrite(c, seen, key, w'.now).Done? {
      if StillRepairable(c, seen) { SafeWrite(c, seen, n, key, w'.now); } else { UnsafeWrite(c, seen, n, key, w'.now); }
    }
  }

  lemma HasAnswers(c: Case, now: int)
    requires Inv(c, now)
    ensures AnswersInv(c)
  {
  }

  // ----- Runs in which they are not -----------------------------------------

  lemma RunOne(w: World, front: seq<Event>, e: Event)
    ensures Run(w, front + [e]) == Apply(Run(w, front), e)
  {
    hide Apply;
    assert (front + [e])[..|front|] == front;
  }

  lemma RunFour(w: World, a: Event, b: Event, c: Event, d: Event)
    ensures Run(w, [a, b, c, d]) == Apply(Apply(Apply(Apply(w, a), b), c), d)
  {
    hide Apply, Run;
    RunOne(w, [], a);
    RunOne(w, [a], b);
    RunOne(w, [a, b], c);
    RunOne(w, [a, b, c], d);
    assert [] + [a] == [a] && [a] + [b] == [a, b] && [a, b] + [c] == [a, b, c] && [a, b, c] + [d] == [a, b, c, d];
    assert Run(w, []) == w by { EmptyRun(w); }
  }

  lemma EmptyRun(w: World)
    ensures Run(w, []) == w
  {
  }

  /** The answer read in review is approved and delivered before the writes: they send a delivered answer back. */
  lemma DeliveredMeanwhile() returns (w: World, events: seq<Event>)
    ensures Reachable(w) && 1 in w.cases && RepairPhoto(w.cases[1], Some(3), ReviewJob(50), w.now).Done?
    ensures forall i :: 0 <= i < |events| ==> !TakesAnswerLock(events[i])
    ensures 1 in Run(w, events).cases && IsDelivered(Run(w, events).cases[1])
    ensures var w' := Run(w, events); var step := RepairWrite(w'.cases[1], w.cases[1], ReviewJob(50), w'.now);
            && step.Done? && step.c.status == RevisionRequired
            && step.c.answers == [Answer(50, 1, Body("text", [8]), Revision, Some(0))]
  {
    hide Apply, Run, Reachable, StepOf, RepairWrite;
    w := LostPhotoInReview();
    var read, approve := PreRead(3, 1, false), ApproveAnswer(3, 9);
    var claim, complete := JobClaimed(1, AnswerJob(50)), JobCompleted(1, AnswerJob(50), 1, 0);
    events := [read, approve, claim, complete];
    RunFour(w, read, approve, claim, complete);
    var x0 := ReadNow(w, 3);
    var x1 := ApprovedNow(x0);
    var x2 := DeliveredNow(x1);
    WritesOn(x2.cases[1], w.cases[1], 0, x2.now);
  }

  lemma ReadNow(w: World, request: nat) returns (w': World)
    requires 1 in w.cases
    ensures w' == Apply(w, PreRead(request, 1, false)) && w'.cases == w.cases && w'.now == w.now
    ensures request in w'.requests && w'.requests[request] == Read(1, w.cases[1], false)
  {
    w' := Apply(w, PreRead(request, 1, false));
  }

  lemma ApprovedNow(w: World) returns (w': World)
    requires 1 in w.cases && 3 in w.requests && w.requests[3] == Read(1, w.cases[1], false)
    requires var c := w.cases[1]; c.status == WaitingReview && c.reviewLease.None? && c.jobs.Keys == {ReviewJob(50)}
                                  && c.answers == [Answer(50, 1, Body("text", [8]), AwaitingReview, None)]
    ensures w' == Apply(w, ApproveAnswer(3, 9)) && 1 in w'.cases && w'.now == w.now
    ensures var c, c' := w.cases[1], w'.cases[1];
            && c'.status == Resolved && c'.answers == [Answer(50, 1, Body("text", [8]), Approved, None)]
            && c'.jobs == c.jobs[AnswerJob(50) := Job(User(c.requester), Pending, 0, None, NoError, false, false)]
            && c'.requester == c.requester
  {
    hide Apply;
    w' := Apply(w, ApproveAnswer(3, 9));
    OnlyItsIncident(w, ApproveAnswer(3, 9), 1);
    assert StillLatest(w.cases[1], w.cases[1]);
  }

  lemma ClaimedNow(w: World) returns (w': World)
    requires 1 in w.cases && w.now == 0 && AnswerJob(50) in w.cases[1].jobs
    requires w.cases[1].jobs[AnswerJob(50)] == Job(User(w.cases[1].requester), Pending, 0, None, NoError, false, false)
    ensures w' == Apply(w, JobClaimed(1, AnswerJob(50))) && 1 in w'.cases && w'.now == 0
    ensures var sending := Job(User(w.cases[1].requester), Sending, 1, Some(0), NoError, false, false);
            w'.cases[1] == w.cases[1].(jobs := w.cases[1].jobs[AnswerJob(50) := sending])
  {
    hide Apply;
    w' := Apply(w, JobClaimed(1, AnswerJob(50)));
    OnlyItsIncident(w, JobClaimed(1, AnswerJob(50)), 1);
  }

  lemma DeliveredNow(w: World) returns (w': World)
    requires 1 in w.cases && w.now == 0
    requires var c := w.cases[1]; c.status == Resolved && c.answers == [Answer(50, 1, Body("text", [8]), Approved, None)]
    requires AnswerJob(50) in w.cases[1].jobs
    requires w.cases[1].jobs[AnswerJob(50)] == Job(User(w.cases[1].requester), Pending, 0, None, NoError, false, false)
    ensures w' == Apply(Apply(w, JobClaimed(1, AnswerJob(50))), JobCompleted(1, AnswerJob(50), 1, 0)) && 1 in w'.cases && w'.now == 0
    ensures w'.cases[1].answers == [Answer(50, 1, Body("text", [8]), Approved, Some(0))]
    ensures forall k :: k in w.cases[1].jobs && k != AnswerJob(50) ==> k in w'.cases[1].jobs && w'.cases[1].jobs[k] == w.cases[1].jobs[k]
  {
    hide Apply, FinishAssignment;
    var claimed := ClaimedNow(w);
    w' := Apply(claimed, JobCompleted(1, AnswerJob(50), 1, 0));
    OnlyItsIncident(claimed, JobCompleted(1, AnswerJob(50), 1, 0), 1);
  }

  lemma WritesOn(c: Case, seen: Case, n: nat, now: int)
    requires ReviewJob(50) in c.jobs && c.jobs[ReviewJob(50)].status == Failed
    requires seen.answers == [Answer(50, 1, Body("text", [8]), AwaitingReview, None)]
    requires n < |c.answers| && c.answers[n].id == 50 && forall i :: 0 <= i < |c.answers| && i != n ==> c.answers[i].id != 50
    ensures var step := RepairWrite(c, seen, ReviewJob(50), now);
            && step.Done? && step.c.status == RevisionRequired
            && step.c.answers == c.answers[n := c.answers[n].(status := Revision)]
  {
  }

  /** A reviewer saves a correction before the writes: they send back the old version and leave the correction
    * waiting in an incident that is in revision. */
  lemma CorrectedMeanwhile() returns (w: World, events: seq<Event>)
    ensures Reachable(w) && 1 in w.cases && RepairPhoto(w.cases[1], Some(3), ReviewJob(50), w.now).Done?
    ensures forall i :: 0 <= i < |events| ==> !TakesAnswerLock(events[i])
    ensures 1 in Run(w, events).cases
    ensures var w' := Run(w, events); var step := RepairWrite(w'.cases[1], w.cases[1], ReviewJob(50), w'.now);
            && step.Done? && step.c.status == RevisionRequired
            && step.c.answers == [Answer(50, 1, Body("text", [8]), Revision, None),
                                  Answer(51, 2, Body("better", [8]), AwaitingReview, None)]
  {
    hide Apply, Run, Reachable, StepOf, RepairWrite;
    w := LostPhotoInReview();
    var start, begin, save, tick := StartReview(9, 1, true), BeginEdit(9, 1, "better", 100), SaveEdit(9, 51), Tick(0);
    events := [start, begin, save, tick];
    RunFour(w, start, begin, save, tick);
    var x1 := LeasedNow(w);
    var x2 := EditNow(x1);
    var x3 := CorrectedNow(x2);
    var x4 := Apply(x3, tick);
    OnlyItsIncident(x3, tick, 1);
    WritesOn(x4.cases[1], w.cases[1], 0, x4.now);
  }

  lemma LeasedNow(w: World) returns (w': World)
    requires 1 in w.cases && w.cases.Keys == {1} && w.now == 0 && w.cases[1].status == WaitingReview && w.cases[1].reviewLease.None?
    ensures w' == Apply(w, StartReview(9, 1, true)) && 1 in w'.cases && w'.now == 0
    ensures w'.cases[1] == w.cases[1].(reviewLease := Some(Lease(9, 900_000)))
  {
    hide Apply;
    w' := Apply(w, StartReview(9, 1, true));
    OnlyItsIncident(w, StartReview(9, 1, true), 1);
  }

  lemma CorrectedNow(w: World) returns (w': World)
    requires 1 in w.cases && w.now == 0 && w.cases[1].reviewLease == Some(Lease(9, 900_000)) && w.cases[1].status == WaitingReview
    requires w.cases[1].answers == [Answer(50, 1, Body("text", [8]), AwaitingReview, None)]
    requires 9 in w.edits && w.edits[9] == Edit(1, 50, 900_000, "better", 100)
    ensures w' == Apply(w, SaveEdit(9, 51)) && 1 in w'.cases && w'.now == 0
    ensures w'.cases[1].answers == w.cases[1].answers + [Answer(51, 2, Body("better", [8]), AwaitingReview, None)]
    ensures forall k :: k in w.cases[1].jobs ==> k in w'.cases[1].jobs && w'.cases[1].jobs[k] == w.cases[1].jobs[k]
  {
    hide Apply;
    w' := Apply(w, SaveEdit(9, 51));
    OnlyItsIncident(w, SaveEdit(9, 51), 1);
  }

  lemma EditNow(w: World) returns (w': World)
    requires 1 in w.cases && HoldsReview(w.cases[1], 9, w.now)
    requires w.cases[1].answers == [Answer(50, 1, Body("text", [8]), AwaitingReview, None)]
    ensures w' == Apply(w, BeginEdit(9, 1, "better", 100)) && w'.cases == w.cases && w'.now == w.now
    ensures 9 in w'.edits && w'.edits[9] == Edit(1, 50, w.cases[1].reviewLease.value.until, "better", 100)
  {
    w' := Apply(w, BeginEdit(9, 1, "better", 100));
  }
}
