/** Who may change an incident's status while someone holds its stage, and for how long. */
module StageProtection {
  import opened Incident
  import opened IncidentInvariants
  import opened Workflow
  import opened WorkflowSafety
  import opened WorkflowGuarantees
  import opened Wrappers

  /** The member of staff behind an event; sweeps, the outbox and the clock have none. */
  function Actor(e: Event): Option<nat> {
    match e
    case ClaimNext(user, _, _) => Some(user)
    case ReleaseClaim(user, _) => Some(user)
    case AssignGroup(_, user, _) => Some(user)
    case RejectIncident(_, user) => Some(user)
    case Take(user, _) => Some(user)
    case Release(user, _) => Some(user)
    case Return(user, _) => Some(user)
    case SubmitAnswer(_, user, _, _) => Some(user)
    case StartReview(user, _, _) => Some(user)
    case StopReview(user, _) => Some(user)
    case ApproveAnswer(_, user) => Some(user)
    case SendBack(_, user, _) => Some(user)
    case SaveEdit(user, _) => Some(user)
    case Repair(user, _, _, _) => Some(user)
    case _ => None
  }

  predicate HoldsSector(c: Case, user: nat, now: int) {
    c.status == InProgress && LiveFor(c.sectorLease, now) && c.sectorLease.value.user == user
  }

  // ----- Distribution and sector --------------------------------------------

  lemma OthersWaitToDistribute(w: World, e: Event, id: nat, user: nat)
    requires DistributionEvent(e)
    requires Subject(w, e) == Some(id) && id in w.cases && StageInv(w.cases[id])
    requires HoldsClaim(w.cases[id], user, w.now) || HoldsSector(w.cases[id], user, w.now)
    requires StepOf(w, e, id).Done? && StepOf(w, e, id).c.status != w.cases[id].status
    ensures Actor(e) == Some(user)
  {
    hide ClaimsElsewhere, NextFree, StartAssignment, FinishAssignment, Latest;
  }

  lemma OthersWaitToWork(w: World, e: Event, id: nat, user: nat)
    requires SectorEvent(e)
    requires Subject(w, e) == Some(id) && id in w.cases && StageInv(w.cases[id])
    requires HoldsClaim(w.cases[id], user, w.now) || HoldsSector(w.cases[id], user, w.now)
    requires StepOf(w, e, id).Done? && StepOf(w, e, id).c.status != w.cases[id].status
    ensures Actor(e) == Some(user)
  {
    hide RecordPreparation, QueueAnswer, FinishAssignment, Latest, HasAnswer;
  }

  /** Review and delivery do not move an incident that is being distributed or worked on. */
  lemma NothingElseMoves(w: World, e: Event, id: nat, user: nat)
    requires !DistributionEvent(e) && !SectorEvent(e) && Subject(w, e) == Some(id) && id in w.cases && StageInv(w.cases[id])
    requires HoldsClaim(w.cases[id], user, w.now) || HoldsSector(w.cases[id], user, w.now)
    ensures StepOf(w, e, id).Done? ==> StepOf(w, e, id).c.status == w.cases[id].status
  {
    hide Reviews, NextWaiting, Editing, HasAnswer, SetAnswer, Enqueue, Claimable, Owns, FinishAssignment, Latest;
  }

  lemma OthersWait(w: World, e: Event, id: nat, user: nat)
    requires Subject(w, e) == Some(id) && id in w.cases && StageInv(w.cases[id])
    requires HoldsClaim(w.cases[id], user, w.now) || HoldsSector(w.cases[id], user, w.now)
    requires StepOf(w, e, id).Done? && StepOf(w, e, id).c.status != w.cases[id].status
    ensures Actor(e) == Some(user)
  {
    hide StepOf, StageInv, HoldsClaim, HoldsSector;
    if DistributionEvent(e) { OthersWaitToDistribute(w, e, id, user); }
    else if SectorEvent(e) { OthersWaitToWork(w, e, id, user); }
    else { NothingElseMoves(w, e, id, user); }
  }

  /** While a dispatcher's claim or an executor's reservation is live, only its holder changes the status. */
  lemma HolderOwnsTheStage(w: World, e: Event, id: nat, user: nat)
    requires Reachable(w) && id in w.cases
    requires HoldsClaim(w.cases[id], user, w.now) || HoldsSector(w.cases[id], user, w.now)
    requires Actor(e) != Some(user)
    ensures id in Apply(w, e).cases && Apply(w, e).cases[id].status == w.cases[id].status
  {
    hide StepOf, Apply, Subject;
    ReachableInv(w);
    OnlyItsIncident(w, e, id);
    if Apply(w, e).cases[id].status != w.cases[id].status { OthersWait(w, e, id, user); }
  }

  // ----- Review -------------------------------------------------------------

  /** The latest answer has a job that stopped on a photo MAX no longer has. */
  predicate PhotoLost(c: Case, key: JobKey) {
    && key in c.jobs && c.jobs[key].status == Failed && c.jobs[key].error == PhotoUnavailable
    && c.answers != [] && key.answer == Latest(c.answers).id && Latest(c.answers).deliveredAt.None?
  }

  lemma OthersWaitForReview(w: World, e: Event, id: nat, user: nat)
    requires Subject(w, e) == Some(id) && id in w.cases && StageInv(w.cases[id])
    requires HoldsReview(w.cases[id], user, w.now) && Actor(e) != Some(user)
    ensures (StepOf(w, e, id).Done? && StepOf(w, e, id).c.status != w.cases[id].status) <==>
            (e.Repair? && e.from == w.cases[id].group && PhotoLost(w.cases[id], e.key))
  {
  }

  /** A reviewer's live lease does not stop a photo repair, and stops every other event of someone else:
    * the status changes under the reviewer exactly when a lost photo of the latest answer is repaired. */
  lemma ReviewerOwnsTheStageExceptRepairs(w: World, e: Event, id: nat, user: nat)
    requires Reachable(w) && id in w.cases && HoldsReview(w.cases[id], user, w.now) && Actor(e) != Some(user)
    ensures id in Apply(w, e).cases
    ensures Apply(w, e).cases[id].status != w.cases[id].status <==>
            (e.Repair? && e.id == id && e.from == w.cases[id].group && PhotoLost(w.cases[id], e.key))
  {
    hide StepOf, Apply, PhotoLost, HoldsReview, Reachable, AnswersInv, JobsInv, DeliveryInv, CyclesInv, PreparationInv, ClockInv;
    ReachableInv(w);
    OnlyItsIncident(w, e, id);
    if Subject(w, e) == Some(id) { OthersWaitForReview(w, e, id, user); }
  }

  // ----- Leases -------------------------------------------------------------

  /** At every instant of every run: a dispatcher holds one claim, a reviewer one lease, no lease ends
    * more than 15 minutes ahead, and a fresh one is taken by someone who held no other. */
  lemma OneLeaseEach(w: World, i: nat, j: nat, user: nat)
    requires Reachable(w) && i in w.cases && j in w.cases
    ensures HoldsClaim(w.cases[i], user, w.now) && HoldsClaim(w.cases[j], user, w.now) ==> i == j
    ensures HoldsReview(w.cases[i], user, w.now) && HoldsReview(w.cases[j], user, w.now) ==> i == j
    ensures LeaseInv(w.cases[i], w.now)
  {
    ReachableInv(w);
  }

  datatype Stage = AtDistribution | AtSector | AtReview

  function LeaseAt(c: Case, stage: Stage): Option<Lease> {
    match stage
    case AtDistribution => c.claim
    case AtSector => c.sectorLease
    case AtReview => c.reviewLease
  }

  /** After the first n events the stage is held under a live lease. */
  ghost predicate HeldAfter(w: World, events: seq<Event>, id: nat, stage: Stage, n: int)
    requires 0 <= n <= |events|
  {
    var w' := Run(w, events[..n]);
    id in w'.cases && LiveFor(LeaseAt(w'.cases[id], stage), w'.now)
  }

  /** A stage held without interruption is held under one and the same lease, so nobody holds it past
    * the end that lease was given when it was taken. */
  lemma {:induction false} HoldingNeverExtends(w: World, events: seq<Event>, id: nat, stage: Stage)
    requires Reachable(w) && id in w.cases
    requires forall n :: 0 <= n <= |events| ==> HeldAfter(w, events, id, stage, n)
    ensures var w' := Run(w, events);
            id in w'.cases && LeaseAt(w'.cases[id], stage) == LeaseAt(w.cases[id], stage)
            && LeaseAt(w.cases[id], stage).Some? && w'.now < LeaseAt(w.cases[id], stage).value.until <= w.now + LEASE_MS
  {
    OneLeaseEach(w, id, id, 0);
    assert HeldAfter(w, events, id, stage, |events|);
    assert events[..|events|] == events;
    if events != [] {
      var front := events[..|events| - 1];
      forall n | 0 <= n <= |front| ensures HeldAfter(w, front, id, stage, n) {
        assert HeldAfter(w, events, id, stage, n);
        assert front[..n] == events[..n];
      }
      HoldingNeverExtends(w, front, id, stage);
      RunIsReachable(w, front);
      EveryStepIsLegal(Run(w, front), events[|events| - 1], id);
      assert HeldAfter(w, events, id, stage, |events| - 1);
    }
  }

  lemma {:induction false} RunsCompose(w: World, a: seq<Event>, b: seq<Event>)
    ensures Run(w, a + b) == Run(Run(w, a), b)
  {
    if b == [] {
      assert a + b == a;
    } else {
      RunsCompose(w, a, b[..|b| - 1]);
      assert (a + b)[..|a + b| - 1] == a + b[..|b| - 1];
    }
  }

  lemma RunIsReachable(w: World, events: seq<Event>)
    requires Reachable(w)
    ensures Reachable(Run(w, events))
  {
    var before :| w == Run(Start, before);
    RunsCompose(Start, before, events);
    assert Run(w, events) == Run(Start, before + events);
  }

  // ----- The protection that is missing -------------------------------------

  lemma OneMore(w: World, e: Event)
    requires Reachable(w)
    ensures Reachable(Apply(w, e))
  {
    RunIsReachable(w, [e]);
    assert [e][..0] == [];
    assert Run(w, [e]) == Apply(w, e);
  }

  /** An assigned incident, as its executor has just read it. */
  lemma AssignedAndRead() returns (w: World)
    ensures Reachable(w) && w.now == 0 && w.cases.Keys == {1} && 2 in w.requests && w.requests[2] == Read(1, w.cases[1], false)
    ensures w.cases[1] == Registered(Legacy, 100, 5_000, 0).(status := Assigned, group := Some(3))
  {
    assert Run(Start, []) == Start;
    var registered := Apply(Start, Register(1, Legacy, 100, 5_000));
    var read := Apply(registered, PreRead(1, 1, false));
    var inGroup := Apply(read, AssignGroup(1, 7, 3));
    w := Apply(inGroup, PreRead(2, 1, false));
    OneMore(Start, Register(1, Legacy, 100, 5_000));
    OneMore(registered, PreRead(1, 1, false));
    OneMore(read, AssignGroup(1, 7, 3));
    OneMore(inGroup, PreRead(2, 1, false));
  }

  /** Its answer waits for review ... */
  lemma AnswerInReview() returns (w: World)
    ensures Reachable(w) && w.now == 0 && w.cases.Keys == {1}
    ensures var c := w.cases[1];
            && c.status == WaitingReview && c.reviewLease.None? && c.group == Some(3)
            && c.answers == [Answer(50, 1, Body("text", [8]), AwaitingReview, None)]
            && c.jobs == map[ReviewJob(50) := Job(ReviewChat, Pending, 0, None, NoError, false, false)]
  {
    hide Apply, Reachable;
    var read := AssignedAndRead();
    w := Apply(read, SubmitAnswer(2, 5, 50, Body("text", [8])));
    OnlyItsIncident(read, SubmitAnswer(2, 5, 50, Body("text", [8])), 1);
    OneMore(read, SubmitAnswer(2, 5, 50, Body("text", [8])));
  }

  /** ... whose review card is being sent ... */
  lemma ReviewCardUnderway() returns (w: World)
    ensures Reachable(w) && w.now == 0 && w.cases.Keys == {1} && w.cases[1].status == WaitingReview
    ensures w.cases[1].reviewLease.None? && w.cases[1].group == Some(3) && w.cases[1].jobs.Keys == {ReviewJob(50)}
    ensures Incident.Owns(w.cases[1].jobs[ReviewJob(50)], 1, 0)
    ensures w.cases[1].answers == [Answer(50, 1, Body("text", [8]), AwaitingReview, None)]
  {
    hide Apply, Reachable;
    var waiting := AnswerInReview();
    w := Apply(waiting, JobClaimed(1, ReviewJob(50)));
    OnlyItsIncident(waiting, JobClaimed(1, ReviewJob(50)), 1);
    OneMore(waiting, JobClaimed(1, ReviewJob(50)));
  }

  /** ... and then fails on a lost photo ... */
  lemma LostPhotoInReview() returns (w: World)
    ensures Reachable(w) && w.now == 0 && w.cases.Keys == {1} && w.cases[1].status == WaitingReview
    ensures w.cases[1].reviewLease.None? && PhotoLost(w.cases[1], ReviewJob(50)) && w.cases[1].group == Some(3)
    ensures w.cases[1].answers == [Answer(50, 1, Body("text", [8]), AwaitingReview, None)] && w.cases[1].jobs.Keys == {ReviewJob(50)}
  {
    hide Apply, Reachable;
    var claimed := ReviewCardUnderway();
    var failure := JobFailed(1, ReviewJob(50), 1, 0, PhotoUnavailable, false);
    w := Apply(claimed, failure);
    OnlyItsIncident(claimed, failure, 1);
    OneMore(claimed, failure);
  }

  /** ... and which a reviewer took afterwards: the executor's photo repair takes it out of review
    * under that reviewer's live lease. */
  lemma RepairIgnoresTheReviewer() returns (w: World)
    ensures Reachable(w) && 1 in w.cases && HoldsReview(w.cases[1], 9, w.now) && w.cases[1].group == Some(3)
    ensures Actor(Repair(5, 1, Some(3), ReviewJob(50))) != Some(9)
    ensures 1 in Apply(w, Repair(5, 1, Some(3), ReviewJob(50))).cases
    ensures Apply(w, Repair(5, 1, Some(3), ReviewJob(50))).cases[1].status != w.cases[1].status
  {
    hide Apply, Reachable;
    var failed := LostPhotoInReview();
    w := Apply(failed, StartReview(9, 1, true));
    OnlyItsIncident(failed, StartReview(9, 1, true), 1);
    OneMore(failed, StartReview(9, 1, true));
    ReviewerOwnsTheStageExceptRepairs(w, Repair(5, 1, Some(3), ReviewJob(50)), 1, 9);
  }
}
