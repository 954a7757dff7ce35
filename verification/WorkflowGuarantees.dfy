/** The promises of the workflow, read off the invariant of every run. */
module WorkflowGuarantees {
  import opened Incident
  import opened IncidentInvariants
  import opened Workflow
  import opened WorkflowSafety
  import opened Wrappers
  import WorkingTime

  // ----- One event on one incident ------------------------------------------

  /** What a single event may do to an incident: a legal status change that keeps live leases. */
  ghost predicate StepsTo(c: Case, c': Case, now: int) { Edge(c, c') && LeasesKept(c, c', now) }

  /** A transaction's event runs its step on its own incident. */
  lemma Outcome(w: World, e: Event, id: nat)
    requires Subject(w, e) == Some(id) && id in w.cases
    ensures Apply(w, e) == (match StepOf(w, e, id) case Refused(_) => w case Done(c) => Store(w, Saves(e), id, c))
  {
    hide StepOf, Apply, Subject;
    SubjectTransacts(w, e);
  }

  lemma SubjectTransacts(w: World, e: Event)
    requires Subject(w, e).Some?
    ensures Apply(w, e) == Transact(w, e)
  {
    hide Transact;
  }

  lemma NoSubject(w: World, e: Event, id: nat)
    requires id in w.cases && Subject(w, e).None?
    ensures id in Apply(w, e).cases && Apply(w, e).cases[id] == w.cases[id]
  {
    hide StepOf, Latest, HoldsReview;
  }

  /** An event changes at most its own incident, and only by committing its transaction. */
  lemma OnlyItsIncident(w: World, e: Event, id: nat)
    requires id in w.cases
    ensures id in Apply(w, e).cases
    ensures Subject(w, e).Some? ==> Apply(w, e).cases.Keys == w.cases.Keys && Apply(w, e).now == w.now
    ensures Apply(w, e).cases[id] ==
              if Subject(w, e) == Some(id) && StepOf(w, e, id).Done? then StepOf(w, e, id).c else w.cases[id]
  {
    hide StepOf, Apply, Subject;
    if Subject(w, e).Some? { SubjectTransacts(w, e); } else { NoSubject(w, e, id); }
  }

  /** Along every run each status change is an edge of the table, or a photo repair of an undelivered
    * answer, and no live lease is moved. */
  lemma EveryStepIsLegal(w: World, e: Event, id: nat)
    requires Reachable(w) && id in w.cases
    ensures id in Apply(w, e).cases && StepsTo(w.cases[id], Apply(w, e).cases[id], w.now)
  {
    hide StepOf, Apply, Subject, Edge, LeasesKept, Evolves, Inv;
    ReachableInv(w);
    OnlyItsIncident(w, e, id);
    if Apply(w, e).cases[id] != w.cases[id] { StepGood(w, e, id); } else { StandingStill(w.cases[id], w.now); }
  }

  lemma StandingStill(c: Case, now: int)
    ensures StepsTo(c, c, now)
  {
  }

  /** No transaction of any run fails with SLA_ASSIGNMENT_CYCLE_STILL_OPEN or SLA_ASSIGNMENT_CYCLE_MISSING. */
  lemma CycleErrorsAreUnreachable(w: World, e: Event, id: nat)
    requires Reachable(w) && id in w.cases && Subject(w, e) == Some(id)
    ensures StepOf(w, e, id) != Refused(CycleStillOpen) && StepOf(w, e, id) != Refused(CycleMissing)
  {
    ReachableInv(w);
    StepGood(w, e, id);
  }

  /** Stage, leases and group always agree: in work exactly while a sector reservation row exists, assigned to
    * a group exactly outside distribution and rejection, claimed only in distribution, under review only
    * while an answer waits; the responder is the holder of the reservation, and nobody before work began. */
  lemma StagesAgree(w: World, id: nat)
    requires Reachable(w) && id in w.cases
    ensures var c := w.cases[id];
            && (c.status == InProgress <==> c.sectorLease.Some?)
            && (c.group.None? <==> c.status == Distribution || c.status == Rejected)
            && (c.claim.Some? ==> c.status == Distribution) && (c.reviewLease.Some? ==> c.status == WaitingReview)
            && (c.sectorLease.Some? ==> c.responder == Some(c.sectorLease.value.user))
            && (c.status == Distribution || c.status == Assigned || c.status == Rejected ==> c.responder.None?)
  {
    ReachableInv(w);
  }

  predicate ApprovedAt(answers: seq<Answer>, i: int)
    requires 0 <= i < |answers|
  {
    answers[i].status == Approved
  }

  /** The latest answer follows the incident: it waits, is sent back or is approved with it, an approved
    * version exists exactly in RESOLVED, and its job is there: the review card until it was sent and purged,
    * the delivery until it was recorded, whatever was read before. */
  lemma LatestAnswerFollows(w: World, id: nat)
    requires Reachable(w) && id in w.cases
    ensures var c := w.cases[id];
            && (c.status == WaitingReview ==>
                  Last(c, AwaitingReview) && var k := ReviewJob(c.answers[|c.answers| - 1].id); k in c.jobs || k in c.purged)
            && (c.status == RevisionRequired ==> Last(c, Revision))
            && (c.status == Resolved ==>
                  Last(c, Approved) && (AnswerJob(c.answers[|c.answers| - 1].id) in c.jobs || IsDelivered(c)))
            && (forall i :: 0 <= i < |c.answers| && ApprovedAt(c.answers, i) ==> i == |c.answers| - 1 && c.status == Resolved)
  {
    ReachableInv(w);
    var c := w.cases[id];
    forall i | 0 <= i < |c.answers| && ApprovedAt(c.answers, i) ensures i == |c.answers| - 1 && c.status == Resolved {
      assert AnswerOk(c.answers, i);
    }
  }

  // ----- Answers and delivery -----------------------------------------------

  predicate DeliveredAt(answers: seq<Answer>, i: int)
    requires 0 <= i < |answers|
  {
    answers[i].deliveredAt.Some?
  }

  /** The one delivered answer: the latest version, approved, with one receipt, made out to the incident's own
    * requester, whose job is SENT until it is purged. */
  predicate DeliveredOnce(c: Case) {
    && c.answers != [] && c.status == Resolved
    && (forall i :: 0 <= i < |c.answers| ==> (DeliveredAt(c.answers, i) <==> i == |c.answers| - 1))
    && var last := c.answers[|c.answers| - 1];
       && last.version == |c.answers| && last.status == Approved
       && c.sent == [Receipt(last.id, User(c.requester))]
       && (AnswerJob(last.id) in c.jobs || AnswerJob(last.id) in c.purged)
       && (AnswerJob(last.id) in c.jobs ==> c.jobs[AnswerJob(last.id)].status == Sent)
  }

  lemma DeliveredIsOnce(c: Case, now: int)
    requires Inv(c, now) && IsDelivered(c)
    ensures DeliveredOnce(c)
  {
    forall i | 0 <= i < |c.answers| ensures DeliveredAt(c.answers, i) <==> i == |c.answers| - 1 {
      assert AnswerOk(c.answers, i);
    }
    assert AnswerOk(c.answers, |c.answers| - 1);
  }

  /** Once any answer of an incident is delivered, exactly that answer stays delivered, whatever follows:
    * no version is added, the status stays RESOLVED and the delivery is never recorded again. */
  lemma DeliveredForever(w: World, id: nat, i: nat, events: seq<Event>)
    requires Reachable(w) && id in w.cases
    requires i < |w.cases[id].answers| && DeliveredAt(w.cases[id].answers, i)
    ensures id in Run(w, events).cases
    ensures var c, c' := w.cases[id], Run(w, events).cases[id];
            DeliveredOnce(c) && DeliveredOnce(c') && c'.answers == c.answers && i == |c.answers| - 1
            && c'.sent == c.sent && c'.slaDeliveredAt == c.slaDeliveredAt && c'.overdue == c.overdue && c'.cycles == c.cycles
  {
    ReachableInv(w);
    RunInv(w, events);
    var w' := Run(w, events);
    assert AnswerOk(w.cases[id].answers, i);
    DeliveredIsOnce(w.cases[id], w.now);
    assert FollowsAt(w, w', id);
    DeliveredIsOnce(w'.cases[id], w'.now);
  }

  /** Versions are numbered in order and an old text never changes, over any number of events. */
  lemma TextsNeverChange(w: World, id: nat, i: nat, events: seq<Event>)
    requires Reachable(w) && id in w.cases && i < |w.cases[id].answers|
    ensures id in Run(w, events).cases && i < |Run(w, events).cases[id].answers|
    ensures var a, a' := w.cases[id].answers[i], Run(w, events).cases[id].answers[i];
            a'.id == a.id && a'.body == a.body && a.version == i + 1 && a'.version == i + 1
  {
    ReachableInv(w);
    RunInv(w, events);
    assert FollowsAt(w, Run(w, events), id);
    assert SameText(w.cases[id].answers, Run(w, events).cases[id].answers, i);
    assert AnswerOk(w.cases[id].answers, i);
  }

  // ----- Stale pre-reads ----------------------------------------------------

  function RequestOf(e: Event): Option<nat> {
    match e
    case AssignGroup(r, _, _) => Some(r)
    case RejectIncident(r, _) => Some(r)
    case SubmitAnswer(r, _, _, _) => Some(r)
    case ApproveAnswer(r, _) => Some(r)
    case SendBack(r, _, _) => Some(r)
    case _ => None
  }

  /** The world in which this request repeats its read right before its transaction. */
  function Reread(w: World, r: nat): World
    requires r in w.requests && w.requests[r].incident in w.cases
  {
    w.(requests := w.requests[r := w.requests[r].(seen := w.cases[w.requests[r].incident])])
  }

  lemma RereadSameStep(w: World, e: Event, r: nat)
    requires RequestOf(e) == Some(r) && r in w.requests && w.requests[r].incident in w.cases
    requires w.requests[r].seen.policy == w.cases[w.requests[r].incident].policy
    requires StepOf(w, e, w.requests[r].incident).Done?
    ensures StepOf(Reread(w, r), e, w.requests[r].incident) == StepOf(w, e, w.requests[r].incident)
  {
  }

  /** A request that commits on a stale read does exactly what it would have done on a read taken
    * just before its transaction. */
  lemma StaleReadsAreHarmless(w: World, e: Event, r: nat)
    requires Reachable(w) && RequestOf(e) == Some(r) && r in w.requests && w.requests[r].incident in w.cases
    requires StepOf(w, e, w.requests[r].incident).Done?
    ensures Apply(Reread(w, r), e).cases == Apply(w, e).cases
  {
    hide StepOf, CasesInv, OneHolder, Apply, Reachable;
    ReachableInv(w);
    assert ReadOk(w.cases, w.requests[r]);
    RereadSameStep(w, e, r);
    Outcome(w, e, w.requests[r].incident);
    Outcome(Reread(w, r), e, w.requests[r].incident);
  }

  /** An answer is accepted only if the incident was not redistributed since the request read it. */
  lemma SubmitSeesNoRedistribution(w: World, e: Event, id: nat)
    requires Reachable(w) && e.SubmitAnswer? && Subject(w, e) == Some(id) && id in w.cases && StepOf(w, e, id).Done?
    ensures var seen := w.requests[e.request].seen;
            Evolves(seen, w.cases[id]) && seen.redistributions == w.cases[id].redistributions && seen.group == w.cases[id].group
  {
    ReachableInv(w);
    assert ReadOk(w.cases, w.requests[e.request]);
  }

  // ----- Assignment cycles --------------------------------------------------

  lemma {:induction false} EarlierCycleEnded(cycles: seq<Cycle>, i: nat, j: nat, createdAt: int, now: int)
    requires i < j < |cycles| && forall k :: 0 <= k < |cycles| ==> CycleOk(cycles, k, createdAt, now)
    ensures cycles[i].endedAt.Some? && cycles[i].endedAt.value <= cycles[j].assignedAt
  {
    assert CycleOk(cycles, j, createdAt, now) && CycleOk(cycles, j - 1, createdAt, now);
    if i < j - 1 { EarlierCycleEnded(cycles, i, j - 1, createdAt, now); }
  }

  /** Cycles are numbered 1..n without gaps and do not overlap in time; at most one is open and it is the last. */
  lemma CyclesAreDisjoint(w: World, id: nat, i: nat, j: nat)
    requires Reachable(w) && id in w.cases && i < j < |w.cases[id].cycles|
    ensures var cycles := w.cases[id].cycles;
            cycles[i].sequence == i + 1 && cycles[j].sequence == j + 1
            && cycles[i].endedAt.Some? && cycles[i].assignedAt <= cycles[i].endedAt.value <= cycles[j].assignedAt
  {
    ReachableInv(w);
    var c := w.cases[id];
    assert CycleOk(c.cycles, i, c.createdAt, w.now) && CycleOk(c.cycles, j, c.createdAt, w.now);
    EarlierCycleEnded(c.cycles, i, j, c.createdAt, w.now);
  }

  /** Under the working-hours policy a cycle is open, for the current group, exactly while the incident
    * is assigned and undelivered. */
  lemma OpenWhileAssigned(w: World, id: nat)
    requires Reachable(w) && id in w.cases && w.cases[id].policy == WorkingHours
    ensures var c := w.cases[id];
            (exists i :: 0 <= i < |c.cycles| && c.cycles[i].endedAt == None) <==> c.group.Some? && !IsDelivered(c)
    ensures var c := w.cases[id];
            forall i :: 0 <= i < |c.cycles| && c.cycles[i].endedAt == None ==> i == |c.cycles| - 1 && c.group == Some(c.cycles[i].group)
  {
    hide Reachable, WorldInv, Inv;
    ReachableInv(w);
    CaseIsGood(w, id);
    OpenIsLast(w.cases[id], w.now);
  }

  lemma CaseIsGood(w: World, id: nat)
    requires WorldInv(w) && id in w.cases
    ensures Inv(w.cases[id], w.now)
  {
  }

  lemma OpenIsLast(c: Case, now: int)
    requires Inv(c, now) && c.policy == WorkingHours
    ensures (exists i :: 0 <= i < |c.cycles| && c.cycles[i].endedAt == None) <==> c.group.Some? && !IsDelivered(c)
    ensures forall i :: 0 <= i < |c.cycles| && c.cycles[i].endedAt == None ==> i == |c.cycles| - 1 && c.group == Some(c.cycles[i].group)
  {
    hide AnswersInv, JobsInv, ClockInv, LeaseInv, PreparationInv;
    forall i | 0 <= i < |c.cycles| && c.cycles[i].endedAt == None
      ensures i == |c.cycles| - 1 && LastOpen(c.cycles)
    {
      if i < |c.cycles| - 1 { EarlierCycleEnded(c.cycles, i, |c.cycles| - 1, c.createdAt, now); }
    }
  }

  lemma {:induction false} FirstComesFirst(log: seq<Submission>, k: nat, cycles: nat, now: int)
    requires k < |log| && forall i :: 0 <= i < |log| ==> LoggedAt(log, i, cycles, now)
    ensures FirstIn(log, log[k].cycle).Some? && FirstIn(log, log[k].cycle).value.at <= log[k].at
  {
    var front := log[..|log| - 1];
    forall i | 0 <= i < |front| ensures LoggedAt(front, i, cycles, now) { assert LoggedAt(log, i, cycles, now); }
    if k < |front| {
      FirstComesFirst(front, k, cycles, now);
    } else if FirstIn(front, log[k].cycle).Some? {
      FirstWasLogged(front, log[k].cycle);
      var j :| 0 <= j < |front| && front[j] == FirstIn(front, log[k].cycle).value && front[j].cycle == log[k].cycle;
      LogIsOrdered(log, j, k, cycles, now);
    }
  }

  lemma {:induction false} LogIsOrdered(log: seq<Submission>, j: nat, k: nat, cycles: nat, now: int)
    requires j <= k < |log| && forall i :: 0 <= i < |log| ==> LoggedAt(log, i, cycles, now)
    ensures log[j].at <= log[k].at
  {
    if j < k {
      LogIsOrdered(log, j, k - 1, cycles, now);
      assert LoggedAt(log, k, cycles, now);
    }
  }

  /** A cycle's preparation mark is its earliest submission; a cycle without submissions has none. */
  lemma PreparedIsEarliest(w: World, id: nat, i: nat)
    requires Reachable(w) && id in w.cases && i < |w.cases[id].cycles|
    ensures var c := w.cases[id];
            && (forall k :: 0 <= k < |c.submissions| && c.submissions[k].cycle == i + 1 ==>
                  c.cycles[i].firstPreparedAt.Some? && c.cycles[i].firstPreparedAt.value <= c.submissions[k].at)
            && (c.cycles[i].firstPreparedAt.Some? ==>
                  exists k :: 0 <= k < |c.submissions| && c.submissions[k].cycle == i + 1
                              && Some(c.submissions[k].at) == c.cycles[i].firstPreparedAt
                              && Some(c.submissions[k].answer) == c.cycles[i].firstPreparedAnswer)
  {
    ReachableInv(w);
    var c := w.cases[id];
    assert CycleOk(c.cycles, i, c.createdAt, w.now) && PreparedAt(c.cycles, i, c.submissions);
    forall k | 0 <= k < |c.submissions| && c.submissions[k].cycle == i + 1
      ensures c.cycles[i].firstPreparedAt.Some? && c.cycles[i].firstPreparedAt.value <= c.submissions[k].at
    {
      FirstComesFirst(c.submissions, k, |c.cycles|, w.now);
    }
    if c.cycles[i].firstPreparedAt.Some? { FirstWasLogged(c.submissions, i + 1); }
  }

  // ----- The two clocks -----------------------------------------------------

  /** The card warns about a late project exactly when more than two working hours passed between
    * registration and this assignment. */
  lemma LateWarningMeans(w: World, id: nat, i: nat)
    requires Reachable(w) && id in w.cases && i < |w.cases[id].cycles|
    ensures var c := w.cases[id];
            c.cycles[i].preparationDueAt > c.deadlineAt <==>
              WorkingTime.Measure(c.createdAt, c.cycles[i].assignedAt) > RETURN_MS
  {
    ReachableInv(w);
    var c := w.cases[id];
    assert CycleOk(c.cycles, i, c.createdAt, w.now) && DueOk(c.cycles, i);
    WorkingTime.LateProjectWarning(c.createdAt, c.deadlineAt, c.cycles[i].assignedAt, c.cycles[i].preparationDueAt);
  }

  /** A delivered incident is marked overdue exactly when more than 24 working hours passed since registration. */
  lemma OverdueMeans(w: World, id: nat)
    requires Reachable(w) && id in w.cases && w.cases[id].policy == WorkingHours && IsDelivered(w.cases[id])
    ensures var c := w.cases[id];
            var delivered := c.answers[|c.answers| - 1].deliveredAt.value;
            c.overdue <==> WorkingTime.Measure(c.createdAt, delivered) > ANSWER_MS
  {
    ReachableInv(w);
  }
}
