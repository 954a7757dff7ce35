/** What every transaction on an incident keeps, and what it may change. */
module IncidentInvariants {
  import opened Incident
  import opened Wrappers
  import WorkingTime

  // ----- The invariant ------------------------------------------------------

  predicate InGroup(s: Status) { s == Assigned || s == InProgress || s == WaitingReview || s == RevisionRequired || s == Resolved }

  /** Stage and lease rows agree with the status. */
  predicate StageInv(c: Case) {
    && c.status != New
    && (c.group.Some? <==> InGroup(c.status))
    && (c.claim.Some? ==> c.status == Distribution)
    && (c.sectorLease.Some? <==> c.status == InProgress)
    && (c.reviewLease.Some? ==> c.status == WaitingReview)
    && (c.status == Distribution ==> c.revisionReason.None?)
    && (c.sectorLease.Some? ==> c.responder == Some(c.sectorLease.value.user))
    && (c.status == Distribution || c.status == Assigned || c.status == Rejected ==> c.responder.None?)
  }

  predicate Last(c: Case, s: AnswerStatus) { c.answers != [] && c.answers[|c.answers| - 1].status == s }

  predicate AnswerOk(answers: seq<Answer>, i: int)
    requires 0 <= i < |answers|
  {
    && answers[i].version == i + 1
    && (answers[i].status == Approved ==> i == |answers| - 1)
    && (answers[i].deliveredAt.Some? ==> answers[i].status == Approved)
  }

  predicate Differ(answers: seq<Answer>, i: int, j: int)
    requires 0 <= i < j < |answers|
  {
    answers[i].id != answers[j].id
  }

  /** Versions are 1..n; the latest answer's status follows the incident's; an approved version
    * exists only in RESOLVED and is the latest; only an approved version is ever delivered. */
  predicate AnswersInv(c: Case) {
    && (forall i :: 0 <= i < |c.answers| ==> AnswerOk(c.answers, i))
    && (forall i, j :: 0 <= i < j < |c.answers| ==> Differ(c.answers, i, j))
    && (c.status == WaitingReview ==> Last(c, AwaitingReview))
    && (c.status == RevisionRequired ==> Last(c, Revision))
    && (c.status == Resolved <==> Last(c, Approved))
    && (Submittable(c.status) && OpenStatus(c) == RevisionRequired ==> Last(c, Revision))
  }

  predicate LastDelivered(answers: seq<Answer>) { answers != [] && answers[|answers| - 1].deliveredAt.Some? }

  predicate IsDelivered(c: Case) { LastDelivered(c.answers) }

  predicate HasAnswer(answers: seq<Answer>, id: nat) { exists i :: 0 <= i < |answers| && answers[i].id == id }

  /** A job belongs to an answer of the incident; a delivery is addressed to its requester and
    * counts as applied only for the delivered answer. */
  predicate JobOk(answers: seq<Answer>, requester: nat, k: JobKey, j: Job) {
    && HasAnswer(answers, k.answer)
    && (k.AnswerJob? ==> j.target == User(requester))
    && (k.AnswerJob? && j.status == Sent && j.trackingApplied ==> LastDelivered(answers) && answers[|answers| - 1].id == k.answer)
  }

  /** The latest answer has its review card or its delivery; a row goes only after it was sent, a delivery only
    * after it was recorded. */
  predicate JobsInv(c: Case) {
    && (forall k :: k in c.jobs ==> JobOk(c.answers, c.requester, k, c.jobs[k]))
    && (c.status == WaitingReview && c.answers != [] ==>
          var k := ReviewJob(c.answers[|c.answers| - 1].id); k in c.jobs || k in c.purged)
    && (c.status == Resolved && c.answers != [] ==>
          var k := AnswerJob(c.answers[|c.answers| - 1].id);
          (k in c.jobs || IsDelivered(c)) && (k in c.jobs && c.jobs[k].status == Sent ==> c.jobs[k].trackingApplied))
    && (Last(c, AwaitingReview) ==> AnswerJob(c.answers[|c.answers| - 1].id) !in c.jobs)
  }

  /** The delivery is recorded once, by a completed job, and read off the latest answer. */
  predicate DeliveryInv(c: Case) {
    && (IsDelivered(c) ==>
          var k := AnswerJob(c.answers[|c.answers| - 1].id);
          && c.sent == [Receipt(k.answer, User(c.requester))] && (k in c.jobs || k in c.purged)
          && (k in c.jobs ==> c.jobs[k].status == Sent && c.jobs[k].trackingApplied))
    && (IsDelivered(c) ==> c.status == Resolved)
    && (!IsDelivered(c) ==> c.sent == [])
    && c.slaDeliveredAt == (if c.policy == WorkingHours && IsDelivered(c) then c.answers[|c.answers| - 1].deliveredAt else None)
  }

  predicate CycleOk(cycles: seq<Cycle>, i: int, createdAt: int, now: int)
    requires 0 <= i < |cycles|
  {
    && cycles[i].sequence == i + 1
    && createdAt <= cycles[i].assignedAt <= now
    && (cycles[i].endedAt.Some? ==> cycles[i].assignedAt <= cycles[i].endedAt.value <= now)
    && (i > 0 ==> cycles[i - 1].endedAt.Some? && cycles[i - 1].endedAt.value <= cycles[i].assignedAt)
  }

  /** Cycles are numbered 1..n and follow one another in time; only the last can be open, and it
    * is, for the current group, exactly while the incident is assigned and undelivered. */
  predicate CyclesInv(c: Case, now: int) {
    && (c.policy == Legacy ==> c.cycles == [])
    && (forall i :: 0 <= i < |c.cycles| ==> CycleOk(c.cycles, i, c.createdAt, now))
    && (c.policy == WorkingHours ==> (LastOpen(c.cycles) <==> c.group.Some? && !IsDelivered(c)))
    && (LastOpen(c.cycles) ==> c.group == Some(c.cycles[|c.cycles| - 1].group))
  }

  /** The first submission logged in a cycle. */
  function FirstIn(log: seq<Submission>, cycle: nat): Option<Submission> {
    if log == [] then None
    else
      var earlier := FirstIn(log[..|log| - 1], cycle);
      if earlier.Some? then earlier
      else if log[|log| - 1].cycle == cycle then Some(log[|log| - 1]) else None
  }

  /** A cycle remembers its first submission. */
  predicate PreparedFirst(cycle: Cycle, log: seq<Submission>) {
    match FirstIn(log, cycle.sequence)
    case None => cycle.firstPreparedAt.None? && cycle.firstPreparedAnswer.None?
    case Some(first) => cycle.firstPreparedAt == Some(first.at) && cycle.firstPreparedAnswer == Some(first.answer)
  }

  predicate PreparedAt(cycles: seq<Cycle>, i: int, log: seq<Submission>)
    requires 0 <= i < |cycles|
  {
    PreparedFirst(cycles[i], log)
  }

  predicate LoggedAt(log: seq<Submission>, i: int, cycles: nat, now: int)
    requires 0 <= i < |log|
  {
    log[i].at <= now && log[i].cycle <= cycles && (i > 0 ==> log[i - 1].at <= log[i].at)
  }

  predicate PreparationInv(c: Case, now: int) {
    && (forall i :: 0 <= i < |c.submissions| ==> LoggedAt(c.submissions, i, |c.cycles|, now))
    && (forall i :: 0 <= i < |c.cycles| ==> PreparedAt(c.cycles, i, c.submissions))
  }

  ghost predicate DueOk(cycles: seq<Cycle>, i: int)
    requires 0 <= i < |cycles|
  {
    && cycles[i].preparationDueAt == WorkingTime.DueAt(cycles[i].assignedAt, PREPARATION_MS)
    && cycles[i].returnDueAt == WorkingTime.DueAt(cycles[i].assignedAt, RETURN_MS)
  }

  /** The two clocks: the deadline is 24 working hours from registration, a project 22 from assignment. */
  ghost predicate ClockInv(c: Case, now: int) {
    && c.createdAt <= now
    && (c.policy == WorkingHours ==> c.deadlineAt == WorkingTime.DueAt(c.createdAt, ANSWER_MS))
    && DueRows(c.cycles)
    && (c.slaDeliveredAt.Some? ==> (c.overdue <==> WorkingTime.Measure(c.createdAt, c.slaDeliveredAt.value) > ANSWER_MS))
  }

  /** No lease runs further than 15 minutes ahead. */
  predicate LeaseInv(c: Case, now: int) {
    && (c.claim.Some? ==> c.claim.value.until <= now + LEASE_MS)
    && (c.sectorLease.Some? ==> c.sectorLease.value.until <= now + LEASE_MS)
    && (c.reviewLease.Some? ==> c.reviewLease.value.until <= now + LEASE_MS)
  }

  ghost predicate Inv(c: Case, now: int) {
    StageInv(c) && AnswersInv(c) && JobsInv(c) && DeliveryInv(c) && CyclesInv(c, now) && PreparationInv(c, now)
    && ClockInv(c, now) && LeaseInv(c, now)
  }

  // ----- What a step may change ---------------------------------------------

  /** The only ways a status changes: a legal edge, or a photo repair of an undelivered answer. */
  predicate Edge(c: Case, c': Case) {
    || c'.status == c.status
    || Allowed(c.status, c'.status)
    || (c.status == Resolved && c'.status == RevisionRequired && !IsDelivered(c))
  }

  predicate SameText(a: seq<Answer>, b: seq<Answer>, i: int)
    requires 0 <= i < |a| <= |b|
  {
    a[i].id == b[i].id && a[i].version == b[i].version && a[i].body == b[i].body
  }

  /** How an incident may evolve over any number of steps: registration facts never change,
    * answers are only appended, and a delivered answer freezes the incident. */
  predicate Evolves(c: Case, c': Case) {
    && c'.policy == c.policy && c'.requester == c.requester
    && c'.createdAt == c.createdAt && c'.deadlineAt == c.deadlineAt
    && |c.answers| <= |c'.answers| && (forall i :: 0 <= i < |c.answers| ==> SameText(c.answers, c'.answers, i))
    && c.redistributions <= c'.redistributions
    && (IsDelivered(c) ==>
          && c'.answers == c.answers && c'.status == c.status && c'.sent == c.sent
          && c'.slaDeliveredAt == c.slaDeliveredAt && c'.overdue == c.overdue && c'.cycles == c.cycles)
  }

  lemma EvolvesIsTransitive(a: Case, b: Case, c: Case)
    requires Evolves(a, b) && Evolves(b, c)
    ensures Evolves(a, c)
  {
    forall i | 0 <= i < |a.answers| ensures SameText(a.answers, c.answers, i) {
      assert SameText(a.answers, b.answers, i) && SameText(b.answers, c.answers, i);
    }
  }

  /** A live lease keeps its end until its holder gives it up or loses the stage. */
  predicate KeepsLive(lease: Option<Lease>, lease': Option<Lease>, now: int) {
    LiveFor(lease, now) ==> lease' == lease || lease'.None?
  }

  predicate LeasesKept(c: Case, c': Case, now: int) {
    KeepsLive(c.claim, c'.claim, now) && KeepsLive(c.sectorLease, c'.sectorLease, now) && KeepsLive(c.reviewLease, c'.reviewLease, now)
  }

  ghost predicate Good(c: Case, step: Step, now: int) {
    step.Done? ==> Inv(step.c, now) && Edge(c, step.c) && Evolves(c, step.c) && LeasesKept(c, step.c, now)
  }

  // ----- Helpers ------------------------------------------------------------

  lemma {:induction false} LatestIsLast(answers: seq<Answer>)
    requires answers != [] && forall i :: 0 <= i < |answers| ==> AnswerOk(answers, i)
    ensures Latest(answers) == answers[|answers| - 1]
  {
    HighestIsLast(answers, |answers|);
    assert answers[..|answers|] == answers;
  }

  lemma {:induction false} HighestIsLast(answers: seq<Answer>, n: nat)
    requires 0 < n <= |answers| && forall i :: 0 <= i < |answers| ==> AnswerOk(answers, i)
    ensures Latest(answers[..n]) == answers[n - 1]
  {
    if n > 1 {
      HighestIsLast(answers, n - 1);
      assert answers[..n][..n - 1] == answers[..n - 1];
      assert AnswerOk(answers, n - 1) && AnswerOk(answers, n - 2);
    }
  }

  /** Under distinct ids only the latest row is rewritten. */
  lemma SetLatest(c: Case, a: Answer)
    requires AnswersInv(c) && c.answers != [] && a.id == Latest(c.answers).id
    ensures Latest(c.answers) == c.answers[|c.answers| - 1]
    ensures SetAnswer(c.answers, a) == c.answers[|c.answers| - 1 := a]
  {
    LatestIsLast(c.answers);
    forall i | 0 <= i < |c.answers| - 1 ensures c.answers[i].id != a.id {
      assert Differ(c.answers, i, |c.answers| - 1);
    }
  }

  lemma FinishClosesLast(c: Case, now: int, ending: Ending)
    requires CyclesInv(c, now)
    ensures FinishAssignment(c.cycles, now, ending) == Closed(c.cycles, now, ending)
  {
    forall i | 0 <= i < |c.cycles| - 1 ensures c.cycles[i].endedAt.Some? {
      assert CycleOk(c.cycles, i + 1, c.createdAt, now);
    }
  }

  function Closed(cycles: seq<Cycle>, now: int, ending: Ending): seq<Cycle> {
    if LastOpen(cycles) then cycles[|cycles| - 1 := cycles[|cycles| - 1].(endedAt := Some(now), ending := ending)] else cycles
  }

  predicate CycleRows(c: Case, cycles: seq<Cycle>, now: int) {
    && (forall i :: 0 <= i < |cycles| ==> CycleOk(cycles, i, c.createdAt, now))
    && (forall i :: 0 <= i < |cycles| ==> PreparedAt(cycles, i, c.submissions))
  }

  ghost predicate DueRows(cycles: seq<Cycle>) { forall i :: 0 <= i < |cycles| ==> DueOk(cycles, i) }

  /** Closing keeps every row in order and leaves none open. */
  lemma ClosingKeepsRows(c: Case, now: int, ending: Ending)
    requires CyclesInv(c, now) && PreparationInv(c, now) && DueRows(c.cycles)
    ensures var cycles := FinishAssignment(c.cycles, now, ending);
            CycleRows(c, cycles, now) && DueRows(cycles) && !LastOpen(cycles) && |cycles| == |c.cycles|
            && (!LastOpen(c.cycles) ==> cycles == c.cycles)
  {
    FinishClosesLast(c, now, ending);
    var cycles := Closed(c.cycles, now, ending);
    forall i | 0 <= i < |cycles|
      ensures CycleOk(cycles, i, c.createdAt, now) && PreparedAt(cycles, i, c.submissions) && DueOk(cycles, i)
    {
      assert CycleOk(c.cycles, i, c.createdAt, now) && PreparedAt(c.cycles, i, c.submissions) && DueOk(c.cycles, i);
    }
  }

  lemma {:induction false} NothingLogged(log: seq<Submission>, cycle: nat)
    requires forall i :: 0 <= i < |log| ==> log[i].cycle < cycle
    ensures FirstIn(log, cycle).None?
  {
    if log != [] { NothingLogged(log[..|log| - 1], cycle); }
  }

  /** Opening after the last ended cycle appends one row with the next number. */
  lemma OpeningKeepsRows(c: Case, group: nat, now: int)
    requires CyclesInv(c, now) && PreparationInv(c, now) && DueRows(c.cycles) && c.createdAt <= now
    requires c.policy == WorkingHours && !LastOpen(c.cycles)
    ensures var started := StartAssignment(c.policy, c.cycles, group, now);
            started.Some? && CycleRows(c, started.value, now) && DueRows(started.value) && LastOpen(started.value)
            && started.value[|started.value| - 1].group == group && |started.value| == |c.cycles| + 1
    ensures var n := |c.cycles| + 1; forall i :: 0 <= i < |c.submissions| ==> LoggedAt(c.submissions, i, n, now)
  {
    var cycles := StartAssignment(c.policy, c.cycles, group, now).value;
    var n := |c.cycles|;
    if n > 0 { assert CycleOk(c.cycles, n - 1, c.createdAt, now); }
    forall i | 0 <= i < n
      ensures CycleOk(cycles, i, c.createdAt, now) && PreparedAt(cycles, i, c.submissions) && DueOk(cycles, i)
    {
      assert CycleOk(c.cycles, i, c.createdAt, now) && PreparedAt(c.cycles, i, c.submissions) && DueOk(c.cycles, i);
    }
    forall i | 0 <= i < |c.submissions|
      ensures c.submissions[i].cycle < n + 1 && LoggedAt(c.submissions, i, n + 1, now)
    {
      assert LoggedAt(c.submissions, i, n, now);
    }
    NothingLogged(c.submissions, n + 1);
    assert CycleOk(cycles, n, c.createdAt, now) && PreparedAt(cycles, n, c.submissions) && DueOk(cycles, n);
  }

  lemma {:induction false} FirstWasLogged(log: seq<Submission>, cycle: nat)
    requires FirstIn(log, cycle).Some?
    ensures exists k :: 0 <= k < |log| && log[k] == FirstIn(log, cycle).value && log[k].cycle == cycle
  {
    var front := log[..|log| - 1];
    if FirstIn(front, cycle).Some? {
      FirstWasLogged(front, cycle);
      var k :| 0 <= k < |front| && front[k] == FirstIn(front, cycle).value && front[k].cycle == cycle;
      assert log[k] == front[k];
    } else {
      assert log[|log| - 1] == FirstIn(log, cycle).value;
    }
  }

  /** The rows of answers, jobs, cycles and delivery stand still. */
  predicate SameRows(c: Case, c': Case) {
    && c'.policy == c.policy && c'.requester == c.requester && c'.createdAt == c.createdAt && c'.deadlineAt == c.deadlineAt
    && c'.answers == c.answers && c'.cycles == c.cycles && c'.submissions == c.submissions && c'.jobs == c.jobs && c'.purged == c.purged
    && c'.sent == c.sent && c'.slaDeliveredAt == c.slaDeliveredAt && c'.overdue == c.overdue
    && c'.redistributions == c.redistributions && c'.revisionReason == c.revisionReason && c'.group == c.group
  }

  /** Cycles, log, deadlines and delivery stand still, and no lease is new. */
  predicate SameClocks(c: Case, c': Case) {
    && c'.policy == c.policy && c'.createdAt == c.createdAt && c'.deadlineAt == c.deadlineAt && c'.group == c.group
    && c'.cycles == c.cycles && c'.submissions == c.submissions && c'.slaDeliveredAt == c.slaDeliveredAt
    && (IsDelivered(c') <==> IsDelivered(c)) && (c.slaDeliveredAt.Some? ==> c'.overdue == c.overdue)
    && (c'.claim == c.claim || c'.claim.None?) && (c'.sectorLease == c.sectorLease || c'.sectorLease.None?)
    && (c'.reviewLease == c.reviewLease || c'.reviewLease.None?)
  }

  lemma ClocksStay(c: Case, c': Case, now: int)
    requires Inv(c, now) && SameClocks(c, c')
    ensures CyclesInv(c', now) && PreparationInv(c', now) && ClockInv(c', now) && LeaseInv(c', now) && LeasesKept(c, c', now)
  {
    hide StageInv, AnswersInv, JobsInv, DeliveryInv, IsDelivered, CycleOk, PreparedAt, LoggedAt, DueRows;
  }

  lemma WorkKeepsAnswers(c: Case, c': Case)
    requires SameRows(c, c') && AnswersInv(c) && JobsInv(c) && DeliveryInv(c)
    requires c'.status == c.status || (Submittable(c.status) && Submittable(c'.status))
    requires c'.status == RevisionRequired ==> c.status == RevisionRequired || OpenStatus(c) == RevisionRequired
    ensures AnswersInv(c') && JobsInv(c') && DeliveryInv(c') && Evolves(c, c')
  {
    hide AnswerOk, Differ, JobOk;
  }

  lemma WorkKeepsCycles(c: Case, c': Case, now: int)
    requires SameRows(c, c') && CyclesInv(c, now) && PreparationInv(c, now) && ClockInv(c, now)
    ensures CyclesInv(c', now) && PreparationInv(c', now) && ClockInv(c', now)
  {
    hide CycleOk, PreparedAt, LoggedAt, DueRows;
  }

  /** A step inside the working stages that touches only the status and the leases. */
  lemma WorkStepGood(c: Case, c': Case, now: int)
    requires Inv(c, now) && SameRows(c, c') && StageInv(c') && LeaseInv(c', now) && LeasesKept(c, c', now)
    requires c'.status == c.status || (Submittable(c.status) && Submittable(c'.status) && Allowed(c.status, c'.status))
    requires c'.status == RevisionRequired ==> c.status == RevisionRequired || OpenStatus(c) == RevisionRequired
    ensures Inv(c', now) && Edge(c, c') && Evolves(c, c')
  {
    hide AnswersInv, JobsInv, DeliveryInv, CyclesInv, PreparationInv, ClockInv, Evolves, SameRows;
    WorkKeepsAnswers(c, c');
    WorkKeepsCycles(c, c', now);
  }

  /** An incident that leaves or enters distribution keeps its answers; its jobs stay or are all dropped. */
  predicate SameAnswers(c: Case, c': Case) {
    && c'.policy == c.policy && c'.requester == c.requester && c'.createdAt == c.createdAt && c'.deadlineAt == c.deadlineAt
    && c'.answers == c.answers && c'.submissions == c.submissions && c'.purged == c.purged && c'.sent == c.sent
    && c'.slaDeliveredAt == c.slaDeliveredAt && (c'.jobs == c.jobs || c'.jobs == map[])
  }

  lemma AnswersStay(c: Case, c': Case)
    requires AnswersInv(c) && JobsInv(c) && DeliveryInv(c) && SameAnswers(c, c') && c.status != Resolved
    requires c'.status == Distribution || c'.status == Rejected || (c'.status == Assigned && OpenStatus(c') != RevisionRequired)
    ensures AnswersInv(c') && JobsInv(c') && DeliveryInv(c') && !IsDelivered(c)
  {
    hide AnswerOk, Differ, JobOk;
  }

  lemma CyclesMove(c: Case, c': Case, now: int)
    requires CyclesInv(c, now) && PreparationInv(c, now) && ClockInv(c, now) && LeaseInv(c, now)
    requires SameAnswers(c, c') && !IsDelivered(c) && DeliveryInv(c)
    requires CycleRows(c, c'.cycles, now) && DueRows(c'.cycles) && |c.cycles| <= |c'.cycles| && (c.policy == Legacy ==> c'.cycles == [])
    requires forall i :: 0 <= i < |c.submissions| ==> LoggedAt(c.submissions, i, |c'.cycles|, now)
    requires c.policy == WorkingHours ==> (LastOpen(c'.cycles) <==> c'.group.Some?)
    requires LastOpen(c'.cycles) ==> c'.group == Some(c'.cycles[|c'.cycles| - 1].group)
    ensures CyclesInv(c', now) && PreparationInv(c', now) && ClockInv(c', now)
  {
    hide CycleOk, PreparedAt, LoggedAt, DueRows;
  }

  lemma LogStays(c: Case, now: int)
    requires PreparationInv(c, now)
    ensures forall i :: 0 <= i < |c.submissions| ==> LoggedAt(c.submissions, i, |c.cycles|, now)
  {
    hide PreparedAt, LoggedAt;
  }

  lemma StillEvolves(c: Case, c': Case)
    requires SameAnswers(c, c') && !IsDelivered(c) && c.redistributions <= c'.redistributions
    ensures Evolves(c, c')
  {
    assert forall i :: 0 <= i < |c.answers| ==> SameText(c.answers, c'.answers, i);
  }

  // ----- Distribution -------------------------------------------------------

  lemma RegisteredInv(policy: Policy, requester: nat, legacyDeadline: int, now: int)
    ensures Inv(Registered(policy, requester, legacyDeadline, now), now)
  {
  }

  lemma ClaimDistributionGood(c: Case, user: nat, own: bool, now: int)
    requires Inv(c, now) && (own ==> LiveFor(c.claim, now)) && (!own ==> LiveFor(c.claim, now) ==> c.claim.value.user != user)
    ensures Good(c, ClaimDistribution(c, user, own, now), now)
  {
    hide AnswersInv, JobsInv, DeliveryInv, CyclesInv, PreparationInv, ClockInv, Evolves;
    var step := ClaimDistribution(c, user, own, now);
    if step.Done? { WorkStepGood(c, step.c, now); }
  }

  lemma ReleaseDistributionGood(c: Case, user: nat, now: int)
    requires Inv(c, now)
    ensures Good(c, ReleaseDistribution(c, user), now)
    ensures Good(c, SweepDistribution(c, now), now)
  {
    hide AnswersInv, JobsInv, DeliveryInv, CyclesInv, PreparationInv, ClockInv, Evolves;
    if ReleaseDistribution(c, user).Done? { WorkStepGood(c, ReleaseDistribution(c, user).c, now); }
    if SweepDistribution(c, now).Done? { WorkStepGood(c, SweepDistribution(c, now).c, now); }
  }

  lemma NoneWithoutPolicy(c: Case, now: int, ending: Ending)
    requires CyclesInv(c, now) && c.policy == Legacy
    ensures FinishAssignment(c.cycles, now, ending) == []
  {
  }

  /** An incident in distribution has no open cycle, so the assignment opens the next one under the policy. */
  lemma AssignmentOpens(c: Case, group: nat, now: int)
    requires CyclesInv(c, now) && PreparationInv(c, now) && DueRows(c.cycles) && c.createdAt <= now && c.group.None?
    ensures var started := StartAssignment(c.policy, c.cycles, group, now);
            && started.Some? && CycleRows(c, started.value, now) && DueRows(started.value) && |c.cycles| <= |started.value|
            && (forall i :: 0 <= i < |c.submissions| ==> LoggedAt(c.submissions, i, |started.value|, now))
            && (c.policy == Legacy ==> started.value == [])
            && (c.policy == WorkingHours ==> LastOpen(started.value) && started.value[|started.value| - 1].group == group)
  {
    hide CycleOk, PreparedAt, LoggedAt, DueOk;
    LogStays(c, now);
    if c.policy == WorkingHours { OpeningKeepsRows(c, group, now); }
  }

  lemma AssignGood(c: Case, before: Case, user: nat, group: nat, now: int)
    requires Inv(c, now) && Evolves(before, c)
    ensures Good(c, Assign(c, before, user, group, now), now)
    ensures Assign(c, before, user, group, now) != Refused(CycleStillOpen)
  {
    hide AnswersInv, JobsInv, DeliveryInv, CyclesInv, PreparationInv, CycleRows, DueRows, LoggedAt, StartAssignment, FinishAssignment;
    var step := Assign(c, before, user, group, now);
    if step != Refused(Conflict) {
      AssignmentOpens(c, group, now);
      AnswersStay(c, step.c);
      CyclesMove(c, step.c, now);
      StillEvolves(c, step.c);
    }
  }

  lemma RejectGood(c: Case, before: Case, user: nat, now: int)
    requires Inv(c, now)
    ensures Good(c, Reject(c, before, user, now), now)
  {
    hide AnswersInv, JobsInv, DeliveryInv, CyclesInv, PreparationInv, CycleRows, DueRows, LoggedAt, FinishAssignment;
    var step := Reject(c, before, user, now);
    if step.Done? {
      AnswersStay(c, step.c);
      ClosingKeepsRows(c, now, Dropped);
      if c.policy == Legacy { NoneWithoutPolicy(c, now, Dropped); }
      LogStays(c, now);
      CyclesMove(c, step.c, now);
      StillEvolves(c, step.c);
    }
  }

  // ----- Sector -------------------------------------------------------------

  lemma TakeInWorkGood(c: Case, user: nat, now: int)
    requires Inv(c, now)
    ensures Good(c, TakeInWork(c, user, now), now)
  {
    hide AnswersInv, JobsInv, DeliveryInv, CyclesInv, PreparationInv, ClockInv, Evolves;
    var step := TakeInWork(c, user, now);
    if step.Done? { WorkStepGood(c, step.c, now); }
  }

  lemma ReleaseSectorGood(c: Case, user: nat, now: int)
    requires Inv(c, now)
    ensures Good(c, ReleaseSector(c, user, now), now)
  {
    hide AnswersInv, JobsInv, DeliveryInv, CyclesInv, PreparationInv, ClockInv, Evolves;
    var step := ReleaseSector(c, user, now);
    if step.Done? { WorkStepGood(c, step.c, now); }
  }

  lemma SweepSectorGood(c: Case, until: int, now: int)
    requires Inv(c, now)
    ensures Good(c, SweepSector(c, until), now)
  {
    hide AnswersInv, JobsInv, DeliveryInv, CyclesInv, PreparationInv, ClockInv, Evolves;
    var step := SweepSector(c, until);
    if step.Done? { WorkStepGood(c, step.c, now); }
  }

  lemma ReturnGood(c: Case, user: nat, now: int)
    requires Inv(c, now)
    ensures Good(c, ReturnToDistribution(c, user, now), now)
  {
    hide AnswersInv, JobsInv, DeliveryInv, CyclesInv, PreparationInv, CycleRows, DueRows, LoggedAt, FinishAssignment;
    var step := ReturnToDistribution(c, user, now);
    if step.Done? {
      AnswersStay(c, step.c);
      ClosingKeepsRows(c, now, Returned);
      if c.policy == Legacy { NoneWithoutPolicy(c, now, Returned); }
      LogStays(c, now);
      CyclesMove(c, step.c, now);
      StillEvolves(c, step.c);
    }
  }
}
