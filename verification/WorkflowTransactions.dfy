/** The transactions that query or rewrite several rows, with the rows changed one after another as the services
  * change them. Each is its function of `Incident`, and promises what a caller may rely on. */
module WorkflowTransactions {
  import opened Incident
  import opened IncidentInvariants
  import opened WorkflowRows
  import opened Wrappers

  /** Everything about an incident's answers, deliveries and log stands still. */
  predicate SameHistory(c: Case, c': Case) {
    && c'.answers == c.answers && c'.submissions == c.submissions && c'.sent == c.sent && c'.deadlineAt == c.deadlineAt
    && c'.slaDeliveredAt == c.slaDeliveredAt && c'.overdue == c.overdue && c'.purged == c.purged
  }

  predicate NothingHeld(c: Case) { c.claim.None? && c.sectorLease.None? && c.reviewLease.None? }

  predicate AllEnded(cycles: seq<Cycle>) { forall i :: 0 <= i < |cycles| ==> cycles[i].endedAt.Some? }

  // ----- src/distribution/distribution.service.ts ---------------------------

  method AssignGroup(row: Case, before: Case, user: nat, group: nat, now: int) returns (step: Step)
    ensures step == Assign(row, before, user, group, now)
    ensures step != Refused(Conflict) <==>
              before.status == Distribution && row.status == Distribution && !HeldByOther(row.claim, user, now)
    ensures step.Done? ==>
              && Allowed(row.status, step.c.status) && step.c.group == Some(group) && step.c.claim.None?
              && SameHistory(row, step.c) && row.cycles <= step.c.cycles && step.c.jobs == row.jobs
    ensures step.Done? && before.policy == WorkingHours ==> |step.c.cycles| == |row.cycles| + 1 && LastOpen(step.c.cycles)
  {
    if before.status != Distribution { return Refused(Conflict); }
    if HeldByOther(row.claim, user, now) || row.status != Distribution { return Refused(Conflict); }
    var c := row.(status := Assigned, group := Some(group));
    c := c.(claim := None);
    var started := StartCycle(before.policy, c.cycles, group, now);
    match started {
      case None => return Refused(CycleStillOpen);
      case Some(cycles) =>
        c := c.(cycles := cycles);
        return Done(c);
    }
  }

  method RejectIncident(row: Case, before: Case, user: nat, now: int) returns (step: Step)
    ensures step == Reject(row, before, user, now)
    ensures step.Done? <==> before.status == Distribution && row.status == Distribution && !HeldByOther(row.claim, user, now)
    ensures step.Done? ==>
              && Allowed(row.status, step.c.status) && (forall s :: !Allowed(step.c.status, s))
              && SameHistory(row, step.c) && step.c.claim.None? && step.c.jobs == map[] && AllEnded(step.c.cycles)
  {
    if before.status != Distribution { return Refused(Conflict); }
    if HeldByOther(row.claim, user, now) || row.status != Distribution { return Refused(Conflict); }
    var c := row.(status := Rejected, claim := None);
    c := c.(jobs := map[]);
    var cycles := FinishCycles(c.cycles, now, Dropped);
    c := c.(cycles := cycles);
    return Done(c);
  }

  // ----- src/sector/sector.service.ts ---------------------------------------

  method ReturnIncident(row: Case, user: nat, now: int) returns (step: Step)
    ensures step == ReturnToDistribution(row, user, now)
    ensures step.Done? <==> Submittable(row.status) && !HeldByOther(row.sectorLease, user, now)
    ensures step.Done? ==>
              && Allowed(row.status, step.c.status) && SameHistory(row, step.c) && step.c.jobs == row.jobs
              && NothingHeld(step.c) && step.c.group.None? && step.c.responder.None? && AllEnded(step.c.cycles)
              && step.c.redistributions == row.redistributions + 1
  {
    if HeldByOther(row.sectorLease, user, now) { return Refused(Conflict); }
    if !Submittable(row.status) { return Refused(Conflict); }
    if !Allowed(row.status, Distribution) { return Refused(Conflict); }
    var cycles := FinishCycles(row.cycles, now, Returned);
    var c := row.(cycles := cycles, redistributions := row.redistributions + 1);
    c := c.(status := Distribution, group := None, responder := None, revisionReason := None);
    c := c.(claim := None);
    c := c.(sectorLease := None, reviewLease := None);
    return Done(c);
  }

  // ----- src/answers/answer.service.ts --------------------------------------

  /** The answers with a version above all of them, and nothing else touched. */
  predicate VersionAdded(answers: seq<Answer>, answers': seq<Answer>, body: Body) {
    && |answers'| == |answers| + 1 && answers'[..|answers|] == answers && answers'[|answers|].body == body
    && forall i :: 0 <= i < |answers| ==> answers[i].version < answers'[|answers|].version
  }

  /** A new version of the user, whose job is queued beside the jobs there were. */
  predicate Answered(row: Case, c: Case, direct: bool, user: nat, answer: nat, body: Body) {
    && Allowed(row.status, c.status) && c.sectorLease.None? && c.responder == Some(user)
    && VersionAdded(row.answers, c.answers, body)
    && (if direct then AnswerJob(answer) else ReviewJob(answer)) in c.jobs
    && (forall k :: k in row.jobs ==> k in c.jobs && c.jobs[k] == row.jobs[k])
    && (row.policy == WorkingHours ==> |c.submissions| == |row.submissions| + 1)
  }

  lemma {:induction false} LatestIsHighest(answers: seq<Answer>, i: nat)
    requires i < |answers|
    ensures answers[i].version <= Latest(answers).version
  {
    if i < |answers| - 1 { LatestIsHighest(answers[..|answers| - 1], i); }
  }

  lemma SubmitAnswers(row: Case, before: Case, direct: bool, user: nat, answer: nat, body: Body, now: int)
    requires Submit(row, before, direct, user, answer, body, now).Done?
    ensures Answered(row, Submit(row, before, direct, user, answer, body, now).c, direct, user, answer, body)
  {
    hide Latest;
    forall i | 0 <= i < |row.answers| ensures row.answers[i].version <= Latest(row.answers).version { LatestIsHighest(row.answers, i); }
  }

  method SubmitAnswer(row: Case, before: Case, direct: bool, user: nat, answer: nat, body: Body, now: int) returns (step: Step)
    requires OnlyLastOpen(row.cycles)
    ensures step == Submit(row, before, direct, user, answer, body, now)
    ensures step != Refused(Conflict) <==>
              && Submittable(before.status) && Submittable(row.status) && !HeldByOther(row.sectorLease, user, now)
              && row.group == before.group && row.redistributions == before.redistributions
    ensures step.Done? ==> Answered(row, step.c, direct, user, answer, body)
  {
    hide Answered, Latest, RecordPreparation;
    if Submit(row, before, direct, user, answer, body, now).Done? { SubmitAnswers(row, before, direct, user, answer, body, now); }
    if !Submittable(before.status) { return Refused(Conflict); }
    var target := if direct then Resolved else WaitingReview;
    if !Allowed(before.status, target) { return Refused(Conflict); }
    if !Submittable(row.status) { return Refused(Conflict); }
    if HeldByOther(row.sectorLease, user, now) { return Refused(Conflict); }
    if row.group != before.group || row.redistributions != before.redistributions { return Refused(Conflict); }
    var version := 1;
    if row.answers != [] {
      var latest := LatestAnswer(row.answers);
      version := latest.version + 1;
    }
    var c := row.(answers := row.answers + [Answer(answer, version, body, if direct then Approved else AwaitingReview, None)]);
    c := c.(status := target, responder := Some(user));
    c := c.(sectorLease := None);
    c := QueueAnswer(c, answer, direct);
    var recorded := RecordSubmission(c, answer, now);
    match recorded {
      case None => return Refused(CycleMissing);
      case Some(prepared) => return Done(StaffRefresh(prepared));
    }
  }

  /** Every row but the latest stands still. */
  predicate OnlyLatestChanged(answers: seq<Answer>, answers': seq<Answer>, verdict: AnswerStatus)
    requires answers != []
  {
    && |answers'| == |answers|
    && (forall i :: 0 <= i < |answers| && answers[i].id != Latest(answers).id ==> answers'[i] == answers[i])
    && (forall i :: 0 <= i < |answers| && answers[i].id == Latest(answers).id ==> answers'[i] == Latest(answers).(status := verdict))
  }

  method ReopenForPhotos(row: Case, from: Option<nat>, key: JobKey, now: int) returns (step: Step)
    ensures step == RepairPhoto(row, from, key, now)
    ensures step.Done? ==>
              && from.Some? && row.group == from && key in row.jobs && row.jobs[key].error == PhotoUnavailable
              && row.answers != [] && Latest(row.answers).deliveredAt.None? && OnlyLatestChanged(row.answers, step.c.answers, Revision)
              && (row.status == Resolved || Allowed(row.status, step.c.status)) && step.c.reviewLease.None?
              && step.c.jobs.Keys == row.jobs.Keys && (forall k :: k in row.jobs && k != key ==> step.c.jobs[k] == row.jobs[k])
              && key in step.c.jobs && step.c.jobs[key].superseded && step.c.jobs[key].status == Failed
  {
    hide Latest;
    if from.None? || row.group != from { return Refused(Conflict); }
    if key !in row.jobs || row.answers == [] { return Refused(Conflict); }
    var answer := LatestAnswer(row.answers);
    var failed := row.jobs[key];
    if key.answer != answer.id || failed.status != Failed || failed.error != PhotoUnavailable || answer.deliveredAt.Some?
       || (row.status != Resolved && row.status != WaitingReview) { return Refused(Conflict); }
    var c := row.(jobs := row.jobs[key := failed.(superseded := true, error := Superseded)]);
    c := c.(status := RevisionRequired, revisionReason := Some("photo unavailable"), overdue := c.deadlineAt <= now);
    var answers := UpdateAnswer(c.answers, answer.(status := Revision));
    c := c.(answers := answers);
    return Done(StaffRefresh(c));
  }

  // ----- src/review/review.service.ts ---------------------------------------

  /** What approval and revision both check before they write. */
  method CheckVerdict(row: Case, before: Case, user: nat, editing: bool, now: int) returns (ok: bool)
    ensures ok <==> !HeldByOther(row.reviewLease, user, now) && !editing && StillLatest(row, before)
  {
    if before.status != WaitingReview || before.answers == [] { return false; }
    var expected := LatestAnswer(before.answers);
    if HeldByOther(row.reviewLease, user, now) || editing { return false; }
    if row.status != WaitingReview || row.answers == [] { return false; }
    var latest := LatestAnswer(row.answers);
    return latest.id == expected.id && latest.status == AwaitingReview;
  }

  method ApproveAnswer(row: Case, before: Case, user: nat, editing: bool, now: int) returns (step: Step)
    ensures step == Approve(row, before, user, editing, now)
    ensures step.Done? <==> !HeldByOther(row.reviewLease, user, now) && !editing && StillLatest(row, before)
    ensures step.Done? ==>
              && Allowed(row.status, step.c.status) && step.c.reviewLease.None?
              && OnlyLatestChanged(row.answers, step.c.answers, Approved)
              && AnswerJob(Latest(row.answers).id) in step.c.jobs
              && (forall k :: k in row.jobs ==> k in step.c.jobs && step.c.jobs[k] == row.jobs[k])
  {
    var ok := CheckVerdict(row, before, user, editing, now);
    if !ok { return Refused(Conflict); }
    var answer := LatestAnswer(row.answers);
    var c := row.(status := Resolved);
    var answers := UpdateAnswer(c.answers, answer.(status := Approved));
    c := c.(answers := answers);
    c := QueueAnswer(c, answer.id, true);
    return Done(StaffRefresh(c));
  }

  method ReviseAnswer(row: Case, before: Case, user: nat, reason: string, editing: bool, now: int) returns (step: Step)
    ensures step == RequestRevision(row, before, user, reason, editing, now)
    ensures step.Done? <==> !HeldByOther(row.reviewLease, user, now) && !editing && StillLatest(row, before)
    ensures step.Done? ==>
              && Allowed(row.status, step.c.status) && step.c.reviewLease.None? && step.c.jobs == row.jobs
              && OnlyLatestChanged(row.answers, step.c.answers, Revision) && step.c.revisionReason == Some(reason)
  {
    var ok := CheckVerdict(row, before, user, editing, now);
    if !ok { return Refused(Conflict); }
    var answer := LatestAnswer(row.answers);
    var c := row.(status := RevisionRequired, revisionReason := Some(reason));
    var answers := UpdateAnswer(c.answers, answer.(status := Revision));
    c := c.(answers := answers);
    return Done(StaffRefresh(c));
  }

  method CorrectAnswer(row: Case, user: nat, leaseUntil: int, expected: nat, answer: nat, text: string, now: int) returns (step: Step)
    ensures step == SaveCorrection(row, user, leaseUntil, expected, answer, text, now)
    ensures step.Done? ==>
              && row.reviewLease == Some(Lease(user, leaseUntil)) && LiveFor(row.reviewLease, now)
              && step.c.status == row.status && step.c.reviewLease == row.reviewLease
              && VersionAdded(row.answers, step.c.answers, Body(text, Latest(row.answers).body.media))
              && ReviewJob(answer) in step.c.jobs
  {
    if row.reviewLease != Some(Lease(user, leaseUntil)) || leaseUntil <= now { return Refused(Conflict); }
    if row.status != WaitingReview || row.answers == [] { return Refused(Conflict); }
    var previous := LatestAnswer(row.answers);
    if previous.id != expected || previous.status != AwaitingReview { return Refused(Conflict); }
    var copy := Body(text, previous.body.media);
    var c := row.(answers := row.answers + [Answer(answer, previous.version + 1, copy, AwaitingReview, None)]);
    c := QueueAnswer(c, answer, false);
    return Done(StaffRefresh(c));
  }

  // ----- src/max/max-message.service.ts, the answer's own jobs --------------

  method ResendAnswer(row: Case, answer: nat) returns (step: Step)
    ensures step == Resend(row, answer)
    ensures step.Done? && step.c != row ==>
              && row.status == Resolved && Latest(row.answers).deliveredAt.None? && AnswerJob(answer) in row.jobs
              && row.jobs[AnswerJob(answer)].target == User(row.requester) && !row.jobs[AnswerJob(answer)].superseded
              && step.c == row.(jobs := step.c.jobs)
  {
    if row.status != Resolved || row.answers == [] { return Refused(Conflict); }
    var latest := LatestAnswer(row.answers);
    if latest.id != answer || latest.status != Approved { return Refused(Conflict); }
    if latest.deliveredAt.Some? { return Done(row); }
    var key := AnswerJob(answer);
    if key !in row.jobs || row.jobs[key].status != Failed { return Done(row); }
    var job := row.jobs[key];
    if job.target != User(row.requester) || job.superseded { return Refused(Conflict); }
    job := job.(status := Pending, attempts := 0, lockedAt := None);
    return Done(row.(jobs := row.jobs[key := job]));
  }

  method CompleteAnswerJob(row: Case, key: JobKey, attempts: int, lockedAt: int, now: int) returns (step: Step)
    ensures step == CompleteJob(row, key, attempts, lockedAt, now)
    ensures step.Done? <==> key in row.jobs && Owns(row.jobs[key], attempts, lockedAt)
    ensures step.Done? ==>
              && key in step.c.jobs && step.c.jobs[key].status == Sent && step.c.status == row.status
              && (key.AnswerJob? && CurrentAnswer(row, key.answer, row.jobs[key].target) <==> step.c.sent != row.sent)
              && (step.c.sent == row.sent ==> step.c.answers == row.answers && step.c.cycles == row.cycles)
  {
    if key !in row.jobs || !Owns(row.jobs[key], attempts, lockedAt) { return Refused(Conflict); }
    var job := row.jobs[key].(status := Sent, lockedAt := None, error := NoError);
    job := job.(trackingApplied := true);
    var c := row.(jobs := row.jobs[key := job]);
    if key.ReviewJob? { return Done(StaffRefresh(c)); }
    var current := false;
    if c.answers != [] {
      var latest := LatestAnswer(c.answers);
      current := c.status == Resolved && latest.id == key.answer && latest.status == Approved
                 && job.target == User(c.requester) && latest.deliveredAt.None?;
      if current {
        var answers := UpdateAnswer(c.answers, latest.(deliveredAt := Some(now)));
        c := c.(answers := answers, sent := c.sent + [Receipt(key.answer, job.target)]);
      }
    }
    if !current {
      job := job.(trackingApplied := false, error := OtherError);
      c := c.(jobs := c.jobs[key := job]);
      assert c.jobs == row.jobs[key := job];
      return Done(c);
    }
    assert |c.sent| == |row.sent| + 1;
    c := RecordPolicyDelivery(c, now);
    return Done(StaffRefresh(c));
  }
}
