/** Submission, review, correction, repair and delivery keep the incident's invariant. */
module AnswerInvariants {
  import opened Incident
  import opened IncidentInvariants
  import opened Wrappers
  import WorkingTime

  // ----- Rows of answers and jobs -------------------------------------------

  predicate AnswerRows(answers: seq<Answer>) {
    && (forall i :: 0 <= i < |answers| ==> AnswerOk(answers, i))
    && (forall i, j :: 0 <= i < j < |answers| ==> Differ(answers, i, j))
  }

  predicate JobRows(answers: seq<Answer>, requester: nat, jobs: map<JobKey, Job>) {
    forall k :: k in jobs ==> JobOk(answers, requester, k, jobs[k])
  }

  /** A new version extends the rows; nothing in them was delivered. */
  lemma AppendRow(answers: seq<Answer>, row: Answer, requester: nat, jobs: map<JobKey, Job>)
    requires AnswerRows(answers) && JobRows(answers, requester, jobs) && !LastDelivered(answers)
    requires answers != [] ==> answers[|answers| - 1].status != Approved
    requires row.version == |answers| + 1 && row.deliveredAt.None? && !HasAnswer(answers, row.id)
    ensures AnswerRows(answers + [row]) && JobRows(answers + [row], requester, jobs)
    ensures HasAnswer(answers + [row], row.id) && !LastDelivered(answers + [row])
    ensures forall i :: 0 <= i < |answers| ==> SameText(answers, answers + [row], i)
  {
    var rows := answers + [row];
    forall i | 0 <= i < |rows| ensures AnswerOk(rows, i) {
      if i < |answers| { assert AnswerOk(answers, i); }
    }
    forall i, j | 0 <= i < j < |rows| ensures Differ(rows, i, j) {
      if j < |answers| { assert Differ(answers, i, j); }
    }
    assert rows[|answers|].id == row.id;
    forall k | k in jobs ensures JobOk(rows, requester, k, jobs[k]) {
      assert JobOk(answers, requester, k, jobs[k]);
      var i :| 0 <= i < |answers| && answers[i].id == k.answer;
      assert rows[i].id == k.answer;
    }
  }

  /** Rewriting the latest row's status or delivery leaves ids, versions and texts. */
  lemma RewriteRow(answers: seq<Answer>, row: Answer, requester: nat, jobs: map<JobKey, Job>)
    requires answers != [] && AnswerRows(answers) && JobRows(answers, requester, jobs) && !LastDelivered(answers)
    requires var last := answers[|answers| - 1]; row.id == last.id && row.version == last.version && row.body == last.body
    requires row.deliveredAt.Some? ==> row.status == Approved
    ensures var rows := answers[|answers| - 1 := row];
            && AnswerRows(rows) && JobRows(rows, requester, jobs)
            && (forall i :: 0 <= i < |answers| ==> SameText(answers, rows, i))
  {
    var rows := answers[|answers| - 1 := row];
    forall i | 0 <= i < |rows| ensures AnswerOk(rows, i) { assert AnswerOk(answers, i); }
    forall i, j | 0 <= i < j < |rows| ensures Differ(rows, i, j) { assert Differ(answers, i, j); }
    forall k | k in jobs ensures JobOk(rows, requester, k, jobs[k]) {
      assert JobOk(answers, requester, k, jobs[k]);
      var i :| 0 <= i < |answers| && answers[i].id == k.answer;
      assert rows[i].id == k.answer;
    }
  }

  /** A new version has no jobs yet, and the one queued for it fits. */
  lemma NewJob(answers: seq<Answer>, rows: seq<Answer>, requester: nat, jobs: map<JobKey, Job>, key: JobKey, target: Target)
    requires JobRows(answers, requester, jobs) && JobRows(rows, requester, jobs)
    requires !HasAnswer(answers, key.answer) && HasAnswer(rows, key.answer) && (key.AnswerJob? ==> target == User(requester))
    ensures AnswerJob(key.answer) !in jobs && ReviewJob(key.answer) !in jobs
    ensures JobRows(rows, requester, Enqueue(jobs, key, target))
  {
    assert forall k :: k in jobs ==> HasAnswer(answers, k.answer);
  }

  // ----- Submission ---------------------------------------------------------

  lemma RecordedLog(c: Case, answer: nat, at: int)
    requires PreparationInv(c, at) && c.cycles != []
    ensures var n := |c.cycles| - 1;
            var log := c.submissions + [Submission(c.cycles[n].sequence, answer, at)];
            c.cycles[n].sequence <= n + 1 ==> forall i :: 0 <= i < |log| ==> LoggedAt(log, i, |c.cycles|, at)
  {
    hide PreparedAt;
    var n := |c.cycles| - 1;
    var log := c.submissions + [Submission(c.cycles[n].sequence, answer, at)];
    if c.cycles[n].sequence <= n + 1 {
      forall i | 0 <= i < |log| ensures LoggedAt(log, i, |c.cycles|, at) {
        if i < |c.submissions| { assert LoggedAt(c.submissions, i, |c.cycles|, at); }
        else if i > 0 { assert LoggedAt(c.submissions, i - 1, |c.cycles|, at); }
      }
    }
  }

  lemma RecordedRow(c: Case, answer: nat, at: int, i: nat)
    requires CyclesInv(c, at) && PreparationInv(c, at) && DueRows(c.cycles) && LastOpen(c.cycles) && c.policy == WorkingHours
    requires i < |c.cycles|
    ensures var r := RecordPreparation(c, answer, at);
            && r.Some? && i < |r.value.cycles|
            && CycleOk(r.value.cycles, i, c.createdAt, at) && DueOk(r.value.cycles, i)
            && PreparedAt(r.value.cycles, i, r.value.submissions)
  {
    hide LoggedAt;
    var r, n := RecordPreparation(c, answer, at).value, |c.cycles| - 1;
    assert r.submissions[..|r.submissions| - 1] == c.submissions;
    assert CycleOk(c.cycles, i, c.createdAt, at) && DueOk(c.cycles, i) && PreparedAt(c.cycles, i, c.submissions);
    assert CycleOk(c.cycles, n, c.createdAt, at);
  }

  lemma RecordedMark(c: Case, answer: nat, at: int)
    requires CyclesInv(c, at) && PreparationInv(c, at) && DueRows(c.cycles) && LastOpen(c.cycles) && c.policy == WorkingHours
    ensures var r := RecordPreparation(c, answer, at);
            && r.Some? && CycleRows(r.value, r.value.cycles, at) && PreparationInv(r.value, at) && DueRows(r.value.cycles)
            && |r.value.cycles| == |c.cycles| && LastOpen(r.value.cycles)
            && r.value.cycles[|c.cycles| - 1].group == c.cycles[|c.cycles| - 1].group
  {
    hide LoggedAt, PreparedAt, DueOk;
    var r := RecordPreparation(c, answer, at).value;
    assert CycleOk(c.cycles, |c.cycles| - 1, c.createdAt, at);
    RecordedLog(c, answer, at);
    forall i | 0 <= i < |r.cycles|
      ensures CycleOk(r.cycles, i, c.createdAt, at) && DueOk(r.cycles, i) && PreparedAt(r.cycles, i, r.submissions)
    {
      RecordedRow(c, answer, at, i);
    }
  }

  /** Recording a submission in the open cycle keeps the rows; only a first one sets the mark. */
  lemma RecordingKeepsRows(c: Case, answer: nat, at: int)
    requires CyclesInv(c, at) && PreparationInv(c, at) && DueRows(c.cycles) && c.group.Some? && !IsDelivered(c)
    ensures var r := RecordPreparation(c, answer, at);
            && r.Some?
            && r.value == c.(cycles := r.value.cycles, submissions := r.value.submissions)
            && CycleRows(r.value, r.value.cycles, at) && PreparationInv(r.value, at) && DueRows(r.value.cycles)
            && |r.value.cycles| == |c.cycles| && (LastOpen(r.value.cycles) <==> LastOpen(c.cycles))
            && (c.cycles != [] ==> r.value.cycles[|c.cycles| - 1].group == c.cycles[|c.cycles| - 1].group)
  {
    if c.policy == WorkingHours { RecordedMark(c, answer, at); }
  }

  function NextVersion(c: Case): nat {
    if c.answers == [] then 1 else Latest(c.answers).version + 1
  }

  function SubmittedRow(c: Case, direct: bool, answer: nat, body: Body): Answer {
    Answer(answer, NextVersion(c), body, if direct then Approved else AwaitingReview, None)
  }

  /** The incident with the new version stored and its job queued. */
  function Moved(c: Case, direct: bool, user: nat, answer: nat, body: Body): Case {
    QueueAnswer(c.(answers := c.answers + [SubmittedRow(c, direct, answer, body)],
      status := if direct then Resolved else WaitingReview, responder := Some(user), sectorLease := None), answer, direct)
  }

  lemma SubmittedRowFits(c: Case, direct: bool, answer: nat, body: Body, now: int)
    requires Inv(c, now) && Submittable(c.status) && !HasAnswer(c.answers, answer)
    ensures var rows := c.answers + [SubmittedRow(c, direct, answer, body)];
            && AnswerRows(rows) && JobRows(rows, c.requester, c.jobs) && HasAnswer(rows, answer) && !LastDelivered(rows)
            && (forall i :: 0 <= i < |c.answers| ==> SameText(c.answers, rows, i))
  {
    if c.answers != [] {
      LatestIsLast(c.answers);
      assert AnswerOk(c.answers, |c.answers| - 1);
    }
    AppendRow(c.answers, SubmittedRow(c, direct, answer, body), c.requester, c.jobs);
  }

  lemma MovedAnswers(c: Case, direct: bool, user: nat, answer: nat, body: Body, now: int)
    requires Inv(c, now) && Submittable(c.status) && !HasAnswer(c.answers, answer)
    ensures var m := Moved(c, direct, user, answer, body); AnswersInv(m) && JobsInv(m)
  {
    hide StageInv, DeliveryInv, CyclesInv, PreparationInv, ClockInv, LeaseInv, AnswerOk, Differ, JobOk, SameText;
    SubmittedRowFits(c, direct, answer, body, now);
    NewJob(c.answers, c.answers + [SubmittedRow(c, direct, answer, body)], c.requester, c.jobs,
           if direct then AnswerJob(answer) else ReviewJob(answer), if direct then User(c.requester) else ReviewChat);
  }

  lemma MovedRows(c: Case, direct: bool, user: nat, answer: nat, body: Body, now: int)
    requires Inv(c, now) && Submittable(c.status) && !HasAnswer(c.answers, answer)
    ensures var m := Moved(c, direct, user, answer, body);
            && StageInv(m) && AnswersInv(m) && JobsInv(m) && DeliveryInv(m) && CyclesInv(m, now) && PreparationInv(m, now)
            && (forall i :: 0 <= i < |c.answers| ==> SameText(c.answers, m.answers, i))
  {
    hide CyclesInv, PreparationInv, ClockInv, LeaseInv, LeasesKept, AnswersInv, JobsInv, AnswerRows, JobRows, SameText, Enqueue;
    SubmittedRowFits(c, direct, answer, body, now);
    MovedAnswers(c, direct, user, answer, body, now);
    ClocksStay(c, Moved(c, direct, user, answer, body), now);
  }

  lemma PreparedInv(m: Case, r: Case, now: int)
    requires StageInv(m) && AnswersInv(m) && JobsInv(m) && DeliveryInv(m) && CyclesInv(m, now)
    requires r == m.(cycles := r.cycles, submissions := r.submissions) && |r.cycles| == |m.cycles|
    requires CycleRows(r, r.cycles, now) && PreparationInv(r, now) && DueRows(r.cycles)
    requires LastOpen(r.cycles) <==> LastOpen(m.cycles)
    requires m.cycles != [] ==> r.cycles[|m.cycles| - 1].group == m.cycles[|m.cycles| - 1].group
    ensures StageInv(r) && AnswersInv(r) && JobsInv(r) && DeliveryInv(r) && CyclesInv(r, now) && PreparationInv(r, now)
  {
  }

  lemma SubmittedInv(c: Case, direct: bool, user: nat, answer: nat, body: Body, now: int)
    requires Inv(c, now) && Submittable(c.status) && !HasAnswer(c.answers, answer)
    ensures var r := RecordPreparation(Moved(c, direct, user, answer, body), answer, now);
            && r.Some?
            && Inv(r.value, now) && Evolves(c, r.value)
            && r.value == Moved(c, direct, user, answer, body).(cycles := r.value.cycles, submissions := r.value.submissions)
  {
    var m := Moved(c, direct, user, answer, body);
    MovedRows(c, direct, user, answer, body, now);
    RecordingKeepsRows(m, answer, now);
    PreparedInv(m, RecordPreparation(m, answer, now).value, now);
  }

  lemma SubmitGood(c: Case, before: Case, direct: bool, user: nat, answer: nat, body: Body, now: int)
    requires Inv(c, now) && !HasAnswer(c.answers, answer)
    ensures Good(c, Submit(c, before, direct, user, answer, body, now), now)
    ensures Submit(c, before, direct, user, answer, body, now) != Refused(CycleMissing)
  {
    var step := Submit(c, before, direct, user, answer, body, now);
    if step != Refused(Conflict) {
      SubmittedInv(c, direct, user, answer, body, now);
      var r := RecordPreparation(Moved(c, direct, user, answer, body), answer, now).value;
      assert StaffRefresh(r) == r;
      assert step == Done(r);
    }
  }

  // ----- Review -------------------------------------------------------------

  lemma ReviewLeaseGood(c: Case, user: nat, now: int)
    requires Inv(c, now)
    ensures Good(c, ClaimReview(c, user, now), now)
    ensures Good(c, ReleaseReview(c, user), now)
    ensures Good(c, SweepReview(c, now), now)
  {
    hide AnswersInv, JobsInv, DeliveryInv, CyclesInv, PreparationInv, ClockInv, Evolves;
    if ClaimReview(c, user, now).Done? { WorkStepGood(c, ClaimReview(c, user, now).c, now); }
    if ReleaseReview(c, user).Done? { WorkStepGood(c, ReleaseReview(c, user).c, now); }
    if SweepReview(c, now).Done? { WorkStepGood(c, SweepReview(c, now).c, now); }
  }

  /** The judgement on the latest answer: it leaves review with its new status and these jobs. */
  function Judged(c: Case, status: Status, verdict: AnswerStatus, reason: Option<string>, jobs: map<JobKey, Job>): Case
    requires c.answers != []
  {
    var n := |c.answers| - 1;
    c.(status := status, reviewLease := None, revisionReason := reason, answers := c.answers[n := c.answers[n].(status := verdict)],
       jobs := jobs)
  }

  lemma JudgedInv(c: Case, status: Status, verdict: AnswerStatus, reason: Option<string>, jobs: map<JobKey, Job>, now: int)
    requires Inv(c, now) && c.answers != [] && !IsDelivered(c) && (c.status == WaitingReview || c.status == Resolved)
    requires (status == Resolved && verdict == Approved && reason == c.revisionReason)
          || (status == RevisionRequired && verdict == Revision && reason.Some?)
    requires JobRows(c.answers, c.requester, jobs)
    requires status == Resolved ==> var k := AnswerJob(c.answers[|c.answers| - 1].id); k in jobs && jobs[k].status != Sent
    ensures Inv(Judged(c, status, verdict, reason, jobs), now) && Evolves(c, Judged(c, status, verdict, reason, jobs))
  {
    hide CyclesInv, PreparationInv, ClockInv, LeaseInv, LeasesKept, AnswerOk, Differ, JobOk, SameText;
    RewriteRow(c.answers, c.answers[|c.answers| - 1].(status := verdict), c.requester, jobs);
    ClocksStay(c, Judged(c, status, verdict, reason, jobs), now);
  }

  /** A waiting answer has no delivery yet: approving it queues a fresh one. */
  lemma QueuedRows(c: Case, now: int)
    requires Inv(c, now) && c.status == WaitingReview
    ensures var k := AnswerJob(c.answers[|c.answers| - 1].id);
            var jobs := Enqueue(c.jobs, k, User(c.requester));
            JobRows(c.answers, c.requester, jobs) && k in jobs && jobs[k].status == Pending
  {
    assert c.answers[|c.answers| - 1].id == AnswerJob(c.answers[|c.answers| - 1].id).answer;
  }

  lemma LatestWaits(c: Case, before: Case)
    requires AnswersInv(c) && DeliveryInv(c) && StillLatest(c, before)
    ensures Latest(c.answers) == c.answers[|c.answers| - 1] && !IsDelivered(c)
    ensures HasAnswer(c.answers, Latest(c.answers).id)
    ensures forall s :: SetAnswer(c.answers, Latest(c.answers).(status := s))
                     == c.answers[|c.answers| - 1 := c.answers[|c.answers| - 1].(status := s)]
  {
    LatestIsLast(c.answers);
    forall s ensures SetAnswer(c.answers, Latest(c.answers).(status := s))
                  == c.answers[|c.answers| - 1 := c.answers[|c.answers| - 1].(status := s)]
    {
      SetLatest(c, Latest(c.answers).(status := s));
    }
  }

  lemma ApproveGood(c: Case, before: Case, user: nat, editing: bool, now: int)
    requires Inv(c, now)
    ensures Good(c, Approve(c, before, user, editing, now), now)
  {
    var step := Approve(c, before, user, editing, now);
    if step.Done? {
      LatestWaits(c, before);
      QueuedRows(c, now);
      JudgedInv(c, Resolved, Approved, c.revisionReason, step.c.jobs, now);
      assert step.c == Judged(c, Resolved, Approved, c.revisionReason, step.c.jobs);
    }
  }

  lemma RequestRevisionGood(c: Case, before: Case, user: nat, reason: string, editing: bool, now: int)
    requires Inv(c, now)
    ensures Good(c, RequestRevision(c, before, user, reason, editing, now), now)
  {
    var step := RequestRevision(c, before, user, reason, editing, now);
    if step.Done? {
      LatestWaits(c, before);
      JudgedInv(c, RevisionRequired, Revision, Some(reason), c.jobs, now);
      assert step.c == Judged(c, RevisionRequired, Revision, Some(reason), c.jobs);
    }
  }

  lemma LatestVersion(c: Case)
    requires AnswersInv(c) && c.answers != []
    ensures Latest(c.answers) == c.answers[|c.answers| - 1] && Latest(c.answers).version == |c.answers|
  {
    LatestIsLast(c.answers);
    assert AnswerOk(c.answers, |c.answers| - 1);
  }

  lemma SaveCorrectionGood(c: Case, user: nat, leaseUntil: int, expected: nat, answer: nat, text: string, now: int)
    requires Inv(c, now) && !HasAnswer(c.answers, answer)
    ensures Good(c, SaveCorrection(c, user, leaseUntil, expected, answer, text, now), now)
  {
    hide CyclesInv, PreparationInv, ClockInv, LeaseInv, LeasesKept, AnswerOk, Differ, JobOk, SameText;
    var step := SaveCorrection(c, user, leaseUntil, expected, answer, text, now);
    if step.Done? {
      LatestVersion(c);
      var row := Answer(answer, Latest(c.answers).version + 1, Body(text, Latest(c.answers).body.media), AwaitingReview, None);
      AppendRow(c.answers, row, c.requester, c.jobs);
      NewJob(c.answers, c.answers + [row], c.requester, c.jobs, ReviewJob(answer), ReviewChat);
      ClocksStay(c, step.c, now);
    }
  }

  // ----- Jobs ---------------------------------------------------------------

  /** Stages, answers and texts do not look at the job rows. */
  lemma JobsAside(c: Case, jobs: map<JobKey, Job>, purged: set<JobKey>)
    requires StageInv(c) && AnswersInv(c)
    ensures var c' := c.(jobs := jobs, purged := purged);
            StageInv(c') && AnswersInv(c') && Evolves(c, c') && (IsDelivered(c') <==> IsDelivered(c))
  {
    hide AnswerOk, Differ;
  }

  lemma JobStepRows(c: Case, key: JobKey, j: Job)
    requires JobsInv(c) && DeliveryInv(c) && key in c.jobs && c.jobs[key].status != Sent
    requires j.target == c.jobs[key].target && (key.ReviewJob? || j.status != Sent || !j.trackingApplied)
    requires j.status == Sent && key.AnswerJob? && c.status == Resolved ==> key.answer != c.answers[|c.answers| - 1].id
    ensures var c' := c.(jobs := c.jobs[key := j]); JobsInv(c') && DeliveryInv(c')
  {
    hide HasAnswer;
    var c' := c.(jobs := c.jobs[key := j]);
    forall k | k in c'.jobs ensures JobOk(c.answers, c.requester, k, c'.jobs[k]) { assert JobOk(c.answers, c.requester, k, c.jobs[k]); }
  }

  /** A job row that was not applied may be rewritten, unless that would claim a delivery. */
  lemma JobStepGood(c: Case, key: JobKey, j: Job, now: int)
    requires Inv(c, now) && key in c.jobs && c.jobs[key].status != Sent
    requires j.target == c.jobs[key].target && (key.ReviewJob? || j.status != Sent || !j.trackingApplied)
    requires j.status == Sent && key.AnswerJob? && c.status == Resolved ==> key.answer != c.answers[|c.answers| - 1].id
    ensures Good(c, Done(c.(jobs := c.jobs[key := j])), now)
  {
    hide AnswersInv, JobsInv, DeliveryInv, CyclesInv, PreparationInv, ClockInv, LeaseInv, LeasesKept, IsDelivered, Evolves;
    var c' := c.(jobs := c.jobs[key := j]);
    JobsAside(c, c'.jobs, c.purged);
    ClocksStay(c, c', now);
    JobStepRows(c, key, j);
  }

  lemma ClaimJobGood(c: Case, key: JobKey, now: int)
    requires Inv(c, now)
    ensures Good(c, ClaimJob(c, key, now), now)
  {
    var step := ClaimJob(c, key, now);
    if step.Done? { JobStepGood(c, key, step.c.jobs[key], now); }
  }

  lemma FailJobGood(c: Case, key: JobKey, attempts: int, lockedAt: int, error: JobError, terminal: bool, now: int)
    requires Inv(c, now)
    ensures Good(c, FailJob(c, key, attempts, lockedAt, error, terminal), now)
  {
    var step := FailJob(c, key, attempts, lockedAt, error, terminal);
    if step.Done? { JobStepGood(c, key, step.c.jobs[key], now); }
  }

  lemma RenewJobGood(c: Case, key: JobKey, attempts: int, lockedAt: int, now: int)
    requires Inv(c, now)
    ensures Good(c, RenewJob(c, key, attempts, lockedAt, now), now)
  {
    var step := RenewJob(c, key, attempts, lockedAt, now);
    if step.Done? { JobStepGood(c, key, step.c.jobs[key], now); }
  }

  lemma PurgedRows(c: Case, key: JobKey)
    requires JobsInv(c) && DeliveryInv(c) && key in c.jobs && c.jobs[key].status == Sent
    ensures var c' := c.(jobs := c.jobs - {key}, purged := c.purged + {key}); JobsInv(c') && DeliveryInv(c')
  {
    hide HasAnswer;
    var c' := c.(jobs := c.jobs - {key}, purged := c.purged + {key});
    forall k | k in c'.jobs ensures JobOk(c.answers, c.requester, k, c'.jobs[k]) { assert JobOk(c.answers, c.requester, k, c.jobs[k]); }
    assert JobOk(c.answers, c.requester, key, c.jobs[key]);
  }

  /** A purged delivery was recorded before: the latest answer needs its row no more. */
  lemma PurgeJobGood(c: Case, key: JobKey, now: int)
    requires Inv(c, now)
    ensures Good(c, PurgeJob(c, key), now)
  {
    hide AnswersInv, JobsInv, DeliveryInv, CyclesInv, PreparationInv, ClockInv, LeaseInv, LeasesKept, IsDelivered, Evolves;
    var step := PurgeJob(c, key);
    if step.Done? {
      JobsAside(c, step.c.jobs, step.c.purged);
      ClocksStay(c, step.c, now);
      PurgedRows(c, key);
    }
  }

  lemma RetryFailedGood(c: Case, key: JobKey, now: int)
    requires Inv(c, now)
    ensures Good(c, RetryFailed(c, key), now)
  {
    var step := RetryFailed(c, key);
    if step.Done? { JobStepGood(c, key, step.c.jobs[key], now); }
  }

  lemma ResendGood(c: Case, answer: nat, now: int)
    requires Inv(c, now)
    ensures Good(c, Resend(c, answer), now)
  {
    var key := AnswerJob(answer);
    var step := Resend(c, answer);
    if step.Done? && step.c != c { JobStepGood(c, key, step.c.jobs[key], now); }
  }

  lemma SentBackInv(c: Case, reason: Option<string>, jobs: map<JobKey, Job>, overdue: bool, now: int)
    requires Inv(c, now) && c.answers != [] && !IsDelivered(c) && (c.status == WaitingReview || c.status == Resolved) && reason.Some?
    requires JobRows(c.answers, c.requester, jobs)
    ensures var r := Judged(c, RevisionRequired, Revision, reason, jobs).(overdue := overdue); Inv(r, now) && Evolves(c, r)
  {
    hide AnswerOk, Differ, JobOk, CycleOk, PreparedAt, LoggedAt, DueRows, SameText;
    JudgedInv(c, RevisionRequired, Revision, reason, jobs, now);
  }

  lemma SupersededRows(c: Case, key: JobKey)
    requires JobsInv(c) && key in c.jobs && c.jobs[key].status == Failed
    ensures JobRows(c.answers, c.requester, c.jobs[key := c.jobs[key].(superseded := true, error := Superseded)])
  {
    var jobs := c.jobs[key := c.jobs[key].(superseded := true, error := Superseded)];
    forall k | k in jobs ensures JobOk(c.answers, c.requester, k, jobs[k]) { assert JobOk(c.answers, c.requester, k, c.jobs[k]); }
  }

  lemma RepairPhotoGood(c: Case, from: Option<nat>, key: JobKey, now: int)
    requires Inv(c, now)
    ensures Good(c, RepairPhoto(c, from, key, now), now)
  {
    hide Latest, SetAnswer, AnswerOk, JobOk, AnswersInv, DeliveryInv, CyclesInv, PreparationInv, ClockInv, LeaseInv, Evolves;
    var step := RepairPhoto(c, from, key, now);
    if step.Done? {
      SetLatest(c, Latest(c.answers).(status := Revision));
      SupersededRows(c, key);
      SentBackInv(c, step.c.revisionReason, step.c.jobs, step.c.overdue, now);
      assert step.c == Judged(c, RevisionRequired, Revision, step.c.revisionReason, step.c.jobs).(overdue := step.c.overdue);
    }
  }

  // ----- Delivery -----------------------------------------------------------

  function Marked(c: Case, key: JobKey, j: Job, now: int): Case
    requires c.answers != []
  {
    var n := |c.answers| - 1;
    c.(jobs := c.jobs[key := j], answers := c.answers[n := c.answers[n].(deliveredAt := Some(now))],
       sent := c.sent + [Receipt(key.answer, j.target)])
  }

  lemma MarkedRows(c: Case, key: JobKey, j: Job, now: int)
    requires Inv(c, now) && c.status == Resolved && !IsDelivered(c)
    requires key == AnswerJob(c.answers[|c.answers| - 1].id)
    requires j.target == User(c.requester) && j.status == Sent && j.trackingApplied
    ensures var m := Marked(c, key, j, now);
            && AnswersInv(m) && JobsInv(m) && IsDelivered(m) && m.sent == [Receipt(key.answer, User(c.requester))]
            && (forall i :: 0 <= i < |c.answers| ==> SameText(c.answers, m.answers, i))
  {
    var m := Marked(c, key, j, now);
    RewriteRow(c.answers, m.answers[|m.answers| - 1], c.requester, c.jobs);
    forall k | k in m.jobs ensures JobOk(m.answers, m.requester, k, m.jobs[k]) {
      if k != key { assert JobOk(m.answers, m.requester, k, c.jobs[k]); }
      else { assert m.answers[|m.answers| - 1].id == key.answer; }
    }
  }

  lemma DeliveredInv(c: Case, key: JobKey, j: Job, now: int)
    requires Inv(c, now) && c.status == Resolved && !IsDelivered(c)
    requires key == AnswerJob(c.answers[|c.answers| - 1].id)
    requires j.target == User(c.requester) && j.status == Sent && j.trackingApplied
    ensures var r := RecordDelivery(Marked(c, key, j, now), now); Inv(r, now) && Evolves(c, r)
  {
    hide AnswerOk, JobOk, Differ, SetAnswer, CycleRows;
    MarkedRows(c, key, j, now);
    ClosingKeepsRows(c, now, Delivered);
    if c.policy == WorkingHours {
      WorkingTime.OverdueAtDelivery(c.createdAt, c.deadlineAt, now);
    }
  }

  /** A delivery in progress that is not current does not belong to the latest answer of a resolved incident. */
  lemma NotTheLatest(c: Case, key: JobKey, now: int)
    requires Inv(c, now) && key.AnswerJob? && key in c.jobs && c.jobs[key].status == Sending
    requires !CurrentAnswer(c, key.answer, c.jobs[key].target)
    ensures c.status == Resolved ==> key.answer != c.answers[|c.answers| - 1].id
  {
    if c.status == Resolved {
      LatestIsLast(c.answers);
      assert JobOk(c.answers, c.requester, key, c.jobs[key]);
    }
  }

  lemma CompleteJobGood(c: Case, key: JobKey, attempts: int, lockedAt: int, now: int)
    requires Inv(c, now)
    ensures Good(c, CompleteJob(c, key, attempts, lockedAt, now), now)
  {
    var step := CompleteJob(c, key, attempts, lockedAt, now);
    if step.Done? {
      var j := c.jobs[key].(status := Sent, lockedAt := None, error := NoError);
      if key.ReviewJob? {
        JobStepGood(c, key, j.(trackingApplied := true), now);
      } else if !CurrentAnswer(c, key.answer, j.target) {
        NotTheLatest(c, key, now);
        JobStepGood(c, key, j.(trackingApplied := false, error := OtherError), now);
      } else {
        LatestIsLast(c.answers);
        SetLatest(c, Latest(c.answers).(deliveredAt := Some(now)));
        DeliveredInv(c, key, j.(trackingApplied := true), now);
      }
    }
  }
}
