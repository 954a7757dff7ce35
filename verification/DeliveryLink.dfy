/** The two records of one delivery: the answer's job inside the workflow and its row in the outbox. They are one
  * row in the database; here both models run side by side, and every transaction of the desk keeps them agreed. */
module DeliveryLink {
  import opened Incident
  import opened IncidentInvariants
  import opened Workflow
  import opened WorkflowSafety
  import opened WorkflowGuarantees
  import opened Wrappers
  import O = Outbox
  import OI = OutboxInvariant

  /** Which delivery: the answer of the incident, and its row in the outbox. */
  datatype Link = Link(incident: nat, answer: nat, job: nat) {
    function Key(): JobKey { AnswerJob(answer) }
  }

  datatype Joint = Joint(w: World, s: O.State)

  /** A transaction of staff, sweeps or housekeeping, or a step of the outbox. */
  datatype Act = Desk(e: Event) | Box(b: O.Event)

  // ----- How a step of one side appears on the other ------------------------

  /** Attempts are made by the outbox alone, and time passes for both. */
  predicate DeskMay(l: Link, e: Event) {
    && !e.Tick?
    && ((e.JobClaimed? || e.JobFailed? || e.JobRenewed? || e.JobCompleted?) ==> e.id != l.incident || e.key != l.Key())
  }

  /** Retries, supersession and deletion of the row are business transactions. */
  predicate BoxMay(l: Link, b: O.Event) {
    (b.Retry? || b.Supersede? || b.Delete? || b.Release?) ==> b.job != l.job
  }

  /** What a committed transaction does to the outbox row of the delivery. */
  function Echo(l: Link, e: Event, changed: bool): Option<O.Event> {
    match e
    case ResendAnswer(_, answer) => if answer == l.answer && changed then Some(O.Retry(l.job, false)) else None
    case RetryJob(_, key) => if key == l.Key() then Some(O.Retry(l.job, true)) else None
    case Repair(_, _, _, key) => if key == l.Key() then Some(O.Supersede(l.job)) else None
    case JobPurged(_, key) => if key == l.Key() then Some(O.Delete(l.job)) else None
    case RejectIncident(_, _) => Some(O.Delete(l.job))
    case _ => None
  }

  ghost predicate Commits(w: World, e: Event, id: nat) {
    Subject(w, e) == Some(id) && id in w.cases && StepOf(w, e, id).Done?
  }

  ghost function EchoOf(l: Link, w: World, e: Event): Option<O.Event> {
    if Commits(w, e, l.incident) then Echo(l, e, StepOf(w, e, l.incident).c != w.cases[l.incident]) else None
  }

  predicate Works(l: Link, s: O.State, worker: nat) {
    worker in s.workers && s.workers[worker].job == l.job && O.Owns(s, s.workers[worker])
  }

  /** What a step of the outbox does to the answer's job in the workflow: nothing, or these transactions. */
  function Projection(l: Link, s: O.State, b: O.Event): seq<Event> {
    match b
    case Tick(ms) => [Workflow.Tick(ms)]
    case Claim(worker, process, job, verdict) =>
      if job != l.job || worker in s.workers || !O.MayClaim(s, process, job) then []
      else
        [JobClaimed(l.incident, l.Key())]
        + if verdict == O.Refuse && !s.jobs[job].superseded
          then [JobFailed(l.incident, l.Key(), s.jobs[job].attempts + 1, s.now, OtherError, true)] else []
    case Store(worker, write) =>
      if Works(l, s, worker) && s.workers[worker].phase.Storing? && write != NotWritten && O.SamePayload(s, s.workers[worker])
      then [JobRenewed(l.incident, l.Key(), s.workers[worker].attempts, s.workers[worker].lockedAt)] else []
    case Complete(worker, write) =>
      if Works(l, s, worker) && s.workers[worker].phase == O.Checking && s.workers[worker].sent >= |s.workers[worker].plan|
         && write != NotWritten
      then [JobCompleted(l.incident, l.Key(), s.workers[worker].attempts, s.workers[worker].lockedAt)] else []
    case Fail(worker, photo, _) =>
      if Works(l, s, worker) && s.workers[worker].phase.Failing?
      then [JobFailed(l.incident, l.Key(), s.workers[worker].attempts, s.workers[worker].lockedAt,
                      if photo then PhotoUnavailable else OtherError,
                      s.workers[worker].phase.stale || s.workers[worker].attempts >= O.MAX_ATTEMPTS)]
      else []
    case _ => []
  }

  ghost function JointStep(l: Link, x: Joint, act: Act): Joint {
    match act
    case Desk(e) =>
      if !DeskMay(l, e) then x
      else Joint(Apply(x.w, e), match EchoOf(l, x.w, e) case None => x.s case Some(b) => O.Next(x.s, b))
    case Box(b) =>
      if !BoxMay(l, b) then x else Joint(Run(x.w, Projection(l, x.s, b)), O.Next(x.s, b))
  }

  ghost function Runs(l: Link, x: Joint, acts: seq<Act>): Joint {
    if acts == [] then x else JointStep(l, Runs(l, x, acts[..|acts| - 1]), acts[|acts| - 1])
  }

  // ----- Agreement ----------------------------------------------------------

  function StatusOf(status: O.Status): Option<JobStatus> {
    match status
    case Pending => Some(Incident.Pending)
    case Sending => Some(Incident.Sending)
    case Sent => Some(Incident.Sent)
    case Failed => Some(Incident.Failed)
    case _ => None
  }

  /** The outbox row and the workflow's job are the same row. */
  predicate Matches(row: O.Job, job: Job) {
    && row.kind == O.Message && job.target == User(row.target) && StatusOf(row.status) == Some(job.status)
    && row.attempts == job.attempts && row.lockedAt == job.lockedAt && row.superseded == job.superseded
  }

  predicate DeliveredAs(c: Case, answer: nat) { IsDelivered(c) && c.answers[|c.answers| - 1].id == answer }

  /** MAX accepted and acknowledged every part of one plan of this row, addressed to this user. */
  ghost predicate WholeSent(log: seq<O.Post>, job: nat, target: nat) {
    exists plan: seq<nat>, mids: seq<nat> :: plan != [] && AllAcked(log, job, plan, mids, target)
  }

  predicate AllAcked(log: seq<O.Post>, job: nat, plan: seq<nat>, mids: seq<nat>, target: nat) {
    |mids| == |plan| && forall k :: 0 <= k < |plan| ==> O.AckedPart(log, job, k, plan[k], target, mids[k])
  }

  /** The answer was judged once its delivery was queued, and no version takes its id again. */
  predicate Judged(c: Case, answer: nat) {
    && HasAnswer(c.answers, answer)
    && forall i :: 0 <= i < |c.answers| && c.answers[i].id == answer ==> c.answers[i].status != AwaitingReview
  }

  ghost predicate LinkOk(l: Link, c: Case, s: O.State) {
    && Judged(c, l.answer) && l.job < s.next
    && (l.job in s.jobs <==> l.Key() in c.jobs)
    && (l.job in s.jobs && l.Key() in c.jobs ==> Matches(s.jobs[l.job], c.jobs[l.Key()]))
    && (DeliveredAs(c, l.answer) ==> WholeSent(s.log, l.job, c.requester))
  }

  ghost predicate Linked(l: Link, x: Joint) {
    && WorldInv(x.w) && O.Inv(x.s) && x.w.now == x.s.now
    && l.incident in x.w.cases && LinkOk(l, x.w.cases[l.incident], x.s)
  }

  // ----- Transactions of the desk -------------------------------------------

  /** Nothing happened to the delivery: its job stands still, it is still judged, and not newly delivered. */
  predicate Untouched(l: Link, c: Case, c': Case) {
    && (l.Key() in c.jobs <==> l.Key() in c'.jobs) && (l.Key() in c.jobs && l.Key() in c'.jobs ==> c'.jobs[l.Key()] == c.jobs[l.Key()])
    && Judged(c', l.answer) && (DeliveredAs(c', l.answer) ==> DeliveredAs(c, l.answer))
  }

  lemma RowStays(c: Case, c': Case, answer: nat)
    requires Judged(c, answer) && |c.answers| <= |c'.answers|
    requires forall i :: 0 <= i < |c.answers| ==> c'.answers[i].id == c.answers[i].id
                                                  && (c'.answers[i].status == AwaitingReview ==> c.answers[i].status == AwaitingReview)
    requires forall i :: |c.answers| <= i < |c'.answers| ==> c'.answers[i].id != answer
    ensures Judged(c', answer)
  {
    var i :| 0 <= i < |c.answers| && c.answers[i].id == answer;
    assert c'.answers[i].id == answer;
  }

  lemma DistributionLeavesDelivery(l: Link, w: World, e: Event)
    requires DistributionEvent(e) && !e.RejectIncident? && Commits(w, e, l.incident) && Judged(w.cases[l.incident], l.answer)
    ensures Untouched(l, w.cases[l.incident], StepOf(w, e, l.incident).c)
  {
    hide HeldByOther, LiveFor, ClaimsElsewhere, NextFree, HoldsClaim, StartAssignment, Judged;
    JudgedSame(w.cases[l.incident], StepOf(w, e, l.incident).c, l.answer);
  }

  lemma JudgedSame(c: Case, c': Case, answer: nat)
    requires Judged(c, answer) && c'.answers == c.answers
    ensures Judged(c', answer)
  {
  }

  lemma SectorLeavesDelivery(l: Link, w: World, e: Event)
    requires SectorEvent(e) && Commits(w, e, l.incident) && Judged(w.cases[l.incident], l.answer)
    ensures Untouched(l, w.cases[l.incident], StepOf(w, e, l.incident).c)
  {
    hide HeldByOther, LiveFor, Latest, FinishAssignment, OpenStatus, Judged, Submit, Untouched;
    var c := w.cases[l.incident];
    if e.SubmitAnswer? {
      var read := w.requests[e.request];
      SubmitLeavesDelivery(l, c, read.seen, read.direct, e.user, e.answer, e.body, w.now);
    } else {
      LeaseStepLeavesDelivery(l, w, e);
    }
  }

  lemma LeaseStepLeavesDelivery(l: Link, w: World, e: Event)
    requires SectorEvent(e) && !e.SubmitAnswer? && Commits(w, e, l.incident) && Judged(w.cases[l.incident], l.answer)
    ensures Untouched(l, w.cases[l.incident], StepOf(w, e, l.incident).c)
  {
    hide HeldByOther, LiveFor, Latest, FinishAssignment, OpenStatus, Judged, Submit;
    JudgedSame(w.cases[l.incident], StepOf(w, e, l.incident).c, l.answer);
  }

  lemma SubmitLeavesDelivery(l: Link, c: Case, before: Case, direct: bool, user: nat, answer: nat, body: Body, now: int)
    requires Judged(c, l.answer) && !HasAnswer(c.answers, answer)
    requires Submit(c, before, direct, user, answer, body, now).Done?
    ensures Untouched(l, c, Submit(c, before, direct, user, answer, body, now).c)
  {
    hide Submit, HasAnswer, Judged;
    assert HasAnswer(c.answers, l.answer) by { LinkedAnswer(c, l.answer); }
    SubmittedRow(c, before, direct, user, answer, body, now);
    JudgedLater(c, Submit(c, before, direct, user, answer, body, now).c, l.answer);
  }

  lemma LinkedAnswer(c: Case, answer: nat)
    requires Judged(c, answer)
    ensures HasAnswer(c.answers, answer)
  {
  }

  /** A submission appends one undelivered row and touches no job but that row's own. */
  lemma SubmittedRow(c: Case, before: Case, direct: bool, user: nat, answer: nat, body: Body, now: int)
    requires Submit(c, before, direct, user, answer, body, now).Done?
    ensures var c' := Submit(c, before, direct, user, answer, body, now).c;
            && |c'.answers| == |c.answers| + 1 && c.answers <= c'.answers
            && c'.answers[|c.answers|].id == answer && !IsDelivered(c')
            && forall other :: other != answer ==>
                 (AnswerJob(other) in c'.jobs <==> AnswerJob(other) in c.jobs)
                 && (AnswerJob(other) in c.jobs ==> c'.jobs[AnswerJob(other)] == c.jobs[AnswerJob(other)])
  {
    hide HeldByOther, Latest;
  }

  /** A new version with a new id leaves the judgement of the others alone. */
  lemma JudgedLater(c: Case, c': Case, answer: nat)
    requires Judged(c, answer) && c.answers <= c'.answers
    requires forall i :: |c.answers| <= i < |c'.answers| ==> c'.answers[i].id != answer
    ensures Judged(c', answer)
  {
    RowStays(c, c', answer);
  }


  lemma LeaseLeavesDelivery(l: Link, w: World, e: Event)
    requires ReviewLeaseEvent(e) && Commits(w, e, l.incident) && Judged(w.cases[l.incident], l.answer)
    ensures Untouched(l, w.cases[l.incident], StepOf(w, e, l.incident).c)
  {
    hide HeldByOther, LiveFor, Reviews, NextWaiting, Judged;
    JudgedSame(w.cases[l.incident], StepOf(w, e, l.incident).c, l.answer);
  }

  lemma ApprovalLeaves(l: Link, c: Case, before: Case, user: nat, editing: bool, now: int)
    requires Judged(c, l.answer) && Approve(c, before, user, editing, now).Done?
    requires c.answers != [] ==> Latest(c.answers) == c.answers[|c.answers| - 1]
    ensures Untouched(l, c, Approve(c, before, user, editing, now).c)
  {
    hide Latest, HeldByOther;
    RowStays(c, Approve(c, before, user, editing, now).c, l.answer);
  }

  lemma RevisionLeaves(l: Link, c: Case, before: Case, user: nat, reason: string, editing: bool, now: int)
    requires Judged(c, l.answer) && RequestRevision(c, before, user, reason, editing, now).Done?
    requires c.answers != [] ==> Latest(c.answers) == c.answers[|c.answers| - 1]
    ensures Untouched(l, c, RequestRevision(c, before, user, reason, editing, now).c)
  {
    hide Latest, HeldByOther;
    RowStays(c, RequestRevision(c, before, user, reason, editing, now).c, l.answer);
  }

  lemma JudgementLeavesDelivery(l: Link, w: World, e: Event)
    requires (e.ApproveAnswer? || e.SendBack?) && Commits(w, e, l.incident)
    requires Judged(w.cases[l.incident], l.answer) && AnswersInv(w.cases[l.incident])
    ensures Untouched(l, w.cases[l.incident], StepOf(w, e, l.incident).c)
  {
    hide Approve, RequestRevision, Judged, Untouched, AnswersInv, Editing;
    var c := w.cases[l.incident];
    LatestInRows(c);
    if e.ApproveAnswer? {
      ApprovalLeaves(l, c, w.requests[e.request].seen, e.user, Editing(w, e.user, l.incident, c), w.now);
    } else {
      RevisionLeaves(l, c, w.requests[e.request].seen, e.user, e.reason, Editing(w, e.user, l.incident, c), w.now);
    }
  }

  lemma RepairLeaves(l: Link, c: Case, from: Option<nat>, key: JobKey, now: int)
    requires key != l.Key() && Judged(c, l.answer) && RepairPhoto(c, from, key, now).Done?
    requires c.answers != [] ==> Latest(c.answers) == c.answers[|c.answers| - 1]
    ensures Untouched(l, c, RepairPhoto(c, from, key, now).c)
  {
    hide Latest;
    RowStays(c, RepairPhoto(c, from, key, now).c, l.answer);
  }

  lemma SaveLeaves(l: Link, c: Case, user: nat, leaseUntil: int, expected: nat, answer: nat, text: string, now: int)
    requires answer != l.answer && Judged(c, l.answer)
    requires SaveCorrection(c, user, leaseUntil, expected, answer, text, now).Done?
    ensures Untouched(l, c, SaveCorrection(c, user, leaseUntil, expected, answer, text, now).c)
  {
    hide Latest, Judged;
    JudgedLater(c, SaveCorrection(c, user, leaseUntil, expected, answer, text, now).c, l.answer);
  }

  lemma RewriteLeavesDelivery(l: Link, w: World, e: Event)
    requires (e.SaveEdit? || e.Repair?) && (e.Repair? ==> e.key != l.Key()) && Commits(w, e, l.incident)
    requires Judged(w.cases[l.incident], l.answer) && AnswersInv(w.cases[l.incident])
    ensures Untouched(l, w.cases[l.incident], StepOf(w, e, l.incident).c)
  {
    hide SaveCorrection, RepairPhoto, HasAnswer, Judged, Untouched, AnswersInv;
    var c := w.cases[l.incident];
    LatestInRows(c);
    if e.Repair? {
      RepairLeaves(l, c, e.from, e.key, w.now);
    } else {
      LinkedAnswer(c, l.answer);
      SaveLeaves(l, c, e.user, w.edits[e.user].leaseUntil, w.edits[e.user].answer, e.answer, w.edits[e.user].text, w.now);
    }
  }

  lemma LatestInRows(c: Case)
    requires AnswersInv(c)
    ensures c.answers != [] ==> Latest(c.answers) == c.answers[|c.answers| - 1]
  {
    if c.answers != [] { LatestIsLast(c.answers); }
  }

  lemma JobsLeaveDelivery(l: Link, w: World, e: Event)
    requires JobEvent(e) && e.key != l.Key() && Commits(w, e, l.incident) && Judged(w.cases[l.incident], l.answer)
    ensures Untouched(l, w.cases[l.incident], StepOf(w, e, l.incident).c)
  {
    hide Judged;
    JudgedSame(w.cases[l.incident], StepOf(w, e, l.incident).c, l.answer);
  }

  lemma CompleteLeaves(l: Link, c: Case, key: JobKey, attempts: int, lockedAt: int, now: int)
    requires key != l.Key() && Judged(c, l.answer) && CompleteJob(c, key, attempts, lockedAt, now).Done?
    requires c.answers != [] ==> Latest(c.answers) == c.answers[|c.answers| - 1]
    ensures Untouched(l, c, CompleteJob(c, key, attempts, lockedAt, now).c)
  {
    hide Latest, FinishAssignment, Judged;
    RowStays(c, CompleteJob(c, key, attempts, lockedAt, now).c, l.answer);
  }

  lemma CompletionLeavesDelivery(l: Link, w: World, e: Event)
    requires e.JobCompleted? && e.key != l.Key() && Commits(w, e, l.incident)
    requires Judged(w.cases[l.incident], l.answer) && AnswersInv(w.cases[l.incident])
    ensures Untouched(l, w.cases[l.incident], StepOf(w, e, l.incident).c)
  {
    hide CompleteJob, Judged, Untouched, AnswersInv;
    var c := w.cases[l.incident];
    LatestInRows(c);
    CompleteLeaves(l, c, e.key, e.attempts, e.lockedAt, w.now);
  }

  lemma ResendLeavesDelivery(l: Link, w: World, e: Event)
    requires e.ResendAnswer? && Commits(w, e, l.incident) && Judged(w.cases[l.incident], l.answer)
    requires e.answer != l.answer || StepOf(w, e, l.incident).c == w.cases[l.incident]
    ensures Untouched(l, w.cases[l.incident], StepOf(w, e, l.incident).c)
  {
    hide Judged, Latest;
    JudgedSame(w.cases[l.incident], StepOf(w, e, l.incident).c, l.answer);
  }

  lemma NoEcho(l: Link, w: World, e: Event)
    requires DeskMay(l, e) && Commits(w, e, l.incident) && EchoOf(l, w, e).None?
    requires Judged(w.cases[l.incident], l.answer) && AnswersInv(w.cases[l.incident])
    ensures Untouched(l, w.cases[l.incident], StepOf(w, e, l.incident).c)
  {
    hide StepOf, Judged, AnswersInv, Untouched;
    if DistributionEvent(e) { DistributionLeavesDelivery(l, w, e); }
    else if SectorEvent(e) { SectorLeavesDelivery(l, w, e); }
    else if ReviewLeaseEvent(e) { LeaseLeavesDelivery(l, w, e); }
    else if e.ApproveAnswer? || e.SendBack? { JudgementLeavesDelivery(l, w, e); }
    else if VerdictEvent(e) { RewriteLeavesDelivery(l, w, e); }
    else if JobEvent(e) { JobsLeaveDelivery(l, w, e); }
    else if e.JobCompleted? { CompletionLeavesDelivery(l, w, e); }
    else { ResendLeavesDelivery(l, w, e); }
  }

  // ----- Transactions that the row follows ----------------------------------

  lemma ResendKeepsLink(l: Link, c: Case, s: O.State)
    requires LinkOk(l, c, s) && Resend(c, l.answer).Done? && Resend(c, l.answer).c != c
    ensures LinkOk(l, Resend(c, l.answer).c, O.Next(s, O.Retry(l.job, false)))
  {
    hide Latest, WholeSent, Judged;
    JudgedSame(c, Resend(c, l.answer).c, l.answer);
  }

  lemma RetryKeepsLink(l: Link, c: Case, s: O.State)
    requires LinkOk(l, c, s) && RetryFailed(c, l.Key()).Done?
    ensures LinkOk(l, RetryFailed(c, l.Key()).c, O.Next(s, O.Retry(l.job, true)))
  {
    hide Latest, WholeSent, Judged;
    JudgedSame(c, RetryFailed(c, l.Key()).c, l.answer);
  }

  lemma RetryIsEchoed(l: Link, w: World, e: Event, s: O.State)
    requires (e.ResendAnswer? || e.RetryJob?) && Commits(w, e, l.incident) && EchoOf(l, w, e).Some?
    requires LinkOk(l, w.cases[l.incident], s)
    ensures LinkOk(l, StepOf(w, e, l.incident).c, O.Next(s, EchoOf(l, w, e).value))
  {
    hide Resend, RetryFailed, LinkOk, O.Next;
    if e.ResendAnswer? { ResendKeepsLink(l, w.cases[l.incident], s); } else { RetryKeepsLink(l, w.cases[l.incident], s); }
  }

  lemma DeletionIsEchoed(l: Link, w: World, e: Event, s: O.State)
    requires (e.JobPurged? || e.RejectIncident?) && Commits(w, e, l.incident) && EchoOf(l, w, e).Some?
    requires LinkOk(l, w.cases[l.incident], s)
    ensures LinkOk(l, StepOf(w, e, l.incident).c, O.Next(s, EchoOf(l, w, e).value))
  {
    hide WholeSent, Judged, HeldByOther, FinishAssignment;
    JudgedSame(w.cases[l.incident], StepOf(w, e, l.incident).c, l.answer);
  }

  lemma RepairKeepsLink(l: Link, c: Case, from: Option<nat>, now: int, s: O.State)
    requires LinkOk(l, c, s) && RepairPhoto(c, from, l.Key(), now).Done?
    requires c.answers != [] ==> Latest(c.answers) == c.answers[|c.answers| - 1]
    ensures LinkOk(l, RepairPhoto(c, from, l.Key(), now).c, O.Next(s, O.Supersede(l.job)))
  {
    hide Latest, WholeSent, Judged;
    RowStays(c, RepairPhoto(c, from, l.Key(), now).c, l.answer);
  }

  lemma RepairIsEchoed(l: Link, w: World, e: Event, s: O.State)
    requires e.Repair? && Commits(w, e, l.incident) && EchoOf(l, w, e).Some?
    requires LinkOk(l, w.cases[l.incident], s) && AnswersInv(w.cases[l.incident])
    ensures LinkOk(l, StepOf(w, e, l.incident).c, O.Next(s, EchoOf(l, w, e).value))
  {
    hide RepairPhoto, LinkOk, AnswersInv;
    var c := w.cases[l.incident];
    LatestInRows(c);
    RepairKeepsLink(l, c, e.from, w.now, s);
  }

  lemma EchoKeepsLink(l: Link, w: World, e: Event, s: O.State)
    requires Commits(w, e, l.incident) && EchoOf(l, w, e).Some?
    requires LinkOk(l, w.cases[l.incident], s) && AnswersInv(w.cases[l.incident])
    ensures LinkOk(l, StepOf(w, e, l.incident).c, O.Next(s, EchoOf(l, w, e).value))
  {
    hide StepOf, LinkOk, AnswersInv;
    if e.ResendAnswer? || e.RetryJob? { RetryIsEchoed(l, w, e, s); }
    else if e.JobPurged? || e.RejectIncident? { DeletionIsEchoed(l, w, e, s); }
    else { RepairIsEchoed(l, w, e, s); }
  }

  lemma UntouchedKeepsLink(l: Link, c: Case, c': Case, s: O.State)
    requires LinkOk(l, c, s) && Untouched(l, c, c') && c'.requester == c.requester
    ensures LinkOk(l, c', s)
  {
    hide WholeSent, Judged;
  }

  lemma DeskKeepsClock(w: World, e: Event)
    requires !e.Tick?
    ensures Apply(w, e).now == w.now
  {
    hide StepOf;
  }

  /** The incident's record and the row after a committed transaction. */
  lemma CommitKeepsLink(l: Link, w: World, e: Event, s: O.State)
    requires WorldInv(w) && O.Inv(s) && DeskMay(l, e) && Commits(w, e, l.incident) && LinkOk(l, w.cases[l.incident], s)
    ensures var s' := match EchoOf(l, w, e) case None => s case Some(b) => O.Next(s, b);
            LinkOk(l, StepOf(w, e, l.incident).c, s') && O.Inv(s') && s'.now == s.now
  {
    hide StepOf, WorldInv, O.Inv, LinkOk, Untouched, O.Next, DeskMay, EchoOf;
    var c := w.cases[l.incident];
    CaseHasAnswers(w, l.incident);
    if EchoOf(l, w, e).None? {
      LinkIsJudged(l, c, s);
      NoEcho(l, w, e);
      SameRequester(w, e, l.incident);
      UntouchedKeepsLink(l, c, StepOf(w, e, l.incident).c, s);
    } else {
      EchoKeepsLink(l, w, e, s);
      OI.NextInv(s, EchoOf(l, w, e).value);
      EchoKeepsClock(l, w, e, s);
    }
  }

  lemma DeskKeepsLink(l: Link, x: Joint, e: Event)
    requires Linked(l, x) && DeskMay(l, e)
    ensures Linked(l, JointStep(l, x, Desk(e)))
  {
    hide StepOf, Apply, WorldInv, O.Inv, LinkOk, O.Next, Echo, DeskMay;
    ApplyInv(x.w, e);
    OnlyItsIncident(x.w, e, l.incident);
    DeskIsEvent(l, e);
    DeskKeepsClock(x.w, e);
    if Commits(x.w, e, l.incident) { CommitKeepsLink(l, x.w, e, x.s); }
  }

  lemma DeskIsEvent(l: Link, e: Event)
    requires DeskMay(l, e)
    ensures !e.Tick?
  {
  }

  lemma CaseHasAnswers(w: World, id: nat)
    requires WorldInv(w) && id in w.cases
    ensures Inv(w.cases[id], w.now) && AnswersInv(w.cases[id])
  {
  }

  lemma LinkIsJudged(l: Link, c: Case, s: O.State)
    requires LinkOk(l, c, s)
    ensures Judged(c, l.answer)
  {
  }

  lemma SameRequester(w: World, e: Event, id: nat)
    requires WorldInv(w) && Commits(w, e, id)
    ensures StepOf(w, e, id).c.requester == w.cases[id].requester
  {
    hide StepOf, Inv;
    StepGood(w, e, id);
  }

  lemma EchoKeepsClock(l: Link, w: World, e: Event, s: O.State)
    requires EchoOf(l, w, e).Some?
    ensures O.Next(s, EchoOf(l, w, e).value).now == s.now
  {
    hide StepOf;
  }
}
