/** The rows one incident owns, and what each database transaction does to them
  * (distribution, sector, answers, review, sla and outbox completion).
  * A transaction is a function of the stored rows: it either commits or refuses. */
module Incident {
  import WorkingTime
  import opened Wrappers

  datatype Status = New | Distribution | Assigned | InProgress | WaitingReview | RevisionRequired | Rejected | Resolved

  /** The table of legal status changes (src/incidents/incident-state.service.ts). */
  predicate Allowed(from: Status, to: Status) {
    match from
    case New => to == Distribution
    case Distribution => to == Assigned || to == Rejected
    case Assigned => to == Distribution || to == InProgress || to == WaitingReview || to == Resolved
    case InProgress => to == Assigned || to == RevisionRequired || to == Distribution || to == WaitingReview || to == Resolved
    case WaitingReview => to == Resolved || to == RevisionRequired
    case RevisionRequired => to == Distribution || to == InProgress || to == WaitingReview || to == Resolved
    case Rejected => false
    case Resolved => false
  }

  predicate Submittable(s: Status) { s == Assigned || s == InProgress || s == RevisionRequired }

  datatype Policy = Legacy | WorkingHours

  datatype AnswerStatus = AwaitingReview | Approved | Revision

  /** What an answer says: its text and its stored attachments. */
  datatype Body = Body(text: string, media: seq<nat>)

  datatype Answer = Answer(id: nat, version: nat, body: Body, status: AnswerStatus, deliveredAt: Option<int>)

  datatype Ending = Active | Returned | Delivered | Dropped

  datatype Cycle = Cycle(sequence: nat, group: nat, assignedAt: int, preparationDueAt: int, returnDueAt: int,
    firstPreparedAt: Option<int>, firstPreparedAnswer: Option<nat>, endedAt: Option<int>, ending: Ending)

  /** A history entry: an answer was submitted in an assignment cycle. */
  datatype Submission = Submission(cycle: nat, answer: nat, at: int)

  datatype Lease = Lease(user: nat, until: int) {
    predicate Live(now: int) { now < until }
  }

  datatype Target = User(id: nat) | ReviewChat

  /** The history entry of a delivery: which answer was recorded as delivered, and to whom it was sent. */
  datatype Receipt = Receipt(answer: nat, to: Target)

  datatype JobKey = AnswerJob(answer: nat) | ReviewJob(answer: nat)

  datatype JobStatus = Pending | Sending | Sent | Failed

  datatype JobError = NoError | PhotoUnavailable | Superseded | OtherError

  datatype Job = Job(target: Target, status: JobStatus, attempts: int, lockedAt: Option<int>, error: JobError,
    superseded: bool, trackingApplied: bool)

  datatype Case = Case(
    policy: Policy, requester: nat, createdAt: int, deadlineAt: int,
    status: Status, group: Option<nat>, responder: Option<nat>,
    claim: Option<Lease>, sectorLease: Option<Lease>, reviewLease: Option<Lease>,
    revisionReason: Option<string>, redistributions: nat,
    answers: seq<Answer>, cycles: seq<Cycle>, submissions: seq<Submission>,
    jobs: map<JobKey, Job>, purged: set<JobKey>,
    sent: seq<Receipt>, slaDeliveredAt: Option<int>, overdue: bool)

  datatype Refusal = Conflict | CycleStillOpen | CycleMissing

  datatype Step = Done(c: Case) | Refused(why: Refusal)

  const LEASE_MS: int := 900_000
  const OUTBOX_LEASE_MS: int := 120_000
  const ANSWER_MS: nat := 86_400_000
  const PREPARATION_MS: nat := 79_200_000
  const RETURN_MS: nat := 7_200_000

  // ----- Reading rows -------------------------------------------------------

  /** The row with the highest version. */
  function Latest(answers: seq<Answer>): Answer
    requires answers != []
  {
    var last := answers[|answers| - 1];
    if |answers| == 1 then last
    else
      var best := Latest(answers[..|answers| - 1]);
      if last.version >= best.version then last else best
  }

  /** Rewrite the answer row with this id. */
  function SetAnswer(answers: seq<Answer>, a: Answer): seq<Answer> {
    seq(|answers|, i requires 0 <= i < |answers| => if answers[i].id == a.id then a else answers[i])
  }

  predicate LiveFor(lease: Option<Lease>, now: int) { lease.Some? && lease.value.Live(now) }

  /** Someone else holds the lease right now. */
  predicate HeldByOther(lease: Option<Lease>, user: nat, now: int) {
    LiveFor(lease, now) && lease.value.user != user
  }

  function OpenStatus(c: Case): Status {
    if c.revisionReason.Some? && c.revisionReason.value != "" then RevisionRequired else Assigned
  }

  /** Insert a job row unless its deduplication key exists. */
  function Enqueue(jobs: map<JobKey, Job>, key: JobKey, target: Target): map<JobKey, Job> {
    if key in jobs then jobs else jobs[key := Job(target, Pending, 0, None, NoError, false, false)]
  }

  /** `queueAnswer`: the delivery to the requester, or the review card. */
  function QueueAnswer(c: Case, answer: nat, direct: bool): Case {
    c.(jobs := if direct then Enqueue(c.jobs, AnswerJob(answer), User(c.requester))
               else Enqueue(c.jobs, ReviewJob(answer), ReviewChat))
  }

  /** `queueStaffRefresh`: a review lease does not outlive the review stage. */
  function StaffRefresh(c: Case): Case {
    if c.status == WaitingReview then c else c.(reviewLease := None)
  }

  // ----- Assignment cycles (src/sla/policy.ts) ------------------------------

  predicate LastOpen(cycles: seq<Cycle>) { cycles != [] && cycles[|cycles| - 1].endedAt == None }

  ghost function StartAssignment(policy: Policy, cycles: seq<Cycle>, group: nat, at: int): Option<seq<Cycle>> {
    if policy == Legacy then Some(cycles)
    else if LastOpen(cycles) then None
    else
      var sequence := if cycles == [] then 1 else cycles[|cycles| - 1].sequence + 1;
      Some(cycles + [Cycle(sequence, group, at, WorkingTime.DueAt(at, PREPARATION_MS), WorkingTime.DueAt(at, RETURN_MS),
                           None, None, None, Active)])
  }

  function FinishAssignment(cycles: seq<Cycle>, at: int, ending: Ending): seq<Cycle> {
    seq(|cycles|, i requires 0 <= i < |cycles| =>
      if cycles[i].endedAt == None then cycles[i].(endedAt := Some(at), ending := ending) else cycles[i])
  }

  /** The cycle `findFirst` returns for a missing end: under the invariant at most the last is open. */
  function RecordPreparation(c: Case, answer: nat, at: int): Option<Case> {
    if c.policy == Legacy then Some(c)
    else if !LastOpen(c.cycles) then None
    else
      var k := |c.cycles| - 1;
      var cycle := c.cycles[k];
      var cycles := if cycle.firstPreparedAt.Some? then c.cycles
                    else c.cycles[k := cycle.(firstPreparedAt := Some(at), firstPreparedAnswer := Some(answer))];
      Some(c.(cycles := cycles, submissions := c.submissions + [Submission(cycle.sequence, answer, at)]))
  }

  // ----- Transactions -------------------------------------------------------

  ghost function Registered(policy: Policy, requester: nat, legacyDeadline: int, now: int): Case {
    Case(policy, requester, now, if policy == WorkingHours then WorkingTime.DueAt(now, ANSWER_MS) else legacyDeadline,
      Distribution, None, None, None, None, None, None, 0, [], [], [], map[], {}, [], None, false)
  }

  /** `own`: this incident is the one the dispatcher already holds. */
  function ClaimDistribution(c: Case, user: nat, own: bool, now: int): Step {
    if c.status != Distribution || HeldByOther(c.claim, user, now) then Refused(Conflict)
    else if own then Done(c)
    else Done(c.(claim := Some(Lease(user, now + LEASE_MS))))
  }

  function ReleaseDistribution(c: Case, user: nat): Step {
    if c.status != Distribution || c.claim.None? || c.claim.value.user != user then Refused(Conflict)
    else Done(c.(claim := None))
  }

  function SweepDistribution(c: Case, now: int): Step {
    if c.status != Distribution || c.claim.None? || c.claim.value.Live(now) then Refused(Conflict)
    else Done(c.(claim := None))
  }

  /** `before` is what the pre-read saw; it may be stale. */
  ghost function Assign(c: Case, before: Case, user: nat, group: nat, now: int): Step {
    if before.status != Distribution || HeldByOther(c.claim, user, now) || c.status != Distribution then Refused(Conflict)
    else
      match StartAssignment(before.policy, c.cycles, group, now)
      case None => Refused(CycleStillOpen)
      case Some(cycles) => Done(c.(status := Assigned, group := Some(group), claim := None, cycles := cycles))
  }

  function Reject(c: Case, before: Case, user: nat, now: int): Step {
    if before.status != Distribution || HeldByOther(c.claim, user, now) || c.status != Distribution then Refused(Conflict)
    else Done(c.(status := Rejected, claim := None, jobs := map[], cycles := FinishAssignment(c.cycles, now, Dropped)))
  }

  function TakeInWork(c: Case, user: nat, now: int): Step {
    if LiveFor(c.sectorLease, now) || !Submittable(c.status) then Refused(Conflict)
    else Done(StaffRefresh(c.(sectorLease := Some(Lease(user, now + LEASE_MS)), status := InProgress, responder := Some(user))))
  }

  function ReleaseSector(c: Case, user: nat, now: int): Step {
    if HeldByOther(c.sectorLease, user, now) || !Submittable(c.status)
      || c.sectorLease.None? || c.sectorLease.value.user != user then Refused(Conflict)
    else Done(StaffRefresh(c.(sectorLease := None, responder := None, status := OpenStatus(c))))
  }

  /** `until` is the end of the lease as an earlier read saw it. */
  function SweepSector(c: Case, until: int): Step {
    if c.sectorLease.None? || c.sectorLease.value.until != until then Refused(Conflict)
    else if !Submittable(c.status) then Done(c.(sectorLease := None))
    else Done(StaffRefresh(c.(sectorLease := None, responder := None, status := OpenStatus(c))))
  }

  function ReturnToDistribution(c: Case, user: nat, now: int): Step {
    if HeldByOther(c.sectorLease, user, now) || !Submittable(c.status) || !Allowed(c.status, Distribution) then Refused(Conflict)
    else Done(StaffRefresh(c.(status := Distribution, group := None, responder := None, revisionReason := None, claim := None,
      sectorLease := None, reviewLease := None, redistributions := c.redistributions + 1,
      cycles := FinishAssignment(c.cycles, now, Returned))))
  }

  /** `direct`: the group the pre-read saw answers without review. */
  function Submit(c: Case, before: Case, direct: bool, user: nat, answer: nat, body: Body, now: int): Step {
    var target := if direct then Resolved else WaitingReview;
    if !Submittable(before.status) || !Allowed(before.status, target) || !Submittable(c.status)
      || HeldByOther(c.sectorLease, user, now) || c.group != before.group || c.redistributions != before.redistributions
    then Refused(Conflict)
    else
      var version := if c.answers == [] then 1 else Latest(c.answers).version + 1;
      var row := Answer(answer, version, body, if direct then Approved else AwaitingReview, None);
      var moved := c.(answers := c.answers + [row], status := target, responder := Some(user), sectorLease := None);
      match RecordPreparation(QueueAnswer(moved, answer, direct), answer, now)
      case None => Refused(CycleMissing)
      case Some(prepared) => Done(StaffRefresh(prepared))
  }

  /** A first claim of a waiting answer; a reviewer's own live lease is returned unchanged. */
  function ClaimReview(c: Case, user: nat, now: int): Step {
    if c.status != WaitingReview || LiveFor(c.reviewLease, now) then Refused(Conflict)
    else Done(c.(reviewLease := Some(Lease(user, now + LEASE_MS))))
  }

  function ReleaseReview(c: Case, user: nat): Step {
    if c.status != WaitingReview || c.reviewLease.None? || c.reviewLease.value.user != user then Refused(Conflict)
    else Done(c.(reviewLease := None))
  }

  function SweepReview(c: Case, now: int): Step {
    if c.reviewLease.None? || c.reviewLease.value.Live(now) then Refused(Conflict)
    else Done(c.(reviewLease := None))
  }

  /** The latest answer is still the one the pre-read showed, and waits for review. */
  predicate StillLatest(c: Case, before: Case) {
    && before.status == WaitingReview && before.answers != []
    && c.status == WaitingReview && c.answers != []
    && Latest(c.answers).id == Latest(before.answers).id && Latest(c.answers).status == AwaitingReview
  }

  /** `editing`: the reviewer holds an unsaved correction under the live lease. */
  function Approve(c: Case, before: Case, user: nat, editing: bool, now: int): Step {
    if HeldByOther(c.reviewLease, user, now) || editing || !StillLatest(c, before) then Refused(Conflict)
    else
      var answer := Latest(c.answers);
      var approved := c.(status := Resolved, answers := SetAnswer(c.answers, answer.(status := Approved)));
      Done(StaffRefresh(QueueAnswer(approved, answer.id, true)))
  }

  function RequestRevision(c: Case, before: Case, user: nat, reason: string, editing: bool, now: int): Step {
    if HeldByOther(c.reviewLease, user, now) || editing || !StillLatest(c, before) then Refused(Conflict)
    else
      Done(StaffRefresh(c.(status := RevisionRequired, revisionReason := Some(reason),
        answers := SetAnswer(c.answers, Latest(c.answers).(status := Revision)))))
  }

  /** The previous version keeps its status; the correction becomes a new version in review with the same media. */
  function SaveCorrection(c: Case, user: nat, leaseUntil: int, expected: nat, answer: nat, text: string, now: int): Step {
    if c.reviewLease != Some(Lease(user, leaseUntil)) || leaseUntil <= now || c.status != WaitingReview
      || c.answers == [] || Latest(c.answers).id != expected || Latest(c.answers).status != AwaitingReview then Refused(Conflict)
    else
      var previous := Latest(c.answers);
      var row := Answer(answer, previous.version + 1, Body(text, previous.body.media), AwaitingReview, None);
      Done(StaffRefresh(QueueAnswer(c.(answers := c.answers + [row]), answer, false)))
  }

  /** `from`: the group in whose chat one of its responders asked for the repair, if that group is active. */
  function RepairPhoto(c: Case, from: Option<nat>, key: JobKey, now: int): Step {
    if from.None? || c.group != from || key !in c.jobs || c.answers == [] || key.answer != Latest(c.answers).id
      || c.jobs[key].status != Failed || c.jobs[key].error != PhotoUnavailable || Latest(c.answers).deliveredAt.Some?
      || (c.status != Resolved && c.status != WaitingReview) then Refused(Conflict)
    else
      var reason := "photo unavailable";
      Done(StaffRefresh(c.(
        jobs := c.jobs[key := c.jobs[key].(superseded := true, error := Superseded)],
        status := RevisionRequired, revisionReason := Some(reason), overdue := c.deadlineAt <= now,
        answers := SetAnswer(c.answers, Latest(c.answers).(status := Revision)))))
  }

  // ----- The answer's delivery job ------------------------------------------

  predicate Claimable(j: Job, now: int) {
    j.status == Pending || (j.status == Sending && j.lockedAt.Some? && j.lockedAt.value <= now - OUTBOX_LEASE_MS)
  }

  /** A claim; a superseded answer is refused before anything is sent. */
  function ClaimJob(c: Case, key: JobKey, now: int): Step {
    if key !in c.jobs || !Claimable(c.jobs[key], now) then Refused(Conflict)
    else
      var j := c.jobs[key].(attempts := c.jobs[key].attempts + 1);
      Done(c.(jobs := c.jobs[key := if j.superseded then j.(status := Failed, lockedAt := None, error := Superseded)
                                    else j.(status := Sending, lockedAt := Some(now))]))
  }

  predicate Owns(j: Job, attempts: int, lockedAt: int) {
    j.status == Sending && j.attempts == attempts && j.lockedAt == Some(lockedAt)
  }

  function FailJob(c: Case, key: JobKey, attempts: int, lockedAt: int, error: JobError, terminal: bool): Step {
    if key !in c.jobs || !Owns(c.jobs[key], attempts, lockedAt) then Refused(Conflict)
    else
      var status := if terminal || error == PhotoUnavailable then Failed else Pending;
      Done(c.(jobs := c.jobs[key := c.jobs[key].(status := status, lockedAt := None, error := error)]))
  }

  /** Each stored part renews the lock of its attempt. */
  function RenewJob(c: Case, key: JobKey, attempts: int, lockedAt: int, now: int): Step {
    if key !in c.jobs || !Owns(c.jobs[key], attempts, lockedAt) then Refused(Conflict)
    else Done(c.(jobs := c.jobs[key := c.jobs[key].(lockedAt := Some(now))]))
  }

  /** Housekeeping deletes sent rows after thirty days. */
  function PurgeJob(c: Case, key: JobKey): Step {
    if key !in c.jobs || c.jobs[key].status != Sent then Refused(Conflict)
    else Done(c.(jobs := c.jobs - {key}, purged := c.purged + {key}))
  }

  /** `assertCurrentAnswer`. */
  predicate CurrentAnswer(c: Case, answer: nat, target: Target) {
    && c.status == Resolved && c.answers != []
    && Latest(c.answers).id == answer && Latest(c.answers).status == Approved
    && target == User(c.requester) && Latest(c.answers).deliveredAt.None?
  }

  /** `recordPolicyDelivery`. */
  ghost function RecordDelivery(c: Case, now: int): Case {
    if c.policy == Legacy then c
    else c.(slaDeliveredAt := Some(now), overdue := WorkingTime.Measure(c.deadlineAt, now) > 0,
            cycles := FinishAssignment(c.cycles, now, Delivered))
  }

  /** `complete`: the job is sent; a current answer is marked delivered in the same transaction. */
  ghost function CompleteJob(c: Case, key: JobKey, attempts: int, lockedAt: int, now: int): Step {
    if key !in c.jobs || !Owns(c.jobs[key], attempts, lockedAt) then Refused(Conflict)
    else
      var j := c.jobs[key].(status := Sent, lockedAt := None, error := NoError);
      if key.ReviewJob? then Done(StaffRefresh(c.(jobs := c.jobs[key := j.(trackingApplied := true)])))
      else if !CurrentAnswer(c, key.answer, j.target) then
        Done(c.(jobs := c.jobs[key := j.(trackingApplied := false, error := OtherError)]))
      else
        var marked := c.(jobs := c.jobs[key := j.(trackingApplied := true)],
          answers := SetAnswer(c.answers, Latest(c.answers).(deliveredAt := Some(now))),
          sent := c.sent + [Receipt(key.answer, j.target)]);
        Done(StaffRefresh(RecordDelivery(marked, now)))
  }

  /** `retryFailedAnswer`, the /resend command. */
  function Resend(c: Case, answer: nat): Step {
    var key := AnswerJob(answer);
    if c.status != Resolved || c.answers == [] || Latest(c.answers).id != answer || Latest(c.answers).status != Approved
    then Refused(Conflict)
    else if Latest(c.answers).deliveredAt.Some? || key !in c.jobs || c.jobs[key].status != Failed then Done(c)
    else if c.jobs[key].target != User(c.requester) || c.jobs[key].superseded then Refused(Conflict)
    else Done(c.(jobs := c.jobs[key := c.jobs[key].(status := Pending, attempts := 0, lockedAt := None)]))
  }

  /** `retryFailedOutbound`, the /delivery_retry command: any failed row, no business check. */
  function RetryFailed(c: Case, key: JobKey): Step {
    if key !in c.jobs || c.jobs[key].status != Failed then Refused(Conflict)
    else Done(c.(jobs := c.jobs[key := c.jobs[key].(status := Pending, attempts := 0, lockedAt := None, error := NoError)]))
  }
}
