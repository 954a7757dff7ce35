/** All incidents together, in every interleaving of staff, sweeps and delivery.
  * Each event is one database transaction; a pre-read is an event of its own, so what it saw
  * may be stale when its transaction runs. */
module Workflow {
  import opened Incident
  import opened IncidentInvariants
  import opened AnswerInvariants
  import opened Wrappers
  import WorkingTime

  /** A reviewer's unsaved correction, bound to the lease it was started under. */
  datatype Edit = Edit(incident: nat, answer: nat, leaseUntil: int, text: string, expires: int)

  /** What a request read before its transaction: the incident, and whether its group answers directly. */
  datatype Read = Read(incident: nat, seen: Case, direct: bool)

  datatype World = World(now: int, cases: map<nat, Case>, edits: map<nat, Edit>, requests: map<nat, Read>)

  datatype Event =
    | Tick(ms: nat)
    | Register(id: nat, policy: Policy, requester: nat, legacyDeadline: int)
    | PreRead(request: nat, id: nat, direct: bool)
    | ClaimNext(user: nat, id: nat, named: bool)
    | ReleaseClaim(user: nat, id: nat)
    | ExpireClaim(id: nat)
    | AssignGroup(request: nat, user: nat, group: nat)
    | RejectIncident(request: nat, user: nat)
    | Take(user: nat, id: nat)
    | Release(user: nat, id: nat)
    | ExpireSector(id: nat, until: int)
    | Return(user: nat, id: nat)
    | SubmitAnswer(request: nat, user: nat, answer: nat, body: Body)
    | StartReview(user: nat, id: nat, named: bool)
    | StopReview(user: nat, id: nat)
    | ExpireReview(id: nat)
    | BeginEdit(user: nat, id: nat, text: string, expires: int)
    | DropEdit(user: nat)
    | ApproveAnswer(request: nat, user: nat)
    | SendBack(request: nat, user: nat, reason: string)
    | SaveEdit(user: nat, answer: nat)
    | Repair(user: nat, id: nat, from: Option<nat>, key: JobKey)
    | JobClaimed(id: nat, key: JobKey)
    | JobFailed(id: nat, key: JobKey, attempts: int, lockedAt: int, error: JobError, terminal: bool)
    | JobRenewed(id: nat, key: JobKey, attempts: int, lockedAt: int)
    | JobCompleted(id: nat, key: JobKey, attempts: int, lockedAt: int)
    | ResendAnswer(id: nat, answer: nat)
    | RetryJob(id: nat, key: JobKey)
    | JobPurged(id: nat, key: JobKey)

  // ----- Guards that look across incidents ----------------------------------

  predicate HoldsClaim(c: Case, user: nat, now: int) {
    c.status == Distribution && LiveFor(c.claim, now) && c.claim.value.user == user
  }

  predicate HoldsReview(c: Case, user: nat, now: int) {
    c.status == WaitingReview && LiveFor(c.reviewLease, now) && c.reviewLease.value.user == user
  }

  predicate ClaimsElsewhere(w: World, user: nat, id: nat) {
    exists j :: j in w.cases && j != id && HoldsClaim(w.cases[j], user, w.now)
  }

  predicate Reviews(w: World, user: nat) {
    exists j :: j in w.cases && HoldsReview(w.cases[j], user, w.now)
  }

  predicate Before(a: int, b: int, id: nat, a': int, b': int, id': nat) {
    a < a' || (a == a' && (b < b' || (b == b' && id <= id')))
  }

  /** The free incident with the nearest deadline. */
  predicate NextFree(w: World, id: nat) {
    id in w.cases && !LiveFor(w.cases[id].claim, w.now)
    && forall j :: j in w.cases && w.cases[j].status == Distribution && !LiveFor(w.cases[j].claim, w.now) ==>
         Before(w.cases[id].deadlineAt, w.cases[id].createdAt, id, w.cases[j].deadlineAt, w.cases[j].createdAt, j)
  }

  /** The oldest answer waiting for a reviewer. */
  predicate NextWaiting(w: World, id: nat) {
    id in w.cases && !LiveFor(w.cases[id].reviewLease, w.now)
    && forall j :: j in w.cases && w.cases[j].status == WaitingReview && !LiveFor(w.cases[j].reviewLease, w.now) ==>
         Before(w.cases[id].createdAt, 0, id, w.cases[j].createdAt, 0, j)
  }

  /** The reviewer holds an unsaved correction of this incident under the live lease. */
  predicate Editing(w: World, user: nat, id: nat, c: Case) {
    && HoldsReview(c, user, w.now) && user in w.edits
    && w.edits[user].incident == id && w.now < w.edits[user].expires
    && w.edits[user].leaseUntil == c.reviewLease.value.until
  }

  // ----- Events -------------------------------------------------------------

  function Subject(w: World, e: Event): Option<nat> {
    match e
    case ClaimNext(_, id, _) => Some(id)
    case ReleaseClaim(_, id) => Some(id)
    case ExpireClaim(id) => Some(id)
    case Take(_, id) => Some(id)
    case Release(_, id) => Some(id)
    case ExpireSector(id, _) => Some(id)
    case Return(_, id) => Some(id)
    case StartReview(_, id, _) => Some(id)
    case StopReview(_, id) => Some(id)
    case ExpireReview(id) => Some(id)
    case Repair(_, id, _, _) => Some(id)
    case JobClaimed(id, _) => Some(id)
    case JobFailed(id, _, _, _, _, _) => Some(id)
    case JobRenewed(id, _, _, _) => Some(id)
    case JobCompleted(id, _, _, _) => Some(id)
    case ResendAnswer(id, _) => Some(id)
    case RetryJob(id, _) => Some(id)
    case JobPurged(id, _) => Some(id)
    case AssignGroup(r, _, _) => Requested(w, r)
    case RejectIncident(r, _) => Requested(w, r)
    case SubmitAnswer(r, _, _, _) => Requested(w, r)
    case ApproveAnswer(r, _) => Requested(w, r)
    case SendBack(r, _, _) => Requested(w, r)
    case SaveEdit(user, _) => if user in w.edits then Some(w.edits[user].incident) else None
    case _ => None
  }

  function Requested(w: World, request: nat): Option<nat> {
    if request in w.requests then Some(w.requests[request].incident) else None
  }

  /** The transaction this event runs on its incident. */
  ghost function StepOf(w: World, e: Event, id: nat): Step
    requires Subject(w, e) == Some(id) && id in w.cases
  {
    var c := w.cases[id];
    match e
    case ClaimNext(user, _, named) =>
      if ClaimsElsewhere(w, user, id) || (!named && !HoldsClaim(c, user, w.now) && !NextFree(w, id)) then Refused(Conflict)
      else ClaimDistribution(c, user, HoldsClaim(c, user, w.now), w.now)
    case ReleaseClaim(user, _) => ReleaseDistribution(c, user)
    case ExpireClaim(_) => SweepDistribution(c, w.now)
    case AssignGroup(r, user, group) => Assign(c, w.requests[r].seen, user, group, w.now)
    case RejectIncident(r, user) => Reject(c, w.requests[r].seen, user, w.now)
    case Take(user, _) => TakeInWork(c, user, w.now)
    case Release(user, _) => ReleaseSector(c, user, w.now)
    case ExpireSector(_, until) => if w.now < until then Refused(Conflict) else SweepSector(c, until)
    case Return(user, _) => ReturnToDistribution(c, user, w.now)
    case SubmitAnswer(r, user, answer, body) =>
      if HasAnswer(c.answers, answer) then Refused(Conflict)
      else Submit(c, w.requests[r].seen, w.requests[r].direct, user, answer, body, w.now)
    case StartReview(user, _, named) =>
      if Reviews(w, user) || (!named && !NextWaiting(w, id)) then Refused(Conflict)
      else ClaimReview(c, user, w.now)
    case StopReview(user, _) => ReleaseReview(c, user)
    case ExpireReview(_) => SweepReview(c, w.now)
    case ApproveAnswer(r, user) => Approve(c, w.requests[r].seen, user, Editing(w, user, id, c), w.now)
    case SendBack(r, user, reason) => RequestRevision(c, w.requests[r].seen, user, reason, Editing(w, user, id, c), w.now)
    case SaveEdit(user, answer) =>
      if HasAnswer(c.answers, answer) || w.edits[user].expires <= w.now then Refused(Conflict)
      else SaveCorrection(c, user, w.edits[user].leaseUntil, w.edits[user].answer, answer, w.edits[user].text, w.now)
    case Repair(_, _, from, key) => RepairPhoto(c, from, key, w.now)
    case JobClaimed(_, key) => ClaimJob(c, key, w.now)
    case JobFailed(_, key, attempts, lockedAt, error, terminal) => FailJob(c, key, attempts, lockedAt, error, terminal)
    case JobRenewed(_, key, attempts, lockedAt) => RenewJob(c, key, attempts, lockedAt, w.now)
    case JobCompleted(_, key, attempts, lockedAt) => CompleteJob(c, key, attempts, lockedAt, w.now)
    case ResendAnswer(_, answer) => Resend(c, answer)
    case RetryJob(_, key) => RetryFailed(c, key)
    case JobPurged(_, key) => PurgeJob(c, key)
  }

  /** The reviewer whose correction this event saves. */
  function Saves(e: Event): Option<nat> { if e.SaveEdit? then Some(e.user) else None }

  /** Store the incident; corrections do not outlive the review stage, and a saved one is consumed. */
  function Store(w: World, saved: Option<nat>, id: nat, c: Case): World {
    w.(cases := w.cases[id := c],
       edits := map u | u in w.edits && !(w.edits[u].incident == id && c.status != WaitingReview) && saved != Some(u) :: w.edits[u])
  }

  /** Run the event's transaction; a refused one changes nothing. */
  ghost function Transact(w: World, e: Event): World {
    match Subject(w, e)
    case None => w
    case Some(id) =>
      if id !in w.cases then w
      else
        match StepOf(w, e, id)
        case Refused(_) => w
        case Done(c) => Store(w, Saves(e), id, c)
  }

  ghost function Apply(w: World, e: Event): World {
    match e
    case Tick(ms) => w.(now := w.now + ms)
    case Register(id, policy, requester, legacyDeadline) =>
      if id in w.cases then w else w.(cases := w.cases[id := Registered(policy, requester, legacyDeadline, w.now)])
    case PreRead(request, id, direct) =>
      if id !in w.cases then w else w.(requests := w.requests[request := Read(id, w.cases[id], direct)])
    case BeginEdit(user, id, text, expires) =>
      if id !in w.cases || !HoldsReview(w.cases[id], user, w.now) || w.cases[id].answers == [] then w
      else w.(edits := w.edits[user := Edit(id, Latest(w.cases[id].answers).id, w.cases[id].reviewLease.value.until, text, expires)])
    case DropEdit(user) => w.(edits := w.edits - {user})
    case _ => Transact(w, e)
  }

  ghost function Run(w: World, events: seq<Event>): World {
    if events == [] then w else Apply(Run(w, events[..|events| - 1]), events[|events| - 1])
  }

  const Start: World := World(0, map[], map[], map[])

  // ----- The invariant of every run -----------------------------------------

  ghost predicate CasesInv(w: World) { forall id :: id in w.cases ==> Inv(w.cases[id], w.now) }

  /** A dispatcher holds at most one live claim, a reviewer at most one live lease. */
  ghost predicate OneHolder(w: World) {
    && (forall i, j, u ::
          i in w.cases && j in w.cases && HoldsClaim(w.cases[i], u, w.now) && HoldsClaim(w.cases[j], u, w.now) ==> i == j)
    && (forall i, j, u ::
          i in w.cases && j in w.cases && HoldsReview(w.cases[i], u, w.now) && HoldsReview(w.cases[j], u, w.now) ==> i == j)
  }

  ghost predicate ReadOk(cases: map<nat, Case>, read: Read) {
    read.incident in cases && Evolves(read.seen, cases[read.incident])
  }

  /** What a request saw is an earlier state of its incident. */
  ghost predicate ReadsInv(w: World) { forall r :: r in w.requests ==> ReadOk(w.cases, w.requests[r]) }

  ghost predicate WorldInv(w: World) { CasesInv(w) && OneHolder(w) && ReadsInv(w) }

  ghost predicate FollowsAt(w: World, w': World, id: nat)
    requires id in w.cases
  {
    id in w'.cases && Evolves(w.cases[id], w'.cases[id])
  }

  /** What any number of events may do to the incidents there were. */
  ghost predicate Follows(w: World, w': World) {
    w.now <= w'.now && forall id :: id in w.cases ==> FollowsAt(w, w', id)
  }

  /** Time alone breaks nothing. */
  lemma LaterInv(c: Case, now: int, later: int)
    requires Inv(c, now) && now <= later
    ensures Inv(c, later)
  {
    forall i | 0 <= i < |c.cycles| ensures CycleOk(c.cycles, i, c.createdAt, later) {
      assert CycleOk(c.cycles, i, c.createdAt, now);
    }
    forall i | 0 <= i < |c.submissions| ensures LoggedAt(c.submissions, i, |c.cycles|, later) {
      assert LoggedAt(c.submissions, i, |c.cycles|, now);
    }
  }

  ghost predicate StepHolds(w: World, e: Event, id: nat)
    requires Subject(w, e) == Some(id) && id in w.cases
  {
    Good(w.cases[id], StepOf(w, e, id), w.now)
    && (StepOf(w, e, id).Refused? ==> StepOf(w, e, id).why == Conflict)
  }

  predicate DistributionEvent(e: Event) {
    e.ClaimNext? || e.ReleaseClaim? || e.ExpireClaim? || e.AssignGroup? || e.RejectIncident?
  }

  predicate SectorEvent(e: Event) {
    e.Take? || e.Release? || e.ExpireSector? || e.Return? || e.SubmitAnswer?
  }

  predicate ReviewLeaseEvent(e: Event) { e.StartReview? || e.StopReview? || e.ExpireReview? }

  predicate VerdictEvent(e: Event) { e.ApproveAnswer? || e.SendBack? || e.SaveEdit? || e.Repair? }

  predicate JobEvent(e: Event) { e.JobClaimed? || e.JobFailed? || e.RetryJob? || e.JobRenewed? || e.JobPurged? }

  lemma ClaimStep(w: World, e: Event, id: nat)
    requires e.ClaimNext? && e.id == id && id in w.cases && Inv(w.cases[id], w.now)
    ensures StepHolds(w, e, id)
  {
    hide AnswersInv, JobsInv, DeliveryInv, CyclesInv, PreparationInv, ClockInv, LeaseInv, Edge, Evolves, LeasesKept;
    ClaimDistributionGood(w.cases[id], e.user, HoldsClaim(w.cases[id], e.user, w.now), w.now);
  }

  lemma DistributionStep(w: World, e: Event, id: nat)
    requires DistributionEvent(e) && Subject(w, e) == Some(id) && id in w.cases && Inv(w.cases[id], w.now)
    requires e.AssignGroup? ==> Evolves(w.requests[e.request].seen, w.cases[id])
    ensures StepHolds(w, e, id)
  {
    hide Inv, Edge, Evolves, LeasesKept, HeldByOther, LiveFor, StartAssignment, FinishAssignment;
    var c := w.cases[id];
    match e {
      case ClaimNext(_, _, _) => ClaimStep(w, e, id);
      case ReleaseClaim(user, _) => ReleaseDistributionGood(c, user, w.now);
      case ExpireClaim(_) => ReleaseDistributionGood(c, 0, w.now);
      case AssignGroup(r, user, group) => AssignGood(c, w.requests[r].seen, user, group, w.now);
      case RejectIncident(r, user) => RejectGood(c, w.requests[r].seen, user, w.now);
      case _ =>
    }
  }

  lemma SectorRefusal(w: World, e: Event, id: nat)
    requires SectorEvent(e) && Subject(w, e) == Some(id) && id in w.cases && Inv(w.cases[id], w.now)
    ensures StepOf(w, e, id).Refused? ==> StepOf(w, e, id).why == Conflict
  {
    hide AnswersInv, JobsInv, PreparationInv, ClockInv, LeaseInv, HeldByOther, LiveFor, Latest, OpenStatus, HasAnswer;
  }

  lemma SubmitStep(w: World, e: Event, id: nat)
    requires e.SubmitAnswer? && Subject(w, e) == Some(id) && id in w.cases && Inv(w.cases[id], w.now)
    ensures StepHolds(w, e, id)
  {
    hide Inv, Edge, Evolves, LeasesKept, HeldByOther, LiveFor, Latest, FinishAssignment, OpenStatus, HasAnswer;
    hide TakeInWork, ReleaseSector, SweepSector, ReturnToDistribution, Submit;
    var c := w.cases[id];
    SectorRefusal(w, e, id);
    if !HasAnswer(c.answers, e.answer) {
      SubmitGood(c, w.requests[e.request].seen, w.requests[e.request].direct, e.user, e.answer, e.body, w.now);
    }
  }

  lemma WorkStep(w: World, e: Event, id: nat)
    requires (e.Take? || e.Return?) && Subject(w, e) == Some(id) && id in w.cases && Inv(w.cases[id], w.now)
    ensures StepHolds(w, e, id)
  {
    hide Inv, Edge, Evolves, LeasesKept, HeldByOther, LiveFor, Latest, FinishAssignment, OpenStatus, HasAnswer;
    hide TakeInWork, ReleaseSector, SweepSector, ReturnToDistribution, Submit;
    SectorRefusal(w, e, id);
    if e.Take? { TakeInWorkGood(w.cases[id], e.user, w.now); } else { ReturnGood(w.cases[id], e.user, w.now); }
  }

  lemma GiveBackStep(w: World, e: Event, id: nat)
    requires (e.Release? || e.ExpireSector?) && Subject(w, e) == Some(id) && id in w.cases && Inv(w.cases[id], w.now)
    ensures StepHolds(w, e, id)
  {
    hide Inv, Edge, Evolves, LeasesKept, HeldByOther, LiveFor, Latest, FinishAssignment, OpenStatus, HasAnswer;
    hide TakeInWork, ReleaseSector, SweepSector, ReturnToDistribution, Submit;
    SectorRefusal(w, e, id);
    if e.Release? { ReleaseSectorGood(w.cases[id], e.user, w.now); } else { SweepSectorGood(w.cases[id], e.until, w.now); }
  }

  lemma SectorStep(w: World, e: Event, id: nat)
    requires SectorEvent(e) && Subject(w, e) == Some(id) && id in w.cases && Inv(w.cases[id], w.now)
    ensures StepHolds(w, e, id)
  {
    hide Inv, StepHolds, StepOf;
    if e.SubmitAnswer? { SubmitStep(w, e, id); }
    else if e.Take? || e.Return? { WorkStep(w, e, id); }
    else { GiveBackStep(w, e, id); }
  }

  lemma ReviewLeaseStep(w: World, e: Event, id: nat)
    requires ReviewLeaseEvent(e) && Subject(w, e) == Some(id) && id in w.cases && Inv(w.cases[id], w.now)
    ensures StepHolds(w, e, id)
  {
    hide Inv, Edge, Evolves, LeasesKept, LiveFor, Reviews, NextWaiting;
    var c := w.cases[id];
    match e {
      case StartReview(user, _, _) => ReviewLeaseGood(c, user, w.now);
      case StopReview(user, _) => ReviewLeaseGood(c, user, w.now);
      case ExpireReview(_) => ReviewLeaseGood(c, 0, w.now);
      case _ =>
    }
  }

  lemma VerdictRefusal(w: World, e: Event, id: nat)
    requires VerdictEvent(e) && Subject(w, e) == Some(id) && id in w.cases
    ensures StepOf(w, e, id).Refused? ==> StepOf(w, e, id).why == Conflict
  {
    hide HeldByOther, LiveFor, Latest, HasAnswer, Editing, SetAnswer, Enqueue;
  }

  lemma JudgementStep(w: World, e: Event, id: nat)
    requires (e.ApproveAnswer? || e.SendBack?) && Subject(w, e) == Some(id) && id in w.cases && Inv(w.cases[id], w.now)
    ensures StepHolds(w, e, id)
  {
    hide Inv, Edge, Evolves, LeasesKept, HeldByOther, Latest, SetAnswer, Enqueue, HasAnswer, Editing;
    hide Approve, RequestRevision, SaveCorrection, RepairPhoto;
    var c := w.cases[id];
    VerdictRefusal(w, e, id);
    if e.ApproveAnswer? { ApproveGood(c, w.requests[e.request].seen, e.user, Editing(w, e.user, id, c), w.now); }
    else { RequestRevisionGood(c, w.requests[e.request].seen, e.user, e.reason, Editing(w, e.user, id, c), w.now); }
  }

  lemma RewriteStep(w: World, e: Event, id: nat)
    requires (e.SaveEdit? || e.Repair?) && Subject(w, e) == Some(id) && id in w.cases && Inv(w.cases[id], w.now)
    ensures StepHolds(w, e, id)
  {
    hide Inv, Edge, Evolves, LeasesKept, HeldByOther, Latest, SetAnswer, Enqueue, HasAnswer, Editing;
    hide Approve, RequestRevision, SaveCorrection, RepairPhoto;
    var c := w.cases[id];
    VerdictRefusal(w, e, id);
    if e.Repair? {
      RepairPhotoGood(c, e.from, e.key, w.now);
    } else if !HasAnswer(c.answers, e.answer) {
      SaveCorrectionGood(c, e.user, w.edits[e.user].leaseUntil, w.edits[e.user].answer, e.answer, w.edits[e.user].text, w.now);
    }
  }

  lemma VerdictStep(w: World, e: Event, id: nat)
    requires VerdictEvent(e) && Subject(w, e) == Some(id) && id in w.cases && Inv(w.cases[id], w.now)
    ensures StepHolds(w, e, id)
  {
    hide Inv, StepHolds, StepOf;
    if e.ApproveAnswer? || e.SendBack? { JudgementStep(w, e, id); } else { RewriteStep(w, e, id); }
  }

  lemma AttemptStep(w: World, e: Event, id: nat)
    requires (e.JobClaimed? || e.JobFailed? || e.JobRenewed?) && Subject(w, e) == Some(id) && id in w.cases && Inv(w.cases[id], w.now)
    ensures StepHolds(w, e, id)
  {
    hide Inv, Edge, Evolves, LeasesKept, Claimable, Owns;
    var c := w.cases[id];
    match e {
      case JobClaimed(_, key) => ClaimJobGood(c, key, w.now);
      case JobFailed(_, key, attempts, lockedAt, error, terminal) => FailJobGood(c, key, attempts, lockedAt, error, terminal, w.now);
      case JobRenewed(_, key, attempts, lockedAt) => RenewJobGood(c, key, attempts, lockedAt, w.now);
      case _ =>
    }
  }

  lemma RowStep(w: World, e: Event, id: nat)
    requires (e.RetryJob? || e.JobPurged?) && Subject(w, e) == Some(id) && id in w.cases && Inv(w.cases[id], w.now)
    ensures StepHolds(w, e, id)
  {
    hide Inv, Edge, Evolves, LeasesKept;
    var c := w.cases[id];
    match e {
      case RetryJob(_, key) => RetryFailedGood(c, key, w.now);
      case JobPurged(_, key) => PurgeJobGood(c, key, w.now);
      case _ =>
    }
  }

  lemma CompletionStep(w: World, e: Event, id: nat)
    requires (e.JobCompleted? || e.ResendAnswer?) && Subject(w, e) == Some(id) && id in w.cases && Inv(w.cases[id], w.now)
    ensures StepHolds(w, e, id)
  {
    hide Inv, Edge, Evolves, LeasesKept, Owns, Latest, SetAnswer, RecordDelivery;
    var c := w.cases[id];
    if e.JobCompleted? {
      CompleteJobGood(c, e.key, e.attempts, e.lockedAt, w.now);
    } else {
      ResendGood(c, e.answer, w.now);
    }
  }

  /** Every transaction keeps its incident's invariant, and the only refusal is a conflict:
    * the assignment-cycle errors cannot be reached. */
  lemma StepGood(w: World, e: Event, id: nat)
    requires CasesInv(w) && ReadsInv(w) && Subject(w, e) == Some(id) && id in w.cases
    ensures StepHolds(w, e, id)
  {
    hide Inv, StepHolds, StepOf, OneHolder, Evolves;
    assert Inv(w.cases[id], w.now);
    if e.AssignGroup? { assert ReadOk(w.cases, w.requests[e.request]); }
    if DistributionEvent(e) { DistributionStep(w, e, id); }
    else if SectorEvent(e) { SectorStep(w, e, id); }
    else if ReviewLeaseEvent(e) { ReviewLeaseStep(w, e, id); }
    else if VerdictEvent(e) { VerdictStep(w, e, id); }
    else if e.RetryJob? || e.JobPurged? { RowStep(w, e, id); }
    else if JobEvent(e) { AttemptStep(w, e, id); }
    else { CompletionStep(w, e, id); }
  }

  // ----- Leases across incidents --------------------------------------------

  predicate NewLease(lease: Option<Lease>, lease': Option<Lease>) { lease'.Some? && lease' != lease }

  lemma DistributionLeases(w: World, e: Event, id: nat)
    requires DistributionEvent(e) && Subject(w, e) == Some(id) && id in w.cases && StepOf(w, e, id).Done?
    ensures NewLease(w.cases[id].claim, StepOf(w, e, id).c.claim) ==>
              e.ClaimNext? && !ClaimsElsewhere(w, e.user, id) && StepOf(w, e, id).c.claim == Some(Lease(e.user, w.now + LEASE_MS))
    ensures !NewLease(w.cases[id].reviewLease, StepOf(w, e, id).c.reviewLease)
  {
    hide HeldByOther, LiveFor, ClaimsElsewhere, NextFree, HoldsClaim, Latest, StartAssignment, FinishAssignment, OpenStatus, HasAnswer;
  }

  lemma SectorLeases(w: World, e: Event, id: nat)
    requires SectorEvent(e) && Subject(w, e) == Some(id) && id in w.cases && StepOf(w, e, id).Done?
    ensures !NewLease(w.cases[id].claim, StepOf(w, e, id).c.claim)
    ensures !NewLease(w.cases[id].reviewLease, StepOf(w, e, id).c.reviewLease)
  {
    hide HeldByOther, LiveFor, ClaimsElsewhere, NextFree, HoldsClaim, Latest, StartAssignment, FinishAssignment, OpenStatus, HasAnswer;
  }

  lemma ReviewLeases(w: World, e: Event, id: nat)
    requires (ReviewLeaseEvent(e) || VerdictEvent(e)) && Subject(w, e) == Some(id) && id in w.cases && StepOf(w, e, id).Done?
    ensures !NewLease(w.cases[id].claim, StepOf(w, e, id).c.claim)
    ensures NewLease(w.cases[id].reviewLease, StepOf(w, e, id).c.reviewLease) ==>
              e.StartReview? && !Reviews(w, e.user) && StepOf(w, e, id).c.reviewLease == Some(Lease(e.user, w.now + LEASE_MS))
  {
    hide HeldByOther, LiveFor, Editing, Reviews, NextWaiting, Latest, SetAnswer, Enqueue, HasAnswer;
  }

  lemma JobLeases(w: World, e: Event, id: nat)
    requires JobEvent(e) && Subject(w, e) == Some(id) && id in w.cases && StepOf(w, e, id).Done?
    ensures !NewLease(w.cases[id].claim, StepOf(w, e, id).c.claim)
    ensures !NewLease(w.cases[id].reviewLease, StepOf(w, e, id).c.reviewLease)
  {
    hide Claimable, Owns;
  }

  lemma DeliveryLeases(w: World, e: Event, id: nat)
    requires (e.JobCompleted? || e.ResendAnswer?) && Subject(w, e) == Some(id) && id in w.cases && StepOf(w, e, id).Done?
    ensures !NewLease(w.cases[id].claim, StepOf(w, e, id).c.claim)
    ensures !NewLease(w.cases[id].reviewLease, StepOf(w, e, id).c.reviewLease)
  {
    hide Owns, CurrentAnswer, Latest, SetAnswer, FinishAssignment;
  }

  lemma NewLeases(w: World, e: Event, id: nat)
    requires Subject(w, e) == Some(id) && id in w.cases && StepOf(w, e, id).Done?
    ensures NewLease(w.cases[id].claim, StepOf(w, e, id).c.claim) ==>
              e.ClaimNext? && !ClaimsElsewhere(w, e.user, id) && StepOf(w, e, id).c.claim == Some(Lease(e.user, w.now + LEASE_MS))
    ensures NewLease(w.cases[id].reviewLease, StepOf(w, e, id).c.reviewLease) ==>
              e.StartReview? && !Reviews(w, e.user) && StepOf(w, e, id).c.reviewLease == Some(Lease(e.user, w.now + LEASE_MS))
  {
    hide StepOf, NewLease, ClaimsElsewhere, Reviews;
    if DistributionEvent(e) { DistributionLeases(w, e, id); }
    else if SectorEvent(e) { SectorLeases(w, e, id); }
    else if ReviewLeaseEvent(e) || VerdictEvent(e) { ReviewLeases(w, e, id); }
    else if JobEvent(e) { JobLeases(w, e, id); }
    else { DeliveryLeases(w, e, id); }
  }

  /** Only a dispatcher who holds nothing else takes an incident, and only for 15 minutes. */
  lemma ClaimComesFrom(w: World, e: Event, id: nat)
    requires Subject(w, e) == Some(id) && id in w.cases
    requires StepOf(w, e, id).Done? && NewLease(w.cases[id].claim, StepOf(w, e, id).c.claim)
    ensures e.ClaimNext? && !ClaimsElsewhere(w, e.user, id)
    ensures StepOf(w, e, id).c.claim == Some(Lease(e.user, w.now + LEASE_MS))
  {
    hide StepOf, ClaimsElsewhere, Reviews, NewLease;
    NewLeases(w, e, id);
  }

  /** The same for reviewers. */
  lemma ReviewComesFrom(w: World, e: Event, id: nat)
    requires Subject(w, e) == Some(id) && id in w.cases
    requires StepOf(w, e, id).Done? && NewLease(w.cases[id].reviewLease, StepOf(w, e, id).c.reviewLease)
    ensures e.StartReview? && !Reviews(w, e.user)
    ensures StepOf(w, e, id).c.reviewLease == Some(Lease(e.user, w.now + LEASE_MS))
  {
    hide StepOf, ClaimsElsewhere, Reviews, NewLease;
    NewLeases(w, e, id);
  }

  /** Nobody gains a second incident when each holder of the new row held it before, or holds no other. */
  lemma UpdateKeepsOneHolder(w: World, id: nat, c': Case)
    requires OneHolder(w) && id in w.cases
    requires forall u :: HoldsClaim(c', u, w.now) ==> HoldsClaim(w.cases[id], u, w.now) || !ClaimsElsewhere(w, u, id)
    requires forall u :: HoldsReview(c', u, w.now) ==> HoldsReview(w.cases[id], u, w.now) || !Reviews(w, u)
    ensures OneHolder(w.(cases := w.cases[id := c']))
  {
  }

  lemma StoreKeepsOneHolder(w: World, e: Event, id: nat)
    requires OneHolder(w) && Subject(w, e) == Some(id) && id in w.cases && StepOf(w, e, id).Done?
    requires StageInv(w.cases[id])
    ensures OneHolder(w.(cases := w.cases[id := StepOf(w, e, id).c]))
  {
    var c, c' := w.cases[id], StepOf(w, e, id).c;
    forall u | HoldsClaim(c', u, w.now) ensures HoldsClaim(c, u, w.now) || !ClaimsElsewhere(w, u, id) {
      if NewLease(c.claim, c'.claim) { ClaimComesFrom(w, e, id); }
    }
    forall u | HoldsReview(c', u, w.now) ensures HoldsReview(c, u, w.now) || !Reviews(w, u) {
      if NewLease(c.reviewLease, c'.reviewLease) { ReviewComesFrom(w, e, id); }
    }
    UpdateKeepsOneHolder(w, id, c');
  }
}
