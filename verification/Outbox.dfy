/** The durable outbox (src/max/max-message.service.ts): jobs ordered per recipient, timed leases,
  * multi-part sends that resume from stored acknowledgements. MAX and the database connection are
  * adversaries: a call may take effect and lose its reply. */
module Outbox {
  import opened Wrappers

  /** How a job is delivered. `Message` parts are stored as they are acknowledged; the rest are short
    * notices sent without stored progress. An invitation waits for the requester's rating. */
  datatype Kind = Message | Invitation | Reminder | Deadline

  datatype Status = Pending | Deferred | Sending | Sent | Failed | Cancelled

  /** `deliveryProgress`: the plan it was made for, and the acknowledged ids. */
  datatype Progress = Progress(plan: seq<nat>, mids: seq<nat>)

  /** One outbox row. `key` is its deduplication key; `epoch` counts its claims and `lastLock` keeps the latest
    * lock, and no guard reads those two. */
  datatype Job = Job(key: Option<nat>, target: nat, kind: Kind, plan: seq<nat>, progress: Option<Progress>,
    status: Status, attempts: int, nextAt: int, lockedAt: Option<int>,
    error: bool, rated: bool, superseded: bool, epoch: nat, lastLock: int)

  /** What a worker is about to do. */
  datatype Phase = Preparing | Checking | Posting | Storing(mid: nat) | Failing(stale: bool)

  /** An attempt in memory: the row as the worker last knew it. */
  datatype Worker = Worker(process: nat, job: nat, target: nat, kind: Kind, attempts: int, lockedAt: int, error: bool,
    plan: seq<nat>, progress: Option<Progress>, sent: nat, phase: Phase, epoch: nat)

  /** A message MAX accepted: which part, whether its reply arrived, and how many ids were stored then. */
  datatype Post = Post(job: nat, part: nat, text: nat, target: nat, mid: nat, replied: bool, stored: nat)

  datatype State = State(now: int, next: nat, jobs: map<nat, Job>, workers: map<nat, Worker>, log: seq<Post>)

  /** How a call to MAX ends after it was accepted. */
  datatype Reply = Arrives | LostAndRaised | LostAndRetried

  datatype Verdict = Proceed | Hold | Skip | Refuse

  datatype Event =
    | Tick(ms: nat)
    | Enqueue(key: Option<nat>, target: nat, kind: Kind, plan: seq<nat>, rated: bool)
    | Claim(worker: nat, process: nat, job: nat, verdict: Verdict)
    | Prepare(worker: nat, current: bool, upgrade: Option<seq<nat>>)
    | Check(worker: nat, current: bool)
    | Accepted(worker: nat, mid: nat, reply: Reply)
    | Rejected(worker: nat)
    | Store(worker: nat, write: Write)
    | Complete(worker: nat, write: Write)
    | Fail(worker: nat, photo: bool, delay: nat)
    | Defer(worker: nat, until: int)
    | Cancel(worker: nat)
    | Crash(worker: nat)
    | Retry(job: nat, clearError: bool)
    | Release(job: nat, plan: seq<nat>)
    | Supersede(job: nat)
    | Delete(job: nat)

  const LEASE_MS: int := 120_000
  const MAX_ATTEMPTS: int := 12
  const HOLD_MS: int := 5_000
  const PAUSE_MS: int := 60_000

  // ----- Claiming -----------------------------------------------------------

  predicate Resumable(kind: Kind) { kind == Message || kind == Invitation }

  function Mids(progress: Option<Progress>): seq<nat> { if progress.Some? then progress.value.mids else [] }

  /** The rows that hold a job back: another send under way, or an earlier row that is due or was attempted. */
  predicate HoldsBack(other: Job, otherId: nat, job: Job, id: nat, now: int) {
    && otherId != id && other.target == job.target
    && match other.status
       case Sending => otherId < id || (other.lockedAt.Some? && other.lockedAt.value > now - LEASE_MS)
       case Pending => otherId < id && (other.nextAt <= now || other.attempts > 0)
       case Deferred => otherId < id && other.nextAt <= now
       case _ => false
  }

  predicate HasPredecessor(s: State, id: nat)
    requires id in s.jobs
  {
    exists other :: other in s.jobs && HoldsBack(s.jobs[other], other, s.jobs[id], id, s.now)
  }

  predicate Claimable(j: Job, now: int) {
    || ((j.status == Pending || j.status == Deferred) && j.nextAt <= now)
    || (j.status == Sending && j.lockedAt.Some? && j.lockedAt.value <= now - LEASE_MS)
  }

  /** `activeTargets`: a process sends to one recipient at a time. */
  predicate Busy(s: State, process: nat, target: nat) {
    exists w :: w in s.workers && s.workers[w].process == process && s.workers[w].target == target
  }

  predicate MayClaim(s: State, process: nat, id: nat) {
    id in s.jobs && !Busy(s, process, s.jobs[id].target) && !HasPredecessor(s, id) && Claimable(s.jobs[id], s.now)
  }

  function Claimed(j: Job, now: int): Job {
    j.(status := Sending, lockedAt := Some(now), attempts := j.attempts + 1, epoch := j.epoch + 1, lastLock := now)
  }

  /** Hold, skip and refusal are written right after the claim and belong to it. */
  function Settled(j: Job, verdict: Verdict, now: int): Option<Job> {
    if j.superseded || (verdict == Refuse && j.kind == Message) then
      Some(j.(status := Failed, lockedAt := None, error := true))
    else if j.kind == Invitation && !j.rated then
      Some(j.(status := Pending, lockedAt := None, attempts := j.attempts - 1, nextAt := now + HOLD_MS))
    else if j.kind == Reminder && verdict == Hold then
      Some(j.(status := Pending, lockedAt := None, attempts := j.attempts - 1, nextAt := now + PAUSE_MS))
    else if j.kind == Reminder && verdict == Skip then
      Some(j.(status := Sent, lockedAt := None))
    else None
  }

  function NewWorker(j: Job, id: nat, process: nat): Worker
    requires j.lockedAt.Some?
  {
    Worker(process, id, j.target, j.kind, j.attempts, j.lockedAt.value, j.error,
           j.plan, j.progress, |Mids(j.progress)|, Preparing, j.epoch)
  }

  function ClaimJob(s: State, worker: nat, process: nat, id: nat, verdict: Verdict): State {
    if worker in s.workers || !MayClaim(s, process, id) then s
    else
      var claimed := Claimed(s.jobs[id], s.now);
      match Settled(claimed, verdict, s.now)
      case Some(settled) => s.(jobs := s.jobs[id := settled])
      case None => s.(jobs := s.jobs[id := claimed], workers := s.workers[worker := NewWorker(claimed, id, process)])
  }

  // ----- Sending ------------------------------------------------------------

  /** The compare-and-swap every write of a worker makes. */
  predicate Owns(s: State, w: Worker) {
    w.job in s.jobs && s.jobs[w.job].status == Sending && s.jobs[w.job].attempts == w.attempts
    && s.jobs[w.job].lockedAt == Some(w.lockedAt)
  }

  predicate SamePayload(s: State, w: Worker)
    requires w.job in s.jobs
  {
    s.jobs[w.job].plan == w.plan && s.jobs[w.job].progress == w.progress && !s.jobs[w.job].superseded
  }

  function Phased(s: State, worker: nat, phase: Phase): State
    requires worker in s.workers
  {
    s.(workers := s.workers[worker := s.workers[worker].(phase := phase)])
  }

  /** Before the first part: the business state is checked, and a signature is upgraded only on a first
    * attempt that shows no trace of an earlier one. */
  function PrepareJob(s: State, worker: nat, current: bool, upgrade: Option<seq<nat>>): State {
    if worker !in s.workers || s.workers[worker].phase != Preparing then s
    else
      var w := s.workers[worker];
      if !current && w.kind == Message then Phased(s, worker, Failing(true))
      else if upgrade.None? || upgrade.value == [] || w.kind != Message || w.attempts != 1 || w.error || w.progress.Some? then
        Phased(s, worker, Checking)
      else if !Owns(s, w) || !SamePayload(s, w) || s.jobs[w.job].error then Phased(s, worker, Failing(true))
      else
        s.(jobs := s.jobs[w.job := s.jobs[w.job].(plan := upgrade.value)],
           workers := s.workers[worker := w.(plan := upgrade.value, phase := Checking)])
  }

  /** `beforeImmediateSend`: the lease is still this attempt's, and the business state still allows it.
    * For a stored message the lock time is not compared; a reminder is not checked at all. */
  function CheckLease(s: State, worker: nat, current: bool): State {
    if worker !in s.workers || s.workers[worker].phase != Checking || s.workers[worker].sent >= |s.workers[worker].plan| then s
    else
      var w := s.workers[worker];
      var held := w.kind == Reminder
                  || (w.job in s.jobs && s.jobs[w.job].status == Sending && s.jobs[w.job].attempts == w.attempts
                      && !s.jobs[w.job].superseded && (Resumable(w.kind) || s.jobs[w.job].lockedAt == Some(w.lockedAt)));
      Phased(s, worker, if held && current then Posting else Failing(!held || Resumable(w.kind)))
  }

  function Accept(s: State, worker: nat, mid: nat, reply: Reply): State {
    if worker !in s.workers || s.workers[worker].phase != Posting || s.workers[worker].sent >= |s.workers[worker].plan| then s
    else
      var w := s.workers[worker];
      var stored := if w.job in s.jobs then |Mids(s.jobs[w.job].progress)| else 0;
      var post := Post(w.job, w.sent, w.plan[w.sent], w.target, mid, reply == Arrives, stored);
      var next :=
        match reply
        case Arrives => if Resumable(w.kind) then w.(phase := Storing(mid)) else w.(phase := Checking, sent := w.sent + 1)
        case LostAndRaised => w.(phase := Failing(false))
        case LostAndRetried => w.(phase := Checking);
      s.(log := s.log + [post], workers := s.workers[worker := next])
  }

  function Reject(s: State, worker: nat): State {
    if worker !in s.workers || s.workers[worker].phase != Posting then s else Phased(s, worker, Failing(false))
  }

  /** Store the acknowledged id and renew the lease, if the row is still exactly as this worker knows it. */
  function StorePart(s: State, worker: nat, write: Write): State {
    if worker !in s.workers || !s.workers[worker].phase.Storing? then s
    else
      var w := s.workers[worker];
      var progress := Some(Progress(w.plan, Mids(w.progress) + [w.phase.mid]));
      if write == NotWritten then Phased(s, worker, Failing(false))
      else if !Owns(s, w) || !SamePayload(s, w) then Phased(s, worker, Failing(true))
      else
        var jobs := s.jobs[w.job := s.jobs[w.job].(progress := progress, lockedAt := Some(s.now), lastLock := s.now)];
        var next := if write == Written then w.(progress := progress, lockedAt := s.now, sent := w.sent + 1, phase := Checking)
                    else w.(phase := Failing(false));
        s.(jobs := jobs, workers := s.workers[worker := next])
  }

  // ----- Ending an attempt --------------------------------------------------

  function Gone(s: State, worker: nat): State { s.(workers := s.workers - {worker}) }

  function CompleteJob(s: State, worker: nat, write: Write): State {
    if worker !in s.workers || s.workers[worker].phase != Checking || s.workers[worker].sent < |s.workers[worker].plan| then s
    else
      var w := s.workers[worker];
      if write == NotWritten then Phased(s, worker, Failing(false))
      else if !Owns(s, w) then Phased(s, worker, Failing(true))
      else
        var done := s.(jobs := s.jobs[w.job := s.jobs[w.job].(status := Sent, lockedAt := None, error := false)]);
        if write == Written then Gone(done, worker) else Phased(done, worker, Failing(false))
  }

  function FailJob(s: State, worker: nat, photo: bool, delay: nat): State {
    if worker !in s.workers || !s.workers[worker].phase.Failing? then s
    else
      var w := s.workers[worker];
      if !Owns(s, w) then Gone(s, worker)
      else
        var status := if w.phase.stale || photo || w.attempts >= MAX_ATTEMPTS then Failed
                      else if w.kind == Deadline then Deferred else Pending;
        var failed := s.jobs[w.job].(status := status, lockedAt := None, error := true, nextAt := s.now + delay);
        Gone(s.(jobs := s.jobs[w.job := failed]), worker)
  }

  /** A working-deadline notice found outside working hours waits for the next working instant. */
  function DeferJob(s: State, worker: nat, until: int): State {
    if worker !in s.workers || s.workers[worker].phase != Checking || s.workers[worker].kind != Deadline then s
    else
      var w := s.workers[worker];
      if !Owns(s, w) then Gone(s, worker)
      else
        var deferred := s.jobs[w.job].(status := Deferred, lockedAt := None, attempts := w.attempts - 1, nextAt := until);
        Gone(s.(jobs := s.jobs[w.job := deferred]), worker)
  }

  function CancelJob(s: State, worker: nat): State {
    if worker !in s.workers || s.workers[worker].phase != Checking || s.workers[worker].kind != Deadline then s
    else
      var w := s.workers[worker];
      if !Owns(s, w) then Gone(s, worker)
      else Gone(s.(jobs := s.jobs[w.job := s.jobs[w.job].(status := Cancelled, lockedAt := None)]), worker)
  }

  // ----- Staff and business steps -------------------------------------------

  /** /resend keeps the last error as evidence of the earlier attempt; /delivery_retry clears it. */
  function RetryJob(s: State, id: nat, clearError: bool): State {
    if id !in s.jobs || s.jobs[id].status != Failed then s
    else s.(jobs := s.jobs[id := s.jobs[id].(status := Pending, attempts := 0, nextAt := s.now, lockedAt := None,
                                             error := s.jobs[id].error && !clearError)])
  }

  /** The rating releases an invitation and rewrites its payload. */
  function ReleaseInvitation(s: State, id: nat, plan: seq<nat>): State {
    if id !in s.jobs || s.jobs[id].kind != Invitation || s.jobs[id].rated || plan == [] then s
    else
      var j := s.jobs[id].(rated := true);
      s.(jobs := s.jobs[id :=
        if j.status == Pending || j.status == Failed then
          j.(plan := plan, progress := None, status := Pending, nextAt := s.now, attempts := 0, error := false,
             lockedAt := None, superseded := false)
        else j])
  }

  /** A photo repair forbids a failed job for good. */
  function SupersedeJob(s: State, id: nat): State {
    if id !in s.jobs || s.jobs[id].status != Failed then s
    else s.(jobs := s.jobs[id := s.jobs[id].(superseded := true)])
  }

  predicate Keyed(s: State, key: Option<nat>) { key.Some? && exists id :: id in s.jobs && s.jobs[id].key == key }

  /** A row whose key is there already is not inserted again. */
  function EnqueueJob(s: State, key: Option<nat>, target: nat, kind: Kind, plan: seq<nat>, rated: bool): State {
    if plan == [] || Keyed(s, key) then s
    else
      s.(next := s.next + 1,
         jobs := s.jobs[s.next := Job(key, target, kind, plan, None, Pending, 0, s.now, None, false, rated, false, 0, s.now)])
  }

  function Next(s: State, e: Event): State {
    match e
    case Tick(ms) => s.(now := s.now + ms)
    case Enqueue(key, target, kind, plan, rated) => EnqueueJob(s, key, target, kind, plan, rated)
    case Claim(worker, process, job, verdict) => ClaimJob(s, worker, process, job, verdict)
    case Prepare(worker, current, upgrade) => PrepareJob(s, worker, current, upgrade)
    case Check(worker, current) => CheckLease(s, worker, current)
    case Accepted(worker, mid, reply) => Accept(s, worker, mid, reply)
    case Rejected(worker) => Reject(s, worker)
    case Store(worker, write) => StorePart(s, worker, write)
    case Complete(worker, write) => CompleteJob(s, worker, write)
    case Fail(worker, photo, delay) => FailJob(s, worker, photo, delay)
    case Defer(worker, until) => DeferJob(s, worker, until)
    case Cancel(worker) => CancelJob(s, worker)
    case Crash(worker) => Gone(s, worker)
    case Retry(job, clearError) => RetryJob(s, job, clearError)
    case Release(job, plan) => ReleaseInvitation(s, job, plan)
    case Supersede(job) => SupersedeJob(s, job)
    case Delete(job) => s.(jobs := s.jobs - {job})
  }

  function Run(s: State, events: seq<Event>): State {
    if events == [] then s else Next(Run(s, events[..|events| - 1]), events[|events| - 1])
  }

  const Start: State := State(0, 0, map[], map[], [])

  // ----- The invariant of every run, with any number of processes -----------

  /** Only reminders, working-deadline notices and unrated invitations are ever put off without an attempt. */
  predicate KeepsPlace(j: Job, now: int) {
    j.status != Deferred && (j.status == Pending ==> j.attempts > 0 || j.nextAt <= now)
  }

  /** Messages, and invitations once rated, go out as soon as their turn comes. */
  predicate Ready(j: Job) { j.kind == Message || (j.kind == Invitation && j.rated) }

  predicate JobOk(j: Job, now: int) {
    && j.plan != [] && 0 <= j.attempts && j.lastLock <= now
    && (j.status == Sending <==> j.lockedAt.Some?)
    && (j.lockedAt.Some? ==> j.lockedAt.value == j.lastLock)
    && (j.status == Sending ==> 1 <= j.attempts)
    && (j.status == Deferred ==> j.kind == Deadline)
    && (Ready(j) ==> KeepsPlace(j, now))
    && (j.progress.Some? ==> Resumable(j.kind) && j.progress.value.plan == j.plan && 1 <= |j.progress.value.mids| <= |j.plan|)
    && (j.status == Sent && Resumable(j.kind) ==> |Mids(j.progress)| == |j.plan|)
    && (j.kind == Invitation && !j.rated ==> j.status != Sending && j.status != Sent && j.progress.None?)
    && (j.superseded ==> j.status == Failed || (j.status == Pending && j.attempts == 0))
  }

  /** The worker's knowledge of its row: exact while it is the latest claimer and has not hit an error,
    * outdated by a whole lease once somebody else claimed the row. */
  predicate WorkerOk(s: State, w: Worker) {
    && w.sent <= |w.plan| && (Resumable(w.kind) ==> w.sent == |Mids(w.progress)|)
    && (w.phase.Storing? ==> Resumable(w.kind) && w.sent < |w.plan|)
    && (w.progress.Some? ==> w.progress.value.plan == w.plan)
    && w.job < s.next
    && (w.job in s.jobs ==>
          var j := s.jobs[w.job];
          && w.epoch <= j.epoch && j.target == w.target && j.kind == w.kind && (j.kind == Invitation ==> j.rated)
          && (w.epoch < j.epoch ==> w.lockedAt + LEASE_MS <= j.lastLock)
          && (w.epoch == j.epoch ==> j.status == Sending || (j.status == Sent && w.phase.Failing?))
          && (w.epoch == j.epoch ==> w.lockedAt <= j.lastLock)
          && (w.epoch == j.epoch && !w.phase.Failing? ==>
                j.attempts == w.attempts && j.lockedAt == Some(w.lockedAt) && j.plan == w.plan && j.progress == w.progress))
  }

  /** A stored id was acknowledged by MAX for that part of that job, with the text of the plan. */
  predicate AckedPart(log: seq<Post>, id: nat, k: nat, text: nat, target: nat, mid: nat) {
    exists i :: 0 <= i < |log| && log[i].job == id && log[i].part == k && log[i].text == text
                && log[i].target == target && log[i].mid == mid && log[i].replied
  }

  predicate MidsAcked(log: seq<Post>, id: nat, j: Job) {
    j.progress.Some? ==>
      forall k :: 0 <= k < |j.progress.value.mids| && k < |j.plan| ==>
        AckedPart(log, id, k, j.plan[k], j.target, j.progress.value.mids[k])
  }

  /** The id a worker is about to store was acknowledged to it. */
  predicate InHand(log: seq<Post>, w: Worker) {
    w.phase.Storing? && w.sent < |w.plan| ==> AckedPart(log, w.job, w.sent, w.plan[w.sent], w.target, w.phase.mid)
  }

  predicate Placed(s: State, i: nat)
    requires i < |s.log|
  {
    var id := s.log[i].job;
    id < s.next && (id in s.jobs && s.jobs[id].kind == Invitation ==> s.jobs[id].rated)
  }

  predicate JobsOk(s: State) { forall id :: id in s.jobs ==> id < s.next && JobOk(s.jobs[id], s.now) && MidsAcked(s.log, id, s.jobs[id]) }

  predicate WorkersOk(s: State) { forall w :: w in s.workers ==> WorkerOk(s, s.workers[w]) && InHand(s.log, s.workers[w]) }

  predicate Distinct(s: State) {
    forall v, w :: v in s.workers && w in s.workers && v != w && s.workers[v].job == s.workers[w].job ==>
      s.workers[v].epoch != s.workers[w].epoch
  }

  predicate AllPlaced(s: State) { forall i :: 0 <= i < |s.log| ==> Placed(s, i) }

  predicate Inv(s: State) { JobsOk(s) && WorkersOk(s) && Distinct(s) && AllPlaced(s) }
}
