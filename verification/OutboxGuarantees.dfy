/** What the outbox promises with any number of processes. */
module OutboxGuarantees {
  import opened Outbox
  import opened OutboxInvariant
  import opened Wrappers

  ghost predicate Reachable(s: State) { exists events :: s == Run(Start, events) }

  lemma ReachableInv(s: State)
    requires Reachable(s)
    ensures Inv(s)
  {
    var events :| s == Run(Start, events);
    RunInv(events);
  }

  lemma OneMore(s: State, e: Event)
    requires Reachable(s)
    ensures Reachable(Next(s, e))
  {
    var events :| s == Run(Start, events);
    assert (events + [e])[..|events|] == events;
    assert Run(Start, events + [e]) == Next(s, e);
  }

  // ----- Deduplication ------------------------------------------------------

  predicate UniqueKeys(s: State) {
    forall a, b :: a in s.jobs && b in s.jobs && s.jobs[a].key.Some? && s.jobs[a].key == s.jobs[b].key ==> a == b
  }

  predicate SameKey(s: State, s': State, id: nat) {
    (id in s'.jobs <==> id in s.jobs) && (id in s.jobs && id in s'.jobs ==> s'.jobs[id].key == s.jobs[id].key)
  }

  lemma QueuedKey(s: State, key: Option<nat>, target: nat, kind: Kind, plan: seq<nat>, rated: bool, id: nat)
    requires s.next !in s.jobs && id in EnqueueJob(s, key, target, kind, plan, rated).jobs
    ensures var s' := EnqueueJob(s, key, target, kind, plan, rated);
            if id in s.jobs then s'.jobs[id].key == s.jobs[id].key
            else id == s.next && s'.jobs[id].key == key && !Keyed(s, key)
  {
    hide Keyed;
  }

  lemma SendingKeepsKey(s: State, e: Event, id: nat)
    requires e.Claim? || e.Prepare? || e.Store?
    ensures SameKey(s, Next(s, e), id)
  {
    hide Busy, HasPredecessor, Claimable, SamePayload;
  }

  lemma EndingKeepsKey(s: State, e: Event, id: nat)
    requires e.Complete? || e.Fail? || e.Defer? || e.Cancel?
    ensures SameKey(s, Next(s, e), id)
  {
  }

  /** No step changes a row's key, and only an insertion adds a row. */
  lemma KeysStay(s: State, e: Event, id: nat)
    requires s.next !in s.jobs && id in Next(s, e).jobs
    ensures id in s.jobs ==> Next(s, e).jobs[id].key == s.jobs[id].key
    ensures id !in s.jobs ==> e.Enqueue? && id == s.next && Next(s, e).jobs[id].key == e.key && !Keyed(s, e.key)
  {
    hide EnqueueJob, ClaimJob, PrepareJob, StorePart, CompleteJob, FailJob, DeferJob, CancelJob;
    match e {
      case Enqueue(key, target, kind, plan, rated) => QueuedKey(s, key, target, kind, plan, rated, id);
      case Claim(_, _, _, _) => SendingKeepsKey(s, e, id);
      case Prepare(_, _, _) => SendingKeepsKey(s, e, id);
      case Store(_, _) => SendingKeepsKey(s, e, id);
      case Complete(_, _) => EndingKeepsKey(s, e, id);
      case Fail(_, _, _) => EndingKeepsKey(s, e, id);
      case Defer(_, _) => EndingKeepsKey(s, e, id);
      case Cancel(_) => EndingKeepsKey(s, e, id);
      case _ =>
    }
  }

  lemma {:induction false} RunKeepsKeysUnique(events: seq<Event>)
    ensures UniqueKeys(Run(Start, events))
  {
    hide Inv, Next;
    if events != [] {
      var front, e := events[..|events| - 1], events[|events| - 1];
      var s := Run(Start, front);
      RunKeepsKeysUnique(front);
      RowsAreNumbered(front);
      forall a, b | a in Next(s, e).jobs && b in Next(s, e).jobs && Next(s, e).jobs[a].key.Some?
                    && Next(s, e).jobs[a].key == Next(s, e).jobs[b].key
        ensures a == b
      {
        KeysStay(s, e, a);
        KeysStay(s, e, b);
      }
    }
  }

  lemma RowsAreNumbered(events: seq<Event>)
    ensures forall id :: id in Run(Start, events).jobs ==> id < Run(Start, events).next
  {
    RunInv(events);
  }

  /** In every run no two rows share a key, however often a message is queued. */
  lemma OneRowPerKey(s: State, a: nat, b: nat)
    requires Reachable(s) && a in s.jobs && b in s.jobs && s.jobs[a].key.Some? && s.jobs[a].key == s.jobs[b].key
    ensures a == b
  {
    var events :| s == Run(Start, events);
    RunKeepsKeysUnique(events);
  }

  // ----- Stored progress ----------------------------------------------------

  /** Stored ids are always a prefix of the job's own plan: the k-th was acknowledged by MAX for the k-th part. */
  lemma StoredIdsAreAPrefix(s: State, id: nat)
    requires Reachable(s) && id in s.jobs && s.jobs[id].progress.Some?
    ensures var j := s.jobs[id];
            && j.progress.value.plan == j.plan && |j.progress.value.mids| <= |j.plan|
            && (forall k :: 0 <= k < |j.progress.value.mids| ==> AckedPart(s.log, id, k, j.plan[k], j.target, j.progress.value.mids[k]))
  {
    ReachableInv(s);
    assert JobOk(s.jobs[id], s.now) && MidsAcked(s.log, id, s.jobs[id]);
  }

  /** So an attempt never finds a saved plan that differs from its own: DELIVERY_PROGRESS_MISMATCH is unreachable. */
  lemma NoProgressMismatch(s: State, worker: nat)
    requires Reachable(s) && worker in s.workers && s.workers[worker].progress.Some?
    ensures var w := s.workers[worker];
            w.progress.value.plan == w.plan && (Resumable(w.kind) ==> |w.progress.value.mids| <= |w.plan|)
  {
    ReachableInv(s);
    assert WorkerOk(s, s.workers[worker]);
  }

  /** A message is SENT only with every part of its plan acknowledged and stored. */
  lemma SentIsComplete(s: State, id: nat)
    requires Reachable(s) && id in s.jobs && s.jobs[id].status == Sent && Resumable(s.jobs[id].kind)
    ensures var j := s.jobs[id];
            && |Mids(j.progress)| == |j.plan|
            && (forall k :: 0 <= k < |j.plan| ==> AckedPart(s.log, id, k, j.plan[k], j.target, Mids(j.progress)[k]))
  {
    ReachableInv(s);
    assert JobOk(s.jobs[id], s.now) && MidsAcked(s.log, id, s.jobs[id]);
  }

  // ----- Fencing ------------------------------------------------------------

  predicate Writes(e: Event, worker: nat) {
    match e
    case Prepare(w, _, _) => w == worker
    case Store(w, _) => w == worker
    case Complete(w, _) => w == worker
    case Fail(w, _, _) => w == worker
    case Defer(w, _) => w == worker
    case Cancel(w) => w == worker
    case _ => false
  }

  /** A worker whose row somebody else has claimed since can neither store, complete, fail, put off nor cancel it. */
  lemma LostLeaseCannotWrite(s: State, worker: nat, e: Event)
    requires Reachable(s) && worker in s.workers && s.workers[worker].job in s.jobs
    requires s.workers[worker].epoch < s.jobs[s.workers[worker].job].epoch && Writes(e, worker)
    ensures Next(s, e).jobs == s.jobs
  {
    ReachableInv(s);
    if Owns(s, s.workers[worker]) { OwnerIsLatest(s, worker); }
  }

  /** A part posted within the worker's lease has no stored id yet, however many processes there are. */
  lemma LeasedPostIsNew(s: State, worker: nat)
    requires Reachable(s) && worker in s.workers && s.workers[worker].job in s.jobs
    requires s.workers[worker].phase == Posting && Resumable(s.workers[worker].kind)
    requires s.now < s.workers[worker].lockedAt + LEASE_MS
    ensures |Mids(s.jobs[s.workers[worker].job].progress)| == s.workers[worker].sent
  {
    ReachableInv(s);
    assert WorkerOk(s, s.workers[worker]) && JobOk(s.jobs[s.workers[worker].job], s.now);
  }

  function Fresh(kind: Kind, text: nat, at: int): Job { Job(None, 7, kind, [text], None, Pending, 0, at, None, false, false, false, 0, at) }

  function Taken(process: nat, job: nat, kind: Kind, text: nat, attempts: nat, at: int, phase: Phase): Worker {
    Worker(process, job, 7, kind, attempts, at, false, [text], None, 0, phase, attempts)
  }

  function Held(kind: Kind, phase: Phase): State {
    State(0, 1, map[0 := Fresh(kind, 1, 0).(status := Sending, lockedAt := Some(0), attempts := 1, epoch := 1)],
          map[0 := Taken(0, 0, kind, 1, 1, 0, phase)], [])
  }

  lemma JustClaimed(kind: Kind)
    ensures kind == Message || kind == Deadline ==> Reachable(Held(kind, Preparing))
  {
    hide Reachable, Next, Held;
    StartIsReachable();
    OneMore(Start, Enqueue(None, 7, kind, [1], false));
    FirstIsQueued(kind);
    OneMore(FirstQueued(kind), Claim(0, 0, 0, Proceed));
    if kind == Message || kind == Deadline { FirstIsClaimed(kind); }
  }

  lemma StartIsReachable()
    ensures Reachable(Start)
  {
    assert Run(Start, []) == Start;
  }

  function FirstQueued(kind: Kind): State { State(0, 1, map[0 := Fresh(kind, 1, 0)], map[], []) }

  lemma FirstIsQueued(kind: Kind)
    ensures Next(Start, Enqueue(None, 7, kind, [1], false)) == FirstQueued(kind)
  {
  }

  lemma FirstIsClaimed(kind: Kind)
    requires kind == Message || kind == Deadline
    ensures Next(FirstQueued(kind), Claim(0, 0, 0, Proceed)) == Held(kind, Preparing)
  {
  }

  /** Process 0 has checked its lease of job 0 and is about to post. */
  lemma AboutToPost(kind: Kind)
    requires kind == Message || kind == Deadline
    ensures Reachable(Held(kind, Posting))
  {
    hide Reachable;
    JustClaimed(kind);
    OneMore(Held(kind, Preparing), Prepare(0, true, None));
    assert Next(Held(kind, Preparing), Prepare(0, true, None)) == Held(kind, Checking);
    OneMore(Held(kind, Checking), Check(0, true));
    assert Next(Held(kind, Checking), Check(0, true)) == Held(kind, Posting);
  }

  /** Two minutes later process 1 holds the same job ... */
  function HeldTwice(phase: Phase, log: seq<Post>): State {
    var job := Fresh(Message, 1, 0).(status := Sending, lockedAt := Some(120_000), attempts := 2, epoch := 2, lastLock := 120_000);
    State(120_000, 1, map[0 := job],
          map[0 := Taken(0, 0, Message, 1, 1, 0, Posting), 1 := Taken(1, 0, Message, 1, 2, 120_000, phase)], log)
  }

  lemma ClaimedTwice()
    ensures Reachable(HeldTwice(Preparing, []))
  {
    hide Reachable;
    AboutToPost(Message);
    var later := Held(Message, Posting).(now := 120_000);
    OneMore(Held(Message, Posting), Tick(120_000));
    assert Next(Held(Message, Posting), Tick(120_000)) == later;
    OneMore(later, Claim(1, 1, 0, Proceed));
    assert !HasPredecessor(later, 0) && !Busy(later, 1, 7);
    assert Next(later, Claim(1, 1, 0, Proceed)) == HeldTwice(Preparing, []);
  }

  lemma PostingTwice()
    ensures Reachable(HeldTwice(Posting, []))
  {
    hide Reachable;
    ClaimedTwice();
    OneMore(HeldTwice(Preparing, []), Prepare(1, true, None));
    assert Next(HeldTwice(Preparing, []), Prepare(1, true, None)) == HeldTwice(Checking, []);
    OneMore(HeldTwice(Checking, []), Check(1, true));
    assert Next(HeldTwice(Checking, []), Check(1, true)) == HeldTwice(Posting, []);
  }

  /** ... sends its part and stores the id. */
  lemma StoredBySecond() returns (s: State)
    ensures Reachable(s) && 0 in s.workers && s.workers[0] == Taken(0, 0, Message, 1, 1, 0, Posting)
    ensures s.now == 120_000 && 0 in s.jobs && s.jobs[0].progress == Some(Progress([1], [99]))
  {
    hide Reachable;
    PostingTwice();
    var accepted := HeldTwice(Storing(99), [Post(0, 0, 1, 7, 99, true, 0)]);
    OneMore(HeldTwice(Posting, []), Accepted(1, 99, Arrives));
    assert Next(HeldTwice(Posting, []), Accepted(1, 99, Arrives)) == accepted;
    OneMore(accepted, Store(1, Written));
    s := Next(accepted, Store(1, Written));
    assert Mids(None) + [99] == [99];
  }

  /** Past its lease a worker of another process may repeat a stored part: it checked the lease before the
    * row was claimed again, and posts after the part was stored. */
  lemma TwoProcessesMayRepeat() returns (s: State, mid: nat)
    ensures Reachable(s) && 0 in s.workers && s.workers[0].phase == Posting && s.workers[0].lockedAt + LEASE_MS <= s.now
    ensures var log := Next(s, Accepted(0, mid, Arrives)).log;
            |log| > 0 && log[|log| - 1].part < log[|log| - 1].stored
  {
    s := StoredBySecond();
    mid := 100;
  }

  // ----- Order --------------------------------------------------------------

  predicate Terminal(j: Job) { j.status == Sent || j.status == Failed || j.status == Cancelled }

  /** Put off until later without having been attempted since it was queued. */
  predicate PutOff(j: Job, now: int) {
    !Ready(j) && ((j.status == Pending && j.attempts == 0) || j.status == Deferred) && j.nextAt > now
  }

  /** A claim goes ahead only when every earlier job to the recipient is finished or put off; a message,
    * or an invitation once rated, is never put off. */
  lemma ClaimsAreInOrder(s: State, worker: nat, process: nat, id: nat, verdict: Verdict, earlier: nat)
    requires Reachable(s) && id in s.jobs && earlier in s.jobs && earlier < id && s.jobs[earlier].target == s.jobs[id].target
    requires Next(s, Claim(worker, process, id, verdict)) != s
    ensures Terminal(s.jobs[earlier]) || PutOff(s.jobs[earlier], s.now)
  {
    ReachableInv(s);
    assert JobOk(s.jobs[earlier], s.now);
    assert !HoldsBack(s.jobs[earlier], earlier, s.jobs[id], id, s.now);
  }

  /** Nothing else stands in the way of the claim: the worker is new, its process idle for the recipient, the row
    * due, and no job but the earlier one holds it back. */
  predicate OtherwiseClaimable(s: State, worker: nat, process: nat, id: nat, earlier: nat)
    requires id in s.jobs
  {
    && worker !in s.workers && !Busy(s, process, s.jobs[id].target) && Claimable(s.jobs[id], s.now)
    && forall other :: other in s.jobs && other != earlier ==> !HoldsBack(s.jobs[other], other, s.jobs[id], id, s.now)
  }

  /** When nothing else stands in the way, the claim goes ahead exactly when the earlier job does not hold it back. */
  lemma ClaimGoesAheadIff(s: State, worker: nat, process: nat, id: nat, verdict: Verdict, earlier: nat)
    requires id in s.jobs && earlier in s.jobs && OtherwiseClaimable(s, worker, process, id, earlier)
    ensures Next(s, Claim(worker, process, id, verdict)) != s <==> !HoldsBack(s.jobs[earlier], earlier, s.jobs[id], id, s.now)
  {
    hide HoldsBack, Busy, Claimable;
    if HoldsBack(s.jobs[earlier], earlier, s.jobs[id], id, s.now) {
      assert HasPredecessor(s, id);
    } else {
      assert Next(s, Claim(worker, process, id, verdict)).jobs[id].epoch == s.jobs[id].epoch + 1;
    }
  }

  lemma RowIsOk(s: State, id: nat)
    requires Inv(s) && id in s.jobs
    ensures JobOk(s.jobs[id], s.now)
  {
  }

  /** An earlier job that was attempted and is not finished is overtaken exactly when it is DEFERRED to the future,
    * and only a working-deadline notice is ever DEFERRED. */
  lemma AttemptedIsOvertakenIff(s: State, worker: nat, process: nat, id: nat, verdict: Verdict, earlier: nat)
    requires Reachable(s) && id in s.jobs && earlier in s.jobs && earlier < id && s.jobs[earlier].target == s.jobs[id].target
    requires s.jobs[earlier].attempts > 0 && !Terminal(s.jobs[earlier]) && OtherwiseClaimable(s, worker, process, id, earlier)
    ensures Next(s, Claim(worker, process, id, verdict)) != s <==>
              s.jobs[earlier].status == Deferred && s.jobs[earlier].nextAt > s.now
    ensures s.jobs[earlier].status == Deferred ==> s.jobs[earlier].kind == Deadline
  {
    hide Inv, OtherwiseClaimable, Next;
    ReachableInv(s);
    RowIsOk(s, earlier);
    ClaimGoesAheadIff(s, worker, process, id, verdict, earlier);
  }

  /** The same for every earlier job: it is passed exactly when it is finished or put off. */
  lemma PassedIff(s: State, worker: nat, process: nat, id: nat, verdict: Verdict, earlier: nat)
    requires Reachable(s) && id in s.jobs && earlier in s.jobs && earlier < id && s.jobs[earlier].target == s.jobs[id].target
    requires OtherwiseClaimable(s, worker, process, id, earlier)
    ensures Next(s, Claim(worker, process, id, verdict)) != s <==> Terminal(s.jobs[earlier]) || PutOff(s.jobs[earlier], s.now)
  {
    hide Inv, OtherwiseClaimable, Next;
    ReachableInv(s);
    RowIsOk(s, earlier);
    ClaimGoesAheadIff(s, worker, process, id, verdict, earlier);
  }

  /** Once MAX accepted a part of a message or invitation, no later job to that recipient is claimed before
    * that one is SENT, FAILED or CANCELLED. */
  lemma AcceptedPartBlocksLaterJobs(s: State, worker: nat, process: nat, id: nat, verdict: Verdict, i: nat)
    requires Reachable(s) && i < |s.log| && id in s.jobs
    requires var earlier := s.log[i].job;
             earlier in s.jobs && Resumable(s.jobs[earlier].kind) && earlier < id && s.jobs[earlier].target == s.jobs[id].target
             && !Terminal(s.jobs[earlier])
    ensures Next(s, Claim(worker, process, id, verdict)) == s
  {
    ReachableInv(s);
    assert Placed(s, i);
    if Next(s, Claim(worker, process, id, verdict)) != s {
      ClaimsAreInOrder(s, worker, process, id, verdict, s.log[i].job);
    }
  }

  /** A working-deadline notice that MAX accepted, after its reply was lost and the attempt failed. */
  lemma DeadlineFailed() returns (s: State)
    ensures Reachable(s) && s.now == 0 && s.next == 1 && s.workers == map[] && |s.log| == 1 && s.log[0].job == 0
    ensures s.jobs == map[0 := Held(Deadline, Posting).jobs[0].(status := Deferred, lockedAt := None, error := true, nextAt := 30_000)]
  {
    hide Reachable, Next;
    AboutToPost(Deadline);
    OneMore(Held(Deadline, Posting), Accepted(0, 99, LostAndRaised));
    ReplyIsLost(Deadline);
    OneMore(LostReply(Deadline), Fail(0, false, 30_000));
    LostIsFailed(Deadline);
    s := Next(LostReply(Deadline), Fail(0, false, 30_000));
  }

  /** MAX accepted the only part of job 0 and its reply was lost. */
  function LostReply(kind: Kind): State { Held(kind, Failing(false)).(log := [Post(0, 0, 1, 7, 99, false, 0)]) }

  lemma ReplyIsLost(kind: Kind)
    ensures Next(Held(kind, Posting), Accepted(0, 99, LostAndRaised)) == LostReply(kind)
  {
  }

  /** The failed attempt leaves a message waiting and a notice put off, both with the error as evidence. */
  lemma LostIsFailed(kind: Kind)
    ensures var s := Next(LostReply(kind), Fail(0, false, 30_000));
            && s.now == 0 && s.next == 1 && s.workers == map[] && s.log == [Post(0, 0, 1, 7, 99, false, 0)]
            && s.jobs == map[0 := Held(kind, Posting).jobs[0].(status := if kind == Deadline then Deferred else Pending,
                                                                lockedAt := None, error := true, nextAt := 30_000)]
  {
  }

  /** It does not keep its place: it is DEFERRED with one attempt behind it, and a later message overtakes it. */
  lemma FailedDeadlineIsOvertaken() returns (s: State)
    ensures Reachable(s) && 0 in s.jobs && 1 in s.jobs && s.jobs[0].target == s.jobs[1].target
    ensures s.jobs[0].status == Deferred && s.jobs[0].attempts == 1 && |s.log| == 1 && s.log[0].job == 0
    ensures Next(s, Claim(1, 0, 1, Proceed)) != s
  {
    hide Reachable;
    var failed := DeadlineFailed();
    OneMore(failed, Enqueue(None, 7, Message, [2], false));
    s := Next(failed, Enqueue(None, 7, Message, [2], false));
    assert !HasPredecessor(s, 1) && !Busy(s, 0, 7);
    assert Next(s, Claim(1, 0, 1, Proceed)).jobs[1].status == Sending;
  }
}
