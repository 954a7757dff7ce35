/** The outbox as the service runs it: rows, attempts in memory and the lease change in place
  * (src/max/max-message.service.ts:302-351, 487-516, 675-743). Each method is one event of `Outbox`; an
  * undisturbed delivery is their loop. */
module OutboxService {
  import opened Outbox
  import opened OutboxInvariant
  import opened Wrappers

  /** What MAX answers to one POST. */
  datatype MaxReply = Ack(mid: nat) | NoReply | Refusal

  /** How many parts are acknowledged before the first one that is not. */
  function LeadingAcks(replies: seq<MaxReply>, parts: nat): (n: nat)
    requires parts <= |replies|
    ensures n <= parts && forall k :: 0 <= k < n ==> replies[k].Ack?
  {
    if parts == 0 || !replies[0].Ack? then 0 else 1 + LeadingAcks(replies[1..], parts - 1)
  }

  lemma {:induction false} LeadingAcksAt(replies: seq<MaxReply>, parts: nat, n: nat)
    requires parts <= |replies| && n <= parts && forall k :: 0 <= k < n ==> replies[k].Ack?
    requires n < parts ==> !replies[n].Ack?
    ensures LeadingAcks(replies, parts) == n
  {
    if n > 0 { LeadingAcksAt(replies[1..], parts - 1, n - 1); }
  }

  /** The message logged for an acknowledged part that was not stored before. */
  function NewPost(w: Worker, k: nat, mid: nat): Post
    requires k < |w.plan|
  {
    Post(w.job, k, w.plan[k], w.target, mid, true, k)
  }

  ghost function AckedIds(replies: seq<MaxReply>, n: nat): seq<nat>
    requires n <= |replies| && forall k :: 0 <= k < n ==> replies[k].Ack?
  {
    seq(n, k requires 0 <= k < n => replies[k].mid)
  }

  ghost function NewPosts(w: Worker, replies: seq<MaxReply>, n: nat): seq<Post>
    requires n <= |replies| && w.sent + n <= |w.plan| && forall k :: 0 <= k < n ==> replies[k].Ack?
  {
    seq(n, k requires 0 <= k < n => NewPost(w, w.sent + k, replies[k].mid))
  }

  predicate SameAttempt(w: Worker, w0: Worker) {
    w.job == w0.job && w.plan == w0.plan && w.kind == w0.kind && w.target == w0.target && w.attempts == w0.attempts && w.epoch == w0.epoch
  }

  /** After n acknowledged parts the attempt owns its row and goes on with the next part. */
  ghost predicate Underway(s: State, w0: Worker, worker: nat, replies: seq<MaxReply>, n: nat, phase: Phase)
    requires n <= |replies| && forall k :: 0 <= k < n ==> replies[k].Ack?
  {
    && worker in s.workers
    && var w := s.workers[worker];
       && w.phase == phase && Owns(s, w) && SameAttempt(w, w0) && !s.jobs[w0.job].superseded
       && w0.sent + n <= |w0.plan| && w.sent == w0.sent + n
       && Mids(w.progress) == Mids(w0.progress) + AckedIds(replies, n)
       && s.jobs[w0.job].plan == w0.plan && s.jobs[w0.job].progress == w.progress
  }

  /** What one attempt leaves behind: the acknowledged parts in plan order, each once, all stored; a part
    * whose reply was lost is logged but not stored. */
  ghost predicate Tried(s: State, w0: Worker, log0: seq<Post>, worker: nat, replies: seq<MaxReply>, parts: nat, n: nat)
    requires n <= parts <= |replies| && forall k :: 0 <= k < n ==> replies[k].Ack?
  {
    && worker in s.workers && Owns(s, s.workers[worker]) && SameAttempt(s.workers[worker], w0)
    && w0.sent + n <= |w0.plan| && s.workers[worker].sent == w0.sent + n
    && Mids(s.jobs[w0.job].progress) == Mids(w0.progress) + AckedIds(replies, n)
    && (n == parts ==> s.workers[worker].phase == Checking && s.log == log0 + NewPosts(w0, replies, n))
    && (n < parts ==> s.workers[worker].phase == Failing(false)
                      && log0 + NewPosts(w0, replies, n) <= s.log && |s.log| == |log0| + n + if replies[n].NoReply? then 1 else 0)
  }

  /** The log grew by the acknowledged parts in order, and by one more message if the next reply was lost. */
  ghost predicate AllLogged(w0: Worker, log0: seq<Post>, log: seq<Post>, replies: seq<MaxReply>, parts: nat, n: nat)
    requires n <= parts <= |replies| && forall k :: 0 <= k < n ==> replies[k].Ack?
  {
    w0.sent + n <= |w0.plan| && log0 + NewPosts(w0, replies, n) <= log
    && |log| == |log0| + n + if n < parts && replies[n].NoReply? then 1 else 0
  }

  lemma LeaseHolds(s: State, w0: Worker, worker: nat, replies: seq<MaxReply>, n: nat)
    requires n <= |replies| && (forall k :: 0 <= k < n ==> replies[k].Ack?) && Underway(s, w0, worker, replies, n, Checking)
    requires w0.sent + n < |w0.plan| && Resumable(w0.kind)
    ensures var s' := Next(s, Check(worker, true));
            Underway(s', w0, worker, replies, n, Posting) && s' == s.(workers := s'.workers)
  {
  }

  lemma PartAccepted(s: State, w0: Worker, worker: nat, replies: seq<MaxReply>, n: nat)
    requires n < |replies| && (forall k :: 0 <= k <= n ==> replies[k].Ack?) && Underway(s, w0, worker, replies, n, Posting)
    requires Inv(s) && w0.sent + n < |w0.plan| && Resumable(w0.kind)
    ensures var s' := Next(s, Accepted(worker, replies[n].mid, Arrives));
            Underway(s', w0, worker, replies, n, Storing(replies[n].mid)) && s' == s.(workers := s'.workers, log := s'.log)
            && s'.log == s.log + [NewPost(w0, w0.sent + n, replies[n].mid)]
  {
    assert WorkerOk(s, s.workers[worker]);
  }

  lemma PartStored(s: State, w0: Worker, worker: nat, replies: seq<MaxReply>, n: nat)
    requires n < |replies| && (forall k :: 0 <= k <= n ==> replies[k].Ack?)
    requires Underway(s, w0, worker, replies, n, Storing(replies[n].mid)) && w0.sent + n < |w0.plan|
    ensures var s' := Next(s, Store(worker, Written)); Underway(s', w0, worker, replies, n + 1, Checking) && s'.log == s.log
  {
    assert AckedIds(replies, n + 1) == AckedIds(replies, n) + [replies[n].mid];
  }

  lemma OnePostMore(w0: Worker, replies: seq<MaxReply>, n: nat)
    requires n < |replies| && (forall k :: 0 <= k <= n ==> replies[k].Ack?) && w0.sent + n < |w0.plan|
    ensures NewPosts(w0, replies, n + 1) == NewPosts(w0, replies, n) + [NewPost(w0, w0.sent + n, replies[n].mid)]
  {
  }

  lemma Begins(s: State, worker: nat, replies: seq<MaxReply>)
    requires Inv(s) && worker in s.workers && s.workers[worker].phase == Checking && Resumable(s.workers[worker].kind)
    requires Owns(s, s.workers[worker]) && !s.jobs[s.workers[worker].job].superseded
    ensures s.workers[worker].sent <= |s.workers[worker].plan|
    ensures Underway(s, s.workers[worker], worker, replies, 0, Checking) && NewPosts(s.workers[worker], replies, 0) == []
  {
    assert WorkerOk(s, s.workers[worker]);
    OwnerIsLatest(s, worker);
  }

  /** A lost reply leaves the part logged but not stored; a refusal leaves nothing. */
  lemma PartFailed(s: State, w0: Worker, log0: seq<Post>, worker: nat, replies: seq<MaxReply>, n: nat)
    requires n < |replies| && (forall k :: 0 <= k < n ==> replies[k].Ack?) && !replies[n].Ack?
    requires Underway(s, w0, worker, replies, n, Posting) && s.log == log0 + NewPosts(w0, replies, n)
    requires w0.sent + n < |w0.plan|
    ensures Tried(Next(s, if replies[n].NoReply? then Accepted(worker, 0, LostAndRaised) else Rejected(worker)),
                  w0, log0, worker, replies, n + 1, n)
  {
    hide AckedIds, Resumable;
  }

  lemma AllTried(s: State, w0: Worker, log0: seq<Post>, worker: nat, replies: seq<MaxReply>, n: nat)
    requires n <= |replies| && (forall k :: 0 <= k < n ==> replies[k].Ack?)
    requires Underway(s, w0, worker, replies, n, Checking) && s.log == log0 + NewPosts(w0, replies, n)
    ensures Tried(s, w0, log0, worker, replies, n, n)
  {
    hide NewPosts, AckedIds;
  }

  lemma TriedOfMore(s: State, w0: Worker, log0: seq<Post>, worker: nat, replies: seq<MaxReply>, parts: nat, n: nat)
    requires n < parts <= |replies| && (forall k :: 0 <= k < n ==> replies[k].Ack?)
    requires Tried(s, w0, log0, worker, replies, n + 1, n)
    ensures Tried(s, w0, log0, worker, replies, parts, n)
  {
    hide NewPosts, AckedIds;
  }

  /** What the end of the attempt makes of its row. */
  lemma AttemptEnds(s: State, w0: Worker, log0: seq<Post>, worker: nat, replies: seq<MaxReply>, parts: nat, n: nat, delay: nat)
    requires n <= parts <= |replies| && (forall k :: 0 <= k < n ==> replies[k].Ack?)
    requires Tried(s, w0, log0, worker, replies, parts, n) && Resumable(w0.kind) && w0.sent + parts == |w0.plan|
    ensures worker in s.workers && s.workers[worker].phase == if n == parts then Checking else Failing(false)
    ensures var s' := Next(s, if n == parts then Complete(worker, Written) else Fail(worker, false, delay));
            && worker !in s'.workers && w0.job in s'.jobs && AllLogged(w0, log0, s'.log, replies, parts, n)
            && s'.jobs[w0.job].status == (if n == parts then Sent else if w0.attempts >= MAX_ATTEMPTS then Failed else Pending)
            && Mids(s'.jobs[w0.job].progress) == Mids(w0.progress) + AckedIds(replies, n)
  {
    hide AckedIds, Mids;
  }

  class MessageService {
    var now: int
    var next: nat
    var jobs: map<nat, Job>
    var workers: map<nat, Worker>
    var log: seq<Post>

    function State(): State
      reads this
    {
      Outbox.State(now, next, jobs, workers, log)
    }

    constructor ()
      ensures State() == Start
    {
      now, next, jobs, workers, log := 0, 0, map[], map[], [];
    }

    /** A message is queued once under its key: the row there already is returned as it is, and a new one comes
      * last in its recipient's order. */
    method Enqueue(key: Option<nat>, target: nat, kind: Kind, plan: seq<nat>, rated: bool) returns (id: nat)
      modifies this
      ensures State() == Next(old(State()), Outbox.Enqueue(key, target, kind, plan, rated))
      ensures plan != [] ==> id in jobs && jobs[id].key == key
      ensures plan != [] ==> (id in old(jobs) && old(Keyed(State(), key))) || (id == old(next) && !old(Keyed(State(), key)))
      ensures forall k :: k in old(jobs) && k != old(next) ==> k in jobs && jobs[k] == old(jobs)[k]
    {
      id := next;
      if plan == [] { return; }
      if Keyed(State(), key) {
        id :| id in jobs && jobs[id].key == key;
        return;
      }
      jobs := jobs[next := Job(key, target, kind, plan, None, Pending, 0, now, None, false, rated, false, 0, now)];
      next := next + 1;
    }

    /** The checks right after a claim that put a row back or end it without sending. */
    method Withhold(row: Job, verdict: Verdict) returns (settled: Option<Job>)
      ensures settled == Settled(row, verdict, now)
    {
      if row.superseded || (verdict == Refuse && row.kind == Message) {
        return Some(row.(status := Failed, lockedAt := None, error := true));
      }
      if row.kind == Invitation && !row.rated {
        return Some(row.(status := Pending, lockedAt := None, attempts := row.attempts - 1, nextAt := now + HOLD_MS));
      }
      if row.kind == Reminder && verdict == Hold {
        return Some(row.(status := Pending, lockedAt := None, attempts := row.attempts - 1, nextAt := now + PAUSE_MS));
      }
      if row.kind == Reminder && verdict == Skip {
        return Some(row.(status := Sent, lockedAt := None));
      }
      return None;
    }

    /** The predecessor check and the claim are one transaction. */
    method Attempt(worker: nat, process: nat, id: nat, verdict: Verdict)
      modifies this`jobs, this`workers
      ensures State() == Next(old(State()), Claim(worker, process, id, verdict))
      ensures jobs != old(jobs) ==> worker !in old(workers) && old(MayClaim(State(), process, id))
      ensures forall k :: k in old(jobs) && k != id ==> k in jobs && jobs[k] == old(jobs)[k]
      ensures worker !in old(workers) && worker in workers ==>
                && id in jobs && jobs[id].status == Sending && jobs[id].lockedAt == Some(now)
                && jobs[id].attempts == old(jobs)[id].attempts + 1 && Owns(State(), workers[worker])
    {
      hide Busy, HasPredecessor, Settled, Claimable;
      if worker in workers || id !in jobs { return; }
      var row := jobs[id];
      if Busy(State(), process, row.target) || HasPredecessor(State(), id) { return; }
      if !Claimable(row, now) { return; }
      row := row.(status := Sending, lockedAt := Some(now), lastLock := now);
      row := row.(attempts := row.attempts + 1, epoch := row.epoch + 1);
      var settled := Withhold(row, verdict);
      match settled {
        case Some(ended) => jobs := jobs[id := ended];
        case None =>
          jobs := jobs[id := row];
          workers := workers[worker := NewWorker(row, id, process)];
      }
    }

    method BeforeImmediateSend(worker: nat, current: bool)
      modifies this`workers
      ensures State() == Next(old(State()), Check(worker, current))
    {
      if worker !in workers || workers[worker].phase != Checking || workers[worker].sent >= |workers[worker].plan| { return; }
      var w := workers[worker];
      var held := w.kind == Reminder;
      if !held && w.job in jobs {
        var row := jobs[w.job];
        held := row.status == Sending && row.attempts == w.attempts && !row.superseded
                && (Resumable(w.kind) || row.lockedAt == Some(w.lockedAt));
      }
      workers := workers[worker := w.(phase := if held && current then Posting else Failing(!held || Resumable(w.kind)))];
    }

    /** One POST; MAX accepts it and answers, accepts it and stays silent, or refuses it. */
    method PostPart(worker: nat, reply: MaxReply)
      modifies this`workers, this`log
      ensures reply.Ack? ==> State() == Next(old(State()), Accepted(worker, reply.mid, Arrives))
      ensures reply.NoReply? ==> State() == Next(old(State()), Accepted(worker, 0, LostAndRaised))
      ensures reply.Refusal? ==> State() == Next(old(State()), Rejected(worker))
    {
      if worker !in workers || workers[worker].phase != Posting { return; }
      var w := workers[worker];
      if reply.Refusal? {
        workers := workers[worker := w.(phase := Failing(false))];
        return;
      }
      if w.sent >= |w.plan| { return; }
      var stored := if w.job in jobs then |Mids(jobs[w.job].progress)| else 0;
      log := log + [Post(w.job, w.sent, w.plan[w.sent], w.target, if reply.Ack? then reply.mid else 0, reply.Ack?, stored)];
      if reply.NoReply? {
        w := w.(phase := Failing(false));
      } else if Resumable(w.kind) {
        w := w.(phase := Storing(reply.mid));
      } else {
        w := w.(phase := Checking, sent := w.sent + 1);
      }
      workers := workers[worker := w];
    }

    method StoreProgress(worker: nat)
      modifies this`jobs, this`workers
      ensures State() == Next(old(State()), Store(worker, Written))
      ensures forall k :: k in old(jobs) && (worker !in old(workers) || k != old(workers)[worker].job) ==> k in jobs && jobs[k] == old(jobs)[k]
      ensures jobs != old(jobs) ==>
                && worker in old(workers) && old(workers)[worker].phase.Storing? && old(Owns(State(), workers[worker]))
                && var w := old(workers)[worker];
                   && Mids(jobs[w.job].progress) == Mids(old(jobs)[w.job].progress) + [w.phase.mid]
                   && jobs[w.job].lockedAt == Some(now) && jobs[w.job].status == Sending
    {
      if worker !in workers || !workers[worker].phase.Storing? { return; }
      var w := workers[worker];
      if !Owns(State(), w) || !SamePayload(State(), w) {
        workers := workers[worker := w.(phase := Failing(true))];
        return;
      }
      var mids := Mids(w.progress) + [w.phase.mid];
      var row := jobs[w.job].(progress := Some(Progress(w.plan, mids)));
      row := row.(lockedAt := Some(now), lastLock := now);
      jobs := jobs[w.job := row];
      w := w.(progress := row.progress, lockedAt := now);
      workers := workers[worker := w.(sent := w.sent + 1, phase := Checking)];
    }

    method CompleteRow(worker: nat)
      modifies this`jobs, this`workers
      ensures State() == Next(old(State()), Complete(worker, Written))
      ensures jobs != old(jobs) ==> worker in old(workers) && old(Owns(State(), workers[worker])) && worker !in workers
    {
      if worker !in workers || workers[worker].phase != Checking || workers[worker].sent < |workers[worker].plan| { return; }
      var w := workers[worker];
      if !Owns(State(), w) {
        workers := workers[worker := w.(phase := Failing(true))];
        return;
      }
      jobs := jobs[w.job := jobs[w.job].(status := Sent, lockedAt := None, error := false)];
      workers := workers - {worker};
    }

    method FailRow(worker: nat, photo: bool, delay: nat)
      modifies this`jobs, this`workers
      ensures State() == Next(old(State()), Fail(worker, photo, delay))
      ensures jobs != old(jobs) ==> worker in old(workers) && old(Owns(State(), workers[worker])) && worker !in workers
    {
      if worker !in workers || !workers[worker].phase.Failing? { return; }
      var w := workers[worker];
      if Owns(State(), w) {
        var terminal := w.phase.stale || photo || w.attempts >= MAX_ATTEMPTS;
        var status := if terminal then Failed else if w.kind == Deadline then Deferred else Pending;
        jobs := jobs[w.job := jobs[w.job].(status := status, lockedAt := None, error := true, nextAt := now + delay)];
      }
      workers := workers - {worker};
    }

    /** Lease check, POST and, once acknowledged, the stored id. */
    method SendPart(ghost w0: Worker, ghost log0: seq<Post>, worker: nat, replies: seq<MaxReply>, n: nat)
      requires Inv(State()) && n < |replies| && forall k :: 0 <= k < n ==> replies[k].Ack?
      requires Underway(State(), w0, worker, replies, n, Checking) && log == log0 + NewPosts(w0, replies, n)
      requires w0.sent + n < |w0.plan| && Resumable(w0.kind)
      modifies this`jobs, this`workers, this`log
      ensures Inv(State())
      ensures replies[n].Ack? ==>
                Underway(State(), w0, worker, replies, n + 1, Checking) && log == log0 + NewPosts(w0, replies, n + 1)
      ensures !replies[n].Ack? ==> Tried(State(), w0, log0, worker, replies, n + 1, n)
    {
      hide Inv, Next, Underway, Tried, NewPosts, AckedIds, Owns;
      ghost var s0 := State();
      LeaseHolds(s0, w0, worker, replies, n);
      NextInv(s0, Check(worker, true));
      BeforeImmediateSend(worker, true);
      ghost var s1 := State();
      PostPart(worker, replies[n]);
      if replies[n].Ack? {
        PartAccepted(s1, w0, worker, replies, n);
        NextInv(s1, Accepted(worker, replies[n].mid, Arrives));
        ghost var s2 := State();
        StoreProgress(worker);
        PartStored(s2, w0, worker, replies, n);
        NextInv(s2, Store(worker, Written));
        OnePostMore(w0, replies, n);
      } else {
        PartFailed(s1, w0, log0, worker, replies, n);
        NextInv(s1, if replies[n].NoReply? then Accepted(worker, 0, LostAndRaised) else Rejected(worker));
      }
    }

    /** Parts go out one after another from the first one without a stored id; each acknowledged id is
      * stored before the next part, and the first failure ends the attempt. */
    method DeliverLogical(worker: nat, replies: seq<MaxReply>, ghost parts: nat) returns (acked: nat)
      requires Inv(State()) && worker in workers && workers[worker].phase == Checking && Resumable(workers[worker].kind)
      requires Owns(State(), workers[worker]) && !jobs[workers[worker].job].superseded
      requires parts == |workers[worker].plan| - workers[worker].sent && parts <= |replies|
      modifies this`jobs, this`workers, this`log
      ensures Inv(State()) && acked == LeadingAcks(replies, parts)
      ensures Tried(State(), old(workers[worker]), old(log), worker, replies, parts, acked)
    {
      hide Inv, Tried, NewPosts, AckedIds, LeadingAcks, Owns;
      ghost var w0 := workers[worker];
      Begins(State(), worker, replies);
      acked := 0;
      while workers[worker].sent < |workers[worker].plan|
        invariant Inv(State()) && acked <= parts
        invariant forall k :: 0 <= k < acked ==> replies[k].Ack?
        invariant Underway(State(), w0, worker, replies, acked, Checking) && log == old(log) + NewPosts(w0, replies, acked)
        decreases parts - acked
      {
        SendPart(w0, old(log), worker, replies, acked);
        if !replies[acked].Ack? {
          LeadingAcksAt(replies, parts, acked);
          TriedOfMore(State(), w0, old(log), worker, replies, parts, acked);
          return;
        }
        acked := acked + 1;
      }
      LeadingAcksAt(replies, parts, acked);
      AllTried(State(), w0, old(log), worker, replies, acked);
    }

    /** A whole attempt that nobody disturbs: the job is SENT exactly when every missing part was acknowledged;
      * otherwise it keeps the acknowledged prefix and waits, or fails for good after its twelfth attempt. */
    method Deliver(worker: nat, replies: seq<MaxReply>, delay: nat, ghost parts: nat, ghost id: nat) returns (sent: bool)
      requires Inv(State()) && worker in workers && workers[worker].phase == Checking && Resumable(workers[worker].kind)
      requires Owns(State(), workers[worker]) && id == workers[worker].job && !jobs[id].superseded
      requires parts == |workers[worker].plan| - workers[worker].sent && parts <= |replies|
      modifies this`jobs, this`workers, this`log
      ensures Inv(State()) && worker !in workers && (sent <==> LeadingAcks(replies, parts) == parts) && id in jobs
      ensures jobs[id].status == if sent then Sent else if old(workers[worker].attempts) >= MAX_ATTEMPTS then Failed else Pending
      ensures var n := LeadingAcks(replies, parts); Mids(jobs[id].progress) == Mids(old(workers[worker].progress)) + AckedIds(replies, n)
      ensures var n := LeadingAcks(replies, parts); AllLogged(old(workers[worker]), old(log), log, replies, parts, n)
    {
      hide Inv, Next, Tried, AllLogged, AckedIds, LeadingAcks, Owns, Mids;
      ghost var w0 := workers[worker];
      var acked := DeliverLogical(worker, replies, parts);
      ghost var s := State();
      AttemptEnds(s, w0, old(log), worker, replies, parts, acked, delay);
      sent := workers[worker].phase == Checking;
      if sent {
        CompleteRow(worker);
        NextInv(s, Complete(worker, Written));
      } else {
        FailRow(worker, false, delay);
        NextInv(s, Fail(worker, false, delay));
      }
    }

    method RetryFailedAnswer(id: nat)
      modifies this`jobs
      ensures State() == Next(old(State()), Retry(id, false))
      ensures id in jobs ==> id in old(jobs) && jobs[id].error == old(jobs)[id].error && jobs[id].progress == old(jobs)[id].progress
    {
      if id !in jobs || jobs[id].status != Failed { return; }
      jobs := jobs[id := jobs[id].(status := Pending, attempts := 0, nextAt := now, lockedAt := None)];
    }

    method RetryFailedOutbound(id: nat)
      modifies this`jobs
      ensures State() == Next(old(State()), Retry(id, true))
      ensures jobs != old(jobs) ==> old(jobs)[id].status == Failed && !jobs[id].error && jobs[id].progress == old(jobs)[id].progress
    {
      if id !in jobs || jobs[id].status != Failed { return; }
      jobs := jobs[id := jobs[id].(status := Pending, attempts := 0, nextAt := now, lockedAt := None, error := false)];
    }
  }
}
