/** What the outbox promises when it runs in one process, as its operating guide demands (README.md:351-353). */
module OutboxOneProcess {
  import opened Outbox
  import opened OutboxInvariant
  import opened Wrappers

  predicate OneProcess(events: seq<Event>) { forall i :: 0 <= i < |events| && events[i].Claim? ==> events[i].process == 0 }

  predicate SameTarget(s: State, v: nat, w: nat)
    requires v in s.workers && w in s.workers
  {
    s.workers[v].target == s.workers[w].target
  }

  /** At most one attempt per recipient is in memory, and it belongs to the latest claim of its row. */
  predicate OneSender(s: State) {
    && (forall w :: w in s.workers ==> s.workers[w].process == 0)
    && (forall v, w :: v in s.workers && w in s.workers && SameTarget(s, v, w) ==> v == w)
    && (forall w :: w in s.workers && s.workers[w].job in s.jobs ==> s.workers[w].epoch == s.jobs[s.workers[w].job].epoch)
  }

  predicate Live(j: Job, now: int) { j.status == Sending && j.lockedAt.Some? && j.lockedAt.value > now - LEASE_MS }

  predicate OthersStale(s: State, worker: nat)
    requires worker in s.workers
  {
    forall id :: id in s.jobs && id != s.workers[worker].job && s.jobs[id].target == s.workers[worker].target ==> !Live(s.jobs[id], s.now)
  }

  predicate LiveOnce(s: State) {
    && (forall w :: w in s.workers ==> OthersStale(s, w))
    && (forall a, b ::
          a in s.jobs && b in s.jobs && s.jobs[a].target == s.jobs[b].target && Live(s.jobs[a], s.now) && Live(s.jobs[b], s.now) ==>
            a == b)
  }

  /** No accepted message repeats a part whose id was stored. */
  predicate NeverRepeats(log: seq<Post>) { forall i :: 0 <= i < |log| ==> log[i].stored <= log[i].part }

  predicate Solo(s: State) { OneSender(s) && LiveOnce(s) && NeverRepeats(s.log) }

  // ----- Steps that take no lease -------------------------------------------

  predicate CalmWorker(s: State, s': State, w: nat)
    requires w in s'.workers
  {
    w in s.workers && s'.workers[w].process == s.workers[w].process && s'.workers[w].job == s.workers[w].job
    && s'.workers[w].target == s.workers[w].target && s'.workers[w].epoch == s.workers[w].epoch
  }

  predicate CalmJob(s: State, s': State, id: nat)
    requires id in s'.jobs
  {
    if id in s.jobs then
      s'.jobs[id].epoch == s.jobs[id].epoch && s'.jobs[id].target == s.jobs[id].target
      && (s'.jobs[id].status == Sending ==> s.jobs[id].status == Sending && s'.jobs[id].lockedAt == s.jobs[id].lockedAt)
    else id == s.next && s'.jobs[id].status != Sending
  }

  predicate Calm(s: State, s': State) {
    s.now <= s'.now && (forall w :: w in s'.workers ==> CalmWorker(s, s', w)) && (forall id :: id in s'.jobs ==> CalmJob(s, s', id))
  }

  predicate RowEvent(e: Event) { e.Tick? || e.Enqueue? || e.Retry? || e.Release? || e.Supersede? || e.Delete? }

  lemma RowStepsAreCalm(s: State, e: Event)
    requires s.next !in s.jobs && RowEvent(e)
    ensures Calm(s, Next(s, e)) && Next(s, e).log == s.log
  {
  }

  lemma EndingsAreCalm(s: State, e: Event)
    requires e.Complete? || e.Fail?
    ensures Calm(s, Next(s, e)) && Next(s, e).log == s.log
  {
  }

  lemma WithdrawalsAreCalm(s: State, e: Event)
    requires e.Defer? || e.Cancel? || e.Crash?
    ensures Calm(s, Next(s, e)) && Next(s, e).log == s.log
  {
  }

  lemma SendingStepsAreCalm(s: State, e: Event)
    requires e.Prepare? || e.Check? || e.Accepted? || e.Rejected?
    ensures Calm(s, Next(s, e)) && (!e.Accepted? ==> Next(s, e).log == s.log)
  {
  }

  lemma MostStepsAreCalm(s: State, e: Event)
    requires Inv(s) && !e.Claim? && !e.Store?
    ensures Calm(s, Next(s, e))
    ensures !e.Accepted? ==> Next(s, e).log == s.log
  {
    assert s.next !in s.jobs;
    hide Next, Inv;
    if RowEvent(e) { RowStepsAreCalm(s, e); }
    else if e.Prepare? || e.Check? || e.Accepted? || e.Rejected? { SendingStepsAreCalm(s, e); }
    else if e.Complete? || e.Fail? { EndingsAreCalm(s, e); }
    else { WithdrawalsAreCalm(s, e); }
  }

  lemma CalmKeepsSolo(s: State, s': State)
    requires Inv(s) && OneSender(s) && LiveOnce(s) && Calm(s, s')
    ensures OneSender(s') && LiveOnce(s')
  {
    forall w | w in s'.workers
      ensures s'.workers[w].process == 0 && OthersStale(s', w)
      ensures s'.workers[w].job in s'.jobs ==> s'.workers[w].epoch == s'.jobs[s'.workers[w].job].epoch
    {
      assert CalmWorker(s, s', w) && OthersStale(s, w) && WorkerOk(s, s.workers[w]);
      forall id | id in s'.jobs && id != s'.workers[w].job && s'.jobs[id].target == s'.workers[w].target
        ensures !Live(s'.jobs[id], s'.now)
      {
        assert CalmJob(s, s', id);
      }
      if s'.workers[w].job in s'.jobs { assert CalmJob(s, s', s'.workers[w].job); }
    }
    forall v, w | v in s'.workers && w in s'.workers && SameTarget(s', v, w) ensures v == w {
      assert CalmWorker(s, s', v) && CalmWorker(s, s', w) && SameTarget(s, v, w);
    }
    forall a, b | a in s'.jobs && b in s'.jobs && s'.jobs[a].target == s'.jobs[b].target
                  && Live(s'.jobs[a], s'.now) && Live(s'.jobs[b], s'.now)
      ensures a == b
    {
      assert CalmJob(s, s', a) && CalmJob(s, s', b);
    }
  }

  lemma AcceptedIsNew(s: State, worker: nat, mid: nat, reply: Reply)
    requires Inv(s) && Solo(s)
    ensures NeverRepeats(Accept(s, worker, mid, reply).log)
  {
    if Accept(s, worker, mid, reply) != s {
      var w := s.workers[worker];
      assert WorkerOk(s, w);
      if w.job in s.jobs { assert JobOk(s.jobs[w.job], s.now); }
    }
  }

  // ----- Steps that take or renew a lease -----------------------------------

  /** The only sender to a recipient renews its own lock. */
  lemma RenewalKeepsSolo(s: State, worker: nat, j: Job, w: Worker)
    requires Solo(s) && worker in s.workers && s.workers[worker].job in s.jobs
    requires var was := s.workers[worker];
             w.process == was.process && w.job == was.job && w.target == was.target && w.epoch == was.epoch
             && j.target == s.jobs[was.job].target == was.target && j.epoch == s.jobs[was.job].epoch
    ensures Solo(s.(jobs := s.jobs[w.job := j], workers := s.workers[worker := w]))
  {
    var s' := s.(jobs := s.jobs[w.job := j], workers := s.workers[worker := w]);
    assert OthersStale(s, worker);
    forall v | v in s'.workers ensures OthersStale(s', v) {
      assert OthersStale(s, v);
      if v != worker { assert !SameTarget(s, v, worker); }
    }
    forall v, u | v in s'.workers && u in s'.workers && SameTarget(s', v, u) ensures v == u { assert SameTarget(s, v, u); }
  }

  lemma StoredTarget(s: State, worker: nat)
    requires Inv(s) && worker in s.workers && s.workers[worker].job in s.jobs
    ensures s.workers[worker].target == s.jobs[s.workers[worker].job].target
  {
    assert WorkerOk(s, s.workers[worker]);
  }

  lemma UnstoredIsCalm(s: State, worker: nat, write: Write)
    requires Inv(s) && StorePart(s, worker, write).jobs == s.jobs
    ensures Calm(s, StorePart(s, worker, write))
  {
    hide WorkersOk, Distinct, AllPlaced, JobOk, MidsAcked;
  }

  lemma StoreKeepsSolo(s: State, worker: nat, write: Write)
    requires Inv(s) && Solo(s)
    ensures Solo(StorePart(s, worker, write))
  {
    hide Inv, OneSender, LiveOnce, NeverRepeats, Calm;
    var s' := StorePart(s, worker, write);
    if s'.jobs != s.jobs {
      StoredTarget(s, worker);
      RenewalKeepsSolo(s, worker, s'.jobs[s.workers[worker].job], s'.workers[worker]);
    } else {
      UnstoredIsCalm(s, worker, write);
      CalmKeepsSolo(s, s');
    }
  }

  lemma ClaimedOthersAreStale(s: State, process: nat, id: nat, other: nat)
    requires Inv(s) && MayClaim(s, process, id) && other in s.jobs && other != id && s.jobs[other].target == s.jobs[id].target
    ensures !Live(s.jobs[other], s.now)
  {
    assert JobOk(s.jobs[other], s.now);
    assert !HoldsBack(s.jobs[other], other, s.jobs[id], id, s.now);
  }

  /** A row that may be claimed has no attempt of its recipient in memory. */
  lemma NobodySends(s: State, id: nat, w: nat)
    requires Inv(s) && Solo(s) && MayClaim(s, 0, id) && w in s.workers
    ensures s.workers[w].target != s.jobs[id].target && s.workers[w].job != id
  {
    hide JobsOk, Distinct, AllPlaced, InHand, LiveOnce, NeverRepeats, HasPredecessor, Claimable;
    assert WorkerOk(s, s.workers[w]);
  }

  lemma ClaimedRowIsSolo(s: State, id: nat, verdict: Verdict)
    requires Inv(s) && Solo(s) && MayClaim(s, 0, id)
    ensures Solo(s.(jobs := s.jobs[id := AfterClaim(s.jobs[id], verdict, s.now)]))
  {
    hide Inv, Busy, HasPredecessor, Claimable, AfterClaim, Live;
    var j := AfterClaim(s.jobs[id], verdict, s.now);
    var s' := s.(jobs := s.jobs[id := j]);
    AfterClaimKeeps(s.jobs[id], verdict, s.now);
    forall w | w in s'.workers
      ensures OthersStale(s', w) && (s'.workers[w].job in s'.jobs ==> s'.workers[w].epoch == s'.jobs[s'.workers[w].job].epoch)
    {
      assert OthersStale(s, w);
      NobodySends(s, id, w);
    }
    forall other | other in s.jobs && other != id && s.jobs[other].target == s.jobs[id].target ensures !Live(s'.jobs[other], s'.now) {
      ClaimedOthersAreStale(s, 0, id, other);
    }
    forall v, w | v in s'.workers && w in s'.workers && SameTarget(s', v, w) ensures v == w { assert SameTarget(s, v, w); }
  }

  lemma ClaimKeepsSolo(s: State, worker: nat, id: nat, verdict: Verdict)
    requires Inv(s) && Solo(s)
    ensures Solo(ClaimJob(s, worker, 0, id, verdict))
  {
    if worker !in s.workers && MayClaim(s, 0, id) {
      ClaimedRowIsSolo(s, id, verdict);
      var claimed := s.(jobs := s.jobs[id := AfterClaim(s.jobs[id], verdict, s.now)]);
      var s' := ClaimJob(s, worker, 0, id, verdict);
      if s' != claimed {
        forall w | w in s'.workers ensures s'.workers[w].process == 0 && OthersStale(s', w) {
          if w != worker { assert OthersStale(claimed, w); } else {
            forall other | other in s'.jobs && other != id && s'.jobs[other].target == s'.workers[w].target
              ensures !Live(s'.jobs[other], s'.now)
            {
              ClaimedOthersAreStale(s, 0, id, other);
            }
          }
        }
        forall v, w | v in s'.workers && w in s'.workers && SameTarget(s', v, w) ensures v == w {
          if v != worker && w != worker { assert SameTarget(claimed, v, w); }
        }
      }
    }
  }

  // ----- Every run of one process -------------------------------------------

  lemma NextKeepsSolo(s: State, e: Event)
    requires Inv(s) && Solo(s) && (e.Claim? ==> e.process == 0)
    ensures Solo(Next(s, e))
  {
    hide Inv, OneSender, LiveOnce, NeverRepeats;
    match e {
      case Claim(worker, _, id, verdict) => ClaimKeepsSolo(s, worker, id, verdict);
      case Store(worker, write) => StoreKeepsSolo(s, worker, write);
      case Accepted(worker, mid, reply) =>
        MostStepsAreCalm(s, e);
        CalmKeepsSolo(s, Next(s, e));
        AcceptedIsNew(s, worker, mid, reply);
      case _ =>
        MostStepsAreCalm(s, e);
        CalmKeepsSolo(s, Next(s, e));
    }
  }

  lemma {:induction false} RunIsSolo(events: seq<Event>)
    requires OneProcess(events)
    ensures Solo(Run(Start, events))
  {
    if events != [] {
      var front := events[..|events| - 1];
      forall i | 0 <= i < |front| && front[i].Claim? ensures front[i].process == 0 { assert front[i] == events[i]; }
      RunIsSolo(front);
      RunInv(front);
      NextKeepsSolo(Run(Start, front), events[|events| - 1]);
    }
  }

  /** In one process no part with a stored id is ever sent again ... */
  lemma StoredPartsAreNeverResent(events: seq<Event>, i: nat)
    requires OneProcess(events) && i < |Run(Start, events).log|
    ensures var post := Run(Start, events).log[i]; post.stored <= post.part
  {
    RunIsSolo(events);
  }

  /** ... and a recipient never has two sends under live leases. */
  lemma OneLiveSendPerRecipient(events: seq<Event>, a: nat, b: nat)
    requires OneProcess(events)
    requires var s := Run(Start, events);
             a in s.jobs && b in s.jobs && s.jobs[a].target == s.jobs[b].target && Live(s.jobs[a], s.now) && Live(s.jobs[b], s.now)
    ensures a == b
  {
    RunIsSolo(events);
  }
}
