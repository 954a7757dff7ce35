/** Every event of the outbox keeps its invariant, whatever other processes and MAX do. */
module OutboxInvariant {
  import opened Outbox
  import opened Wrappers

  // ----- Changing one row or one worker -------------------------------------

  lemma AckedStays(log: seq<Post>, more: seq<Post>, id: nat, k: nat, text: nat, target: nat, mid: nat)
    requires AckedPart(log, id, k, text, target, mid)
    ensures AckedPart(log + more, id, k, text, target, mid)
  {
    var i :| 0 <= i < |log| && log[i].job == id && log[i].part == k && log[i].text == text
             && log[i].target == target && log[i].mid == mid && log[i].replied;
    assert (log + more)[i] == log[i];
  }

  predicate Posted(s: State, id: nat) { exists i :: 0 <= i < |s.log| && s.log[i].job == id }

  lemma SetJob(s: State, id: nat, j: Job)
    requires Inv(s) && id in s.jobs
    requires JobOk(j, s.now) && MidsAcked(s.log, id, j)
    requires Posted(s, id) && j.kind == Invitation ==> j.rated
    requires forall w :: w in s.workers && s.workers[w].job == id ==> WorkerOk(s.(jobs := s.jobs[id := j]), s.workers[w])
    ensures Inv(s.(jobs := s.jobs[id := j]))
  {
    var s' := s.(jobs := s.jobs[id := j]);
    forall i | 0 <= i < |s'.log| ensures Placed(s', i) { assert Placed(s, i); }
    forall w | w in s'.workers ensures WorkerOk(s', s'.workers[w]) && InHand(s'.log, s'.workers[w]) {
      assert WorkerOk(s, s.workers[w]) && InHand(s.log, s.workers[w]);
    }
  }

  lemma SetWorker(s: State, worker: nat, w: Worker)
    requires Inv(s) && worker in s.workers && w.job == s.workers[worker].job && w.epoch == s.workers[worker].epoch
    requires WorkerOk(s, w) && InHand(s.log, w)
    ensures Inv(s.(workers := s.workers[worker := w]))
  {
    var s' := s.(workers := s.workers[worker := w]);
    forall i | 0 <= i < |s'.log| ensures Placed(s', i) { assert Placed(s, i); }
    forall v | v in s'.workers ensures WorkerOk(s', s'.workers[v]) && InHand(s'.log, s'.workers[v]) {
      if v != worker { assert WorkerOk(s, s.workers[v]) && InHand(s.log, s.workers[v]); }
    }
  }

  lemma DropWorker(s: State, worker: nat)
    requires Inv(s)
    ensures Inv(Gone(s, worker))
  {
    var s' := Gone(s, worker);
    forall i | 0 <= i < |s'.log| ensures Placed(s', i) { assert Placed(s, i); }
    forall v | v in s'.workers ensures WorkerOk(s', s'.workers[v]) && InHand(s'.log, s'.workers[v]) {
      assert WorkerOk(s, s.workers[v]) && InHand(s.log, s.workers[v]);
    }
  }

  lemma PhaseInv(s: State, worker: nat, phase: Phase)
    requires Inv(s) && worker in s.workers && !phase.Storing? && !s.workers[worker].phase.Failing?
    ensures Inv(Phased(s, worker, phase))
  {
    assert WorkerOk(s, s.workers[worker]);
    SetWorker(s, worker, s.workers[worker].(phase := phase));
  }

  /** A write whose compare-and-swap matched comes from the latest claimer. */
  lemma OwnerIsLatest(s: State, worker: nat)
    requires Inv(s) && worker in s.workers && Owns(s, s.workers[worker])
    ensures s.workers[worker].epoch == s.jobs[s.workers[worker].job].epoch
    ensures forall v :: v in s.workers && v != worker && s.workers[v].job == s.workers[worker].job ==>
              s.workers[v].epoch < s.jobs[s.workers[worker].job].epoch
  {
    var w := s.workers[worker];
    assert WorkerOk(s, w) && JobOk(s.jobs[w.job], s.now);
    forall v | v in s.workers && v != worker && s.workers[v].job == w.job ensures s.workers[v].epoch < s.jobs[w.job].epoch {
      assert WorkerOk(s, s.workers[v]);
    }
  }

  /** Nothing changes for workers that lost the row, as long as its claims and locks only move forward. */
  lemma OutdatedStays(s: State, worker: nat, j: Job)
    requires Inv(s) && worker in s.workers && s.workers[worker].job in s.jobs
    requires s.workers[worker].epoch < s.jobs[s.workers[worker].job].epoch <= j.epoch
    requires var before := s.jobs[s.workers[worker].job];
             && j.target == before.target && j.kind == before.kind
             && j.lastLock >= before.lastLock && (before.rated ==> j.rated)
    ensures WorkerOk(s.(jobs := s.jobs[s.workers[worker].job := j]), s.workers[worker])
  {
    assert WorkerOk(s, s.workers[worker]);
  }

  /** The owner rewrites its row: everybody else on it is outdated. */
  lemma SetOwnedJob(s: State, worker: nat, j: Job)
    requires Inv(s) && worker in s.workers && Owns(s, s.workers[worker])
    requires var id := s.workers[worker].job;
             && JobOk(j, s.now) && MidsAcked(s.log, id, j) && j.rated == s.jobs[id].rated
             && j.target == s.jobs[id].target && j.kind == s.jobs[id].kind
             && j.epoch == s.jobs[id].epoch && j.lastLock >= s.jobs[id].lastLock
    requires WorkerOk(s.(jobs := s.jobs[s.workers[worker].job := j]), s.workers[worker])
    ensures Inv(s.(jobs := s.jobs[s.workers[worker].job := j]))
  {
    var id := s.workers[worker].job;
    OwnerIsLatest(s, worker);
    forall v | v in s.workers && s.workers[v].job == id ensures WorkerOk(s.(jobs := s.jobs[id := j]), s.workers[v]) {
      if v != worker { OutdatedStays(s, v, j); }
    }
    SetJob(s, id, j);
  }

  /** A worker's knowledge is checked against the rows alone. */
  lemma OnlyJobs(s: State, s': State, w: Worker)
    requires s'.jobs == s.jobs && s'.next == s.next
    ensures WorkerOk(s', w) == WorkerOk(s, w)
  {
  }

  /** An owner that hit an error still owns its row, and its knowledge survives what it writes there. */
  lemma OwnerFails(s: State, worker: nat, j: Job)
    requires Inv(s) && worker in s.workers && Owns(s, s.workers[worker])
    requires var id := s.workers[worker].job;
             && j.rated == s.jobs[id].rated && j.target == s.jobs[id].target && j.kind == s.jobs[id].kind
             && j.epoch == s.jobs[id].epoch && j.lastLock >= s.jobs[id].lastLock && (j.status == Sending || j.status == Sent)
    ensures var failed := s.workers[worker].(phase := Failing(false)); var id := s.workers[worker].job;
            var failing := s.(workers := s.workers[worker := failed]);
            && Inv(failing) && Owns(failing, failed) && WorkerOk(failing.(jobs := s.jobs[id := j]), failed)
  {
    hide JobsOk, Distinct, AllPlaced, JobOk, MidsAcked, AckedPart;
    assert WorkerOk(s, s.workers[worker]);
    OwnerIsLatest(s, worker);
    SetWorker(s, worker, s.workers[worker].(phase := Failing(false)));
  }

  /** The owner writes its row and what it now knows of it. */
  lemma WriteOwned(s: State, worker: nat, j: Job, w: Worker)
    requires Inv(s) && worker in s.workers && Owns(s, s.workers[worker])
    requires var id := s.workers[worker].job;
             && JobOk(j, s.now) && MidsAcked(s.log, id, j) && j.rated == s.jobs[id].rated
             && j.target == s.jobs[id].target && j.kind == s.jobs[id].kind
             && j.epoch == s.jobs[id].epoch && j.lastLock >= s.jobs[id].lastLock
             && (j.status == Sending || j.status == Sent) && w.job == id && w.epoch == s.workers[worker].epoch
    requires WorkerOk(s.(jobs := s.jobs[s.workers[worker].job := j]), w) && InHand(s.log, w)
    ensures Inv(s.(jobs := s.jobs[s.workers[worker].job := j], workers := s.workers[worker := w]))
  {
    hide Inv, WorkerOk, InHand, JobOk, MidsAcked;
    var known, id := s.workers[worker], s.workers[worker].job;
    var failing := s.(workers := s.workers[worker := known.(phase := Failing(false))]);
    OwnerFails(s, worker, j);
    SetOwnedJob(failing, worker, j);
    var written := failing.(jobs := s.jobs[id := j]);
    OnlyJobs(s.(jobs := s.jobs[id := j]), written, w);
    SetWorker(written, worker, w);
    assert s.(jobs := s.jobs[id := j], workers := s.workers[worker := w]) == written.(workers := written.workers[worker := w]);
  }

  // ----- Claiming -----------------------------------------------------------

  lemma PostedIsRated(s: State, id: nat)
    requires AllPlaced(s) && Posted(s, id) && id in s.jobs
    ensures s.jobs[id].kind == Invitation ==> s.jobs[id].rated
  {
    var i :| 0 <= i < |s.log| && s.log[i].job == id;
    assert Placed(s, i);
  }

  /** A claim leaves every earlier worker of the row a whole lease behind. */
  lemma ClaimOutdates(s: State, worker: nat, id: nat)
    requires Inv(s) && worker in s.workers && s.workers[worker].job == id && id in s.jobs && Claimable(s.jobs[id], s.now)
    ensures s.workers[worker].epoch <= s.jobs[id].epoch && s.workers[worker].lockedAt + LEASE_MS <= s.now
  {
    assert WorkerOk(s, s.workers[worker]) && JobOk(s.jobs[id], s.now);
  }

  /** What a claim writes: the row taken, put back, skipped or refused. */
  function AfterClaim(j: Job, verdict: Verdict, now: int): Job {
    var claimed := Claimed(j, now);
    var settled := Settled(claimed, verdict, now);
    if settled.Some? then settled.value else claimed
  }

  lemma AfterClaimOk(j: Job, verdict: Verdict, now: int)
    requires JobOk(j, now) && Claimable(j, now)
    ensures JobOk(AfterClaim(j, verdict, now), now)
  {
  }

  lemma AfterClaimKeeps(j: Job, verdict: Verdict, now: int)
    ensures var j' := AfterClaim(j, verdict, now);
            && j'.plan == j.plan && j'.progress == j.progress && j'.target == j.target && j'.kind == j.kind
            && j'.rated == j.rated && j'.epoch == j.epoch + 1 && j'.lastLock == now
  {
  }

  lemma ClaimedWorkers(s: State, worker: nat, id: nat, j: Job)
    requires Inv(s) && worker in s.workers && s.workers[worker].job == id && id in s.jobs && Claimable(s.jobs[id], s.now)
    requires j.target == s.jobs[id].target && j.kind == s.jobs[id].kind && j.rated == s.jobs[id].rated
    requires j.epoch == s.jobs[id].epoch + 1 && j.lastLock == s.now
    ensures WorkerOk(s.(jobs := s.jobs[id := j]), s.workers[worker])
  {
    hide JobsOk, Distinct, AllPlaced, JobOk, MidsAcked, AckedPart;
    ClaimOutdates(s, worker, id);
    assert WorkerOk(s, s.workers[worker]);
  }

  lemma ClaimedRow(s: State, process: nat, id: nat, verdict: Verdict)
    requires Inv(s) && MayClaim(s, process, id)
    ensures Inv(s.(jobs := s.jobs[id := AfterClaim(s.jobs[id], verdict, s.now)]))
  {
    hide WorkersOk, Distinct, WorkerOk, InHand, JobOk, Claimable, AfterClaim, Busy, HasPredecessor;
    var j := AfterClaim(s.jobs[id], verdict, s.now);
    AfterClaimOk(s.jobs[id], verdict, s.now);
    AfterClaimKeeps(s.jobs[id], verdict, s.now);
    forall w | w in s.workers && s.workers[w].job == id ensures WorkerOk(s.(jobs := s.jobs[id := j]), s.workers[w]) {
      ClaimedWorkers(s, w, id, j);
    }
    if Posted(s, id) { PostedIsRated(s, id); }
    SetJob(s, id, j);
  }

  lemma AddWorker(s: State, worker: nat, id: nat, process: nat)
    requires Inv(s) && worker !in s.workers && id in s.jobs && s.jobs[id].status == Sending && s.jobs[id].lockedAt.Some?
    requires forall w :: w in s.workers && s.workers[w].job == id ==> s.workers[w].epoch < s.jobs[id].epoch
    ensures Inv(s.(workers := s.workers[worker := NewWorker(s.jobs[id], id, process)]))
  {
    var w := NewWorker(s.jobs[id], id, process);
    var s' := s.(workers := s.workers[worker := w]);
    assert JobOk(s.jobs[id], s.now);
    assert WorkerOk(s', w);
    forall i | 0 <= i < |s'.log| ensures Placed(s', i) { assert Placed(s, i); }
    forall v | v in s'.workers ensures WorkerOk(s', s'.workers[v]) && InHand(s'.log, s'.workers[v]) {
      if v != worker { assert WorkerOk(s, s.workers[v]) && InHand(s.log, s.workers[v]); }
    }
  }

  lemma ClaimInv(s: State, worker: nat, process: nat, id: nat, verdict: Verdict)
    requires Inv(s)
    ensures Inv(ClaimJob(s, worker, process, id, verdict))
  {
    if worker !in s.workers && MayClaim(s, process, id) {
      var claimed := Claimed(s.jobs[id], s.now);
      ClaimedRow(s, process, id, verdict);
      if Settled(claimed, verdict, s.now).None? {
        forall w | w in s.workers && s.workers[w].job == id ensures s.workers[w].epoch < claimed.epoch { ClaimOutdates(s, w, id); }
        AddWorker(s.(jobs := s.jobs[id := claimed]), worker, id, process);
      }
    }
  }

  // ----- Sending ------------------------------------------------------------

  lemma PrepareInv(s: State, worker: nat, current: bool, upgrade: Option<seq<nat>>)
    requires Inv(s)
    ensures Inv(PrepareJob(s, worker, current, upgrade))
  {
    if worker in s.workers && s.workers[worker].phase == Preparing {
      var w := s.workers[worker];
      var s' := PrepareJob(s, worker, current, upgrade);
      PhaseInv(s, worker, Checking);
      PhaseInv(s, worker, Failing(true));
      if s'.jobs != s.jobs {
        assert WorkerOk(s, w) && JobOk(s.jobs[w.job], s.now);
        WriteOwned(s, worker, s.jobs[w.job].(plan := upgrade.value), w.(plan := upgrade.value, phase := Checking));
      }
    }
  }

  lemma CheckInv(s: State, worker: nat, current: bool)
    requires Inv(s)
    ensures Inv(CheckLease(s, worker, current))
  {
    if worker in s.workers && s.workers[worker].phase == Checking {
      PhaseInv(s, worker, Posting);
      PhaseInv(s, worker, Failing(true));
      PhaseInv(s, worker, Failing(false));
    }
  }

  /** What MAX accepted is logged; everything acknowledged before stays acknowledged. */
  lemma LogInv(s: State, post: Post)
    requires Inv(s) && post.job < s.next && (post.job in s.jobs && s.jobs[post.job].kind == Invitation ==> s.jobs[post.job].rated)
    ensures Inv(s.(log := s.log + [post]))
  {
    var s' := s.(log := s.log + [post]);
    forall i | 0 <= i < |s'.log| ensures Placed(s', i) { if i < |s.log| { assert Placed(s, i); } }
    forall w | w in s'.workers ensures WorkerOk(s', s'.workers[w]) && InHand(s'.log, s'.workers[w]) {
      var v := s.workers[w];
      assert WorkerOk(s, v) && InHand(s.log, v);
      if v.phase.Storing? { AckedStays(s.log, [post], v.job, v.sent, v.plan[v.sent], v.target, v.phase.mid); }
    }
    forall id | id in s'.jobs ensures MidsAcked(s'.log, id, s'.jobs[id]) {
      var j := s.jobs[id];
      assert JobOk(j, s.now) && MidsAcked(s.log, id, j);
      if j.progress.Some? {
        forall k | 0 <= k < |j.progress.value.mids| && k < |j.plan|
          ensures AckedPart(s'.log, id, k, j.plan[k], j.target, j.progress.value.mids[k])
        {
          AckedStays(s.log, [post], id, k, j.plan[k], j.target, j.progress.value.mids[k]);
        }
      }
    }
  }

  lemma AcceptInv(s: State, worker: nat, mid: nat, reply: Reply)
    requires Inv(s)
    ensures Inv(Accept(s, worker, mid, reply))
  {
    var s' := Accept(s, worker, mid, reply);
    if s' != s {
      var w := s.workers[worker];
      assert WorkerOk(s, w);
      var post := s'.log[|s.log|];
      LogInv(s, post);
      var logged := s.(log := s.log + [post]);
      assert WorkerOk(logged, w) && logged.log[|s.log|] == post;
      SetWorker(logged, worker, s'.workers[worker]);
    }
  }

  lemma StoreInv(s: State, worker: nat, write: Write)
    requires Inv(s)
    ensures Inv(StorePart(s, worker, write))
  {
    hide Inv, WorkerOk, InHand, JobOk, MidsAcked, SamePayload;
    if worker in s.workers && s.workers[worker].phase.Storing? {
      var w := s.workers[worker];
      PhaseInv(s, worker, Failing(true));
      PhaseInv(s, worker, Failing(false));
      if write != NotWritten && Owns(s, w) && SamePayload(s, w) {
        StoredRow(s, worker);
        StoredWorker(s, worker, write);
        WriteOwned(s, worker, Extended(s, w), StorePart(s, worker, write).workers[worker]);
        StoredState(s, worker, write);
      }
    }
  }

  /** What the worker knows once the part is stored, whether or not it hears of it. */
  lemma StoredWorker(s: State, worker: nat, write: Write)
    requires Inv(s) && worker in s.workers && s.workers[worker].phase.Storing? && write != NotWritten
    requires Owns(s, s.workers[worker]) && SamePayload(s, s.workers[worker])
    ensures var w, w' := s.workers[worker], StorePart(s, worker, write).workers[worker];
            && w'.job == w.job && w'.epoch == w.epoch && InHand(s.log, w')
            && WorkerOk(s.(jobs := s.jobs[w.job := Extended(s, w)]), w')
  {
    hide JobsOk, Distinct, AllPlaced, JobOk, MidsAcked, AckedPart;
    StoredRow(s, worker);
    OwnerIsLatest(s, worker);
    assert WorkerOk(s, s.workers[worker]);
  }

  lemma StoredState(s: State, worker: nat, write: Write)
    requires worker in s.workers && s.workers[worker].phase.Storing? && write != NotWritten
    requires Owns(s, s.workers[worker]) && SamePayload(s, s.workers[worker])
    ensures var w, s' := s.workers[worker], StorePart(s, worker, write);
            worker in s'.workers
            && s' == s.(jobs := s.jobs[w.job := Extended(s, w)], workers := s.workers[worker := s'.workers[worker]])
  {
  }


  /** The row with one more acknowledged id. */
  function Extended(s: State, w: Worker): Job
    requires w.job in s.jobs && w.phase.Storing?
  {
    s.jobs[w.job].(progress := Some(Progress(w.plan, Mids(w.progress) + [w.phase.mid])), lockedAt := Some(s.now), lastLock := s.now)
  }

  lemma StoredRow(s: State, worker: nat)
    requires Inv(s) && worker in s.workers && s.workers[worker].phase.Storing? && Owns(s, s.workers[worker])
    ensures var w := s.workers[worker];
            JobOk(Extended(s, w), s.now) && MidsAcked(s.log, w.job, Extended(s, w))
            && s.jobs[w.job].plan == w.plan && s.jobs[w.job].progress == w.progress && s.jobs[w.job].lastLock <= s.now
  {
    var w := s.workers[worker];
    OwnerIsLatest(s, worker);
    assert WorkerOk(s, w) && InHand(s.log, w) && JobOk(s.jobs[w.job], s.now) && MidsAcked(s.log, w.job, s.jobs[w.job]);
  }

  // ----- Ending an attempt --------------------------------------------------

  function Completed(s: State, w: Worker): Job
    requires w.job in s.jobs
  {
    s.jobs[w.job].(status := Sent, lockedAt := None, error := false)
  }

  lemma CompletedInv(s: State, worker: nat)
    requires Inv(s) && worker in s.workers && s.workers[worker].phase == Checking && Owns(s, s.workers[worker])
    requires s.workers[worker].sent >= |s.workers[worker].plan|
    ensures var w := s.workers[worker];
            Inv(s.(jobs := s.jobs[w.job := Completed(s, w)], workers := s.workers[worker := w.(phase := Failing(false))]))
  {
    var w := s.workers[worker];
    OwnerIsLatest(s, worker);
    assert WorkerOk(s, w) && JobOk(s.jobs[w.job], s.now) && MidsAcked(s.log, w.job, s.jobs[w.job]);
    WriteOwned(s, worker, Completed(s, w), w.(phase := Failing(false)));
  }

  lemma CompleteInv(s: State, worker: nat, write: Write)
    requires Inv(s)
    ensures Inv(CompleteJob(s, worker, write))
  {
    hide Inv;
    if worker in s.workers && s.workers[worker].phase == Checking && s.workers[worker].sent >= |s.workers[worker].plan| {
      PhaseInv(s, worker, Failing(true));
      PhaseInv(s, worker, Failing(false));
      var w := s.workers[worker];
      if write != NotWritten && Owns(s, w) {
        CompletedInv(s, worker);
        var unheard := s.(jobs := s.jobs[w.job := Completed(s, w)], workers := s.workers[worker := w.(phase := Failing(false))]);
        DropWorker(unheard, worker);
        assert Gone(unheard, worker) == Gone(s.(jobs := s.jobs[w.job := Completed(s, w)]), worker);
      }
    }
  }

  /** After the owner is gone its row may go anywhere a row may stand. */
  lemma LeaveRow(s: State, worker: nat, j: Job)
    requires Inv(s) && worker in s.workers && Owns(s, s.workers[worker])
    requires var before := s.jobs[s.workers[worker].job];
             && JobOk(j, s.now) && j.progress == before.progress && j.plan == before.plan
             && j.target == before.target && j.kind == before.kind
             && j.epoch == before.epoch && j.lastLock == before.lastLock && j.rated == before.rated
    ensures Inv(Gone(s.(jobs := s.jobs[s.workers[worker].job := j]), worker))
  {
    var id := s.workers[worker].job;
    var gone := Gone(s, worker);
    OwnerIsLatest(s, worker);
    DropWorker(s, worker);
    assert WorkerOk(s, s.workers[worker]) && MidsAcked(s.log, id, s.jobs[id]);
    forall v | v in gone.workers && gone.workers[v].job == id ensures WorkerOk(gone.(jobs := s.jobs[id := j]), gone.workers[v]) {
      OutdatedStays(gone, v, j);
    }
    SetJob(gone, id, j);
    assert Gone(s.(jobs := s.jobs[id := j]), worker) == gone.(jobs := s.jobs[id := j]);
  }

  lemma FailInv(s: State, worker: nat, photo: bool, delay: nat)
    requires Inv(s)
    ensures Inv(FailJob(s, worker, photo, delay))
  {
    DropWorker(s, worker);
    var s' := FailJob(s, worker, photo, delay);
    if s'.jobs != s.jobs {
      var w := s.workers[worker];
      assert JobOk(s.jobs[w.job], s.now) && WorkerOk(s, w);
      LeaveRow(s, worker, s'.jobs[w.job]);
    }
  }

  lemma DeferInv(s: State, worker: nat, until: int)
    requires Inv(s)
    ensures Inv(DeferJob(s, worker, until)) && Inv(CancelJob(s, worker))
  {
    DropWorker(s, worker);
    if worker in s.workers && s.workers[worker].phase == Checking && s.workers[worker].kind == Deadline && Owns(s, s.workers[worker]) {
      var w := s.workers[worker];
      assert JobOk(s.jobs[w.job], s.now) && WorkerOk(s, w);
      LeaveRow(s, worker, DeferJob(s, worker, until).jobs[w.job]);
      LeaveRow(s, worker, CancelJob(s, worker).jobs[w.job]);
    }
  }

  // ----- Staff and business steps -------------------------------------------

  lemma RestingRow(s: State, id: nat)
    requires Inv(s) && id in s.jobs && s.jobs[id].status != Sending && s.jobs[id].status != Sent
    ensures JobOk(s.jobs[id], s.now) && MidsAcked(s.log, id, s.jobs[id])
    ensures forall w :: w in s.workers && s.workers[w].job == id ==> s.workers[w].epoch < s.jobs[id].epoch
  {
    forall w | w in s.workers && s.workers[w].job == id ensures s.workers[w].epoch < s.jobs[id].epoch {
      assert WorkerOk(s, s.workers[w]);
    }
  }

  lemma SetRestingJob(s: State, id: nat, j: Job)
    requires Inv(s) && id in s.jobs && s.jobs[id].status != Sending && s.jobs[id].status != Sent
    requires var before := s.jobs[id];
             JobOk(j, s.now) && MidsAcked(s.log, id, j) && (before.rated ==> j.rated) && j.target == before.target
             && j.kind == before.kind && j.epoch == before.epoch && j.lastLock == before.lastLock
    ensures Inv(s.(jobs := s.jobs[id := j]))
  {
    RestingRow(s, id);
    forall w | w in s.workers && s.workers[w].job == id ensures WorkerOk(s.(jobs := s.jobs[id := j]), s.workers[w]) {
      assert WorkerOk(s, s.workers[w]);
      OutdatedStays(s, w, j);
    }
    if Posted(s, id) { PostedIsRated(s, id); }
    SetJob(s, id, j);
  }

  lemma RetryInv(s: State, id: nat, clearError: bool)
    requires Inv(s)
    ensures Inv(RetryJob(s, id, clearError)) && Inv(SupersedeJob(s, id))
  {
    if id in s.jobs && s.jobs[id].status == Failed {
      RestingRow(s, id);
      SetRestingJob(s, id, RetryJob(s, id, clearError).jobs[id]);
      SetRestingJob(s, id, SupersedeJob(s, id).jobs[id]);
    }
  }

  lemma ReleaseInv(s: State, id: nat, plan: seq<nat>)
    requires Inv(s)
    ensures Inv(ReleaseInvitation(s, id, plan))
  {
    if ReleaseInvitation(s, id, plan) != s {
      assert JobOk(s.jobs[id], s.now);
      RestingRow(s, id);
      SetRestingJob(s, id, ReleaseInvitation(s, id, plan).jobs[id]);
    }
  }

  lemma EnqueueInv(s: State, key: Option<nat>, target: nat, kind: Kind, plan: seq<nat>, rated: bool)
    requires Inv(s)
    ensures Inv(EnqueueJob(s, key, target, kind, plan, rated))
  {
    if plan != [] && !Keyed(s, key) {
      var s' := EnqueueJob(s, key, target, kind, plan, rated);
      forall i | 0 <= i < |s'.log| ensures Placed(s', i) { assert Placed(s, i); }
      forall w | w in s'.workers ensures WorkerOk(s', s'.workers[w]) && InHand(s'.log, s'.workers[w]) {
        assert WorkerOk(s, s.workers[w]) && InHand(s.log, s.workers[w]);
      }
    }
  }

  lemma TickInv(s: State, ms: nat)
    requires Inv(s)
    ensures Inv(s.(now := s.now + ms))
  {
    var s' := s.(now := s.now + ms);
    forall i | 0 <= i < |s'.log| ensures Placed(s', i) { assert Placed(s, i); }
    forall w | w in s'.workers ensures WorkerOk(s', s'.workers[w]) && InHand(s'.log, s'.workers[w]) {
      assert WorkerOk(s, s.workers[w]) && InHand(s.log, s.workers[w]);
    }
  }

  lemma DeleteInv(s: State, id: nat)
    requires Inv(s)
    ensures Inv(s.(jobs := s.jobs - {id}))
  {
    var s' := s.(jobs := s.jobs - {id});
    forall i | 0 <= i < |s'.log| ensures Placed(s', i) { assert Placed(s, i); }
    forall w | w in s'.workers ensures WorkerOk(s', s'.workers[w]) && InHand(s'.log, s'.workers[w]) {
      assert WorkerOk(s, s.workers[w]) && InHand(s.log, s.workers[w]);
    }
  }

  // ----- Every run ----------------------------------------------------------

  lemma NextInv(s: State, e: Event)
    requires Inv(s)
    ensures Inv(Next(s, e))
  {
    hide Inv, EnqueueJob, ClaimJob, PrepareJob, CheckLease, Accept, StorePart, CompleteJob, FailJob, DeferJob, CancelJob;
    hide RetryJob, ReleaseInvitation, SupersedeJob, Gone;
    match e {
      case Tick(ms) => TickInv(s, ms);
      case Enqueue(key, target, kind, plan, rated) => EnqueueInv(s, key, target, kind, plan, rated);
      case Claim(worker, process, job, verdict) => ClaimInv(s, worker, process, job, verdict);
      case Prepare(worker, current, upgrade) => PrepareInv(s, worker, current, upgrade);
      case Check(worker, current) => CheckInv(s, worker, current);
      case Accepted(worker, mid, reply) => AcceptInv(s, worker, mid, reply);
      case Rejected(worker) =>
        if worker in s.workers && s.workers[worker].phase == Posting { PhaseInv(s, worker, Failing(false)); }
      case Store(worker, write) => StoreInv(s, worker, write);
      case Complete(worker, write) => CompleteInv(s, worker, write);
      case Fail(worker, photo, delay) => FailInv(s, worker, photo, delay);
      case Defer(worker, until) => DeferInv(s, worker, until);
      case Cancel(worker) => DeferInv(s, worker, 0);
      case Crash(worker) => DropWorker(s, worker);
      case Retry(job, clearError) => RetryInv(s, job, clearError);
      case Release(job, plan) => ReleaseInv(s, job, plan);
      case Supersede(job) => RetryInv(s, job, false);
      case Delete(job) => DeleteInv(s, job);
    }
  }

  lemma {:induction false} RunInv(events: seq<Event>)
    ensures Inv(Run(Start, events))
  {
    if events != [] {
      RunInv(events[..|events| - 1]);
      NextInv(Run(Start, events[..|events| - 1]), events[|events| - 1]);
    }
  }
}
