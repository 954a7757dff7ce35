/** When the text of a queued answer may still be upgraded (`prepareRequesterSignature`,
  * src/max/max-message.service.ts:209-240): meant only for answers MAX has never seen. */
module OutboxSignature {
  import opened Outbox
  import opened OutboxInvariant
  import opened OutboxGuarantees
  import opened OutboxOneProcess
  import opened Wrappers

  /** The row shows that a part may have reached MAX. */
  predicate Touched(s: State, id: nat)
    requires id in s.jobs
  {
    var j := s.jobs[id];
    j.error || j.progress.Some?
    || (j.status == Sending
        && (j.attempts >= 2 || forall w :: w in s.workers && s.workers[w].job == id ==> s.workers[w].phase != Preparing))
  }

  predicate PostShows(s: State, i: nat)
    requires i < |s.log|
  {
    var id := s.log[i].job;
    id in s.jobs && s.jobs[id].kind == Message ==> Touched(s, id)
  }

  predicate PostsShow(s: State) { forall i :: 0 <= i < |s.log| ==> PostShows(s, i) }

  /** The failing branch: /delivery_retry clears the error of a job that MAX accepted a part of and that has
    * no stored progress, and with it the only evidence of that attempt. */
  predicate ErasesEvidence(s: State, e: Event) {
    e.Retry? && e.clearError && e.job in s.jobs && s.jobs[e.job].status == Failed && s.jobs[e.job].kind == Message
    && s.jobs[e.job].progress.None? && Posted(s, e.job)
  }

  predicate EvidenceKept(events: seq<Event>) {
    forall n :: 0 <= n < |events| ==> !ErasesEvidence(Run(Start, events[..n]), events[n])
  }

  // ----- Evidence survives every other step ---------------------------------

  lemma AcceptShows(s: State, worker: nat, mid: nat, reply: Reply)
    requires Inv(s) && Solo(s) && PostsShow(s)
    ensures PostsShow(Accept(s, worker, mid, reply))
  {
    var s' := Accept(s, worker, mid, reply);
    if s' != s {
      var w := s.workers[worker];
      assert WorkerOk(s, w);
      forall v | v in s'.workers && s'.workers[v].job == w.job && w.job in s.jobs ensures v == worker {
        assert WorkerOk(s, s.workers[v]) && SameTarget(s, v, worker);
      }
      forall i | 0 <= i < |s'.log| ensures PostShows(s', i) { if i < |s.log| { assert PostShows(s, i); } }
    }
  }

  /** A claim of a touched message starts an attempt after the first, or leaves its evidence in the row. */
  lemma ClaimedIsTouched(s: State, worker: nat, process: nat, id: nat, verdict: Verdict)
    requires Inv(s) && id in s.jobs && s.jobs[id].kind == Message && Touched(s, id)
    requires ClaimJob(s, worker, process, id, verdict) != s
    ensures Touched(ClaimJob(s, worker, process, id, verdict), id)
  {
    hide WorkersOk, Distinct, AllPlaced, MidsAcked, Busy, HasPredecessor;
    assert JobOk(s.jobs[id], s.now);
  }

  lemma OtherStaysTouched(s: State, s': State, worker: nat, id: nat, other: nat)
    requires other in s.jobs && other != id && other in s'.jobs && s'.jobs[other] == s.jobs[other] && Touched(s, other)
    requires forall w :: w in s'.workers && s'.workers[w].job == other ==> w in s.workers && s'.workers[w] == s.workers[w]
    ensures Touched(s', other)
  {
  }

  lemma ClaimShows(s: State, worker: nat, process: nat, id: nat, verdict: Verdict)
    requires Inv(s) && PostsShow(s)
    ensures PostsShow(ClaimJob(s, worker, process, id, verdict))
  {
    hide Inv, Busy, HasPredecessor, Claimable, Touched;
    var s' := ClaimJob(s, worker, process, id, verdict);
    if s' != s {
      forall i | 0 <= i < |s'.log| ensures PostShows(s', i) {
        assert PostShows(s, i);
        if s.log[i].job !in s.jobs || s.jobs[s.log[i].job].kind != Message {}
        else if s.log[i].job == id { ClaimedIsTouched(s, worker, process, id, verdict); }
        else { OtherStaysTouched(s, s', worker, id, s.log[i].job); }
      }
    }
  }

  lemma PrepareShows(s: State, worker: nat, current: bool, upgrade: Option<seq<nat>>)
    requires PostsShow(s)
    ensures PostsShow(PrepareJob(s, worker, current, upgrade))
  {
    var s' := PrepareJob(s, worker, current, upgrade);
    forall i | 0 <= i < |s'.log| ensures PostShows(s', i) { assert PostShows(s, i); }
  }

  lemma OtherSendingShows(s: State, e: Event)
    requires PostsShow(s) && (e.Check? || e.Rejected? || e.Store?)
    ensures PostsShow(Next(s, e))
  {
    forall i | 0 <= i < |Next(s, e).log| ensures PostShows(Next(s, e), i) { assert PostShows(s, i); }
  }

  lemma CompletionStaysTouched(s: State, worker: nat, write: Write, id: nat)
    requires Inv(s) && id in s.jobs && s.jobs[id].kind == Message && Touched(s, id)
    ensures var s' := CompleteJob(s, worker, write); id in s'.jobs && Touched(s', id)
  {
    hide WorkersOk, Distinct, AllPlaced, MidsAcked;
    if CompleteJob(s, worker, write).jobs != s.jobs {
      CompleteInv(s, worker, write);
      assert JobOk(CompleteJob(s, worker, write).jobs[id], s.now);
    }
  }

  lemma CompleteShows(s: State, worker: nat, write: Write)
    requires Inv(s) && PostsShow(s)
    ensures PostsShow(CompleteJob(s, worker, write))
  {
    hide Inv, JobOk, Touched;
    var s' := CompleteJob(s, worker, write);
    forall i | 0 <= i < |s'.log| ensures PostShows(s', i) {
      assert PostShows(s, i);
      if s.log[i].job in s.jobs && s.jobs[s.log[i].job].kind == Message { CompletionStaysTouched(s, worker, write, s.log[i].job); }
    }
  }

  lemma EndingShows(s: State, e: Event)
    requires PostsShow(s) && (e.Fail? || e.Crash?)
    ensures PostsShow(Next(s, e))
  {
    forall i | 0 <= i < |Next(s, e).log| ensures PostShows(Next(s, e), i) { assert PostShows(s, i); }
  }

  lemma DeadlineShows(s: State, e: Event)
    requires Inv(s) && PostsShow(s) && (e.Defer? || e.Cancel?)
    ensures PostsShow(Next(s, e))
  {
    if e.worker in s.workers { assert WorkerOk(s, s.workers[e.worker]); }
    forall i | 0 <= i < |Next(s, e).log| ensures PostShows(Next(s, e), i) { assert PostShows(s, i); }
  }

  lemma RowStepShows(s: State, e: Event)
    requires Inv(s) && PostsShow(s) && RowEvent(e) && !ErasesEvidence(s, e)
    ensures PostsShow(Next(s, e))
  {
    forall i | 0 <= i < |Next(s, e).log| ensures PostShows(Next(s, e), i) { assert PostShows(s, i) && Placed(s, i); }
  }

  lemma NextShows(s: State, e: Event)
    requires Inv(s) && Solo(s) && PostsShow(s) && !ErasesEvidence(s, e)
    ensures PostsShow(Next(s, e))
  {
    hide Inv, Solo, PostsShow;
    match e {
      case Claim(worker, process, id, verdict) => ClaimShows(s, worker, process, id, verdict);
      case Prepare(worker, current, upgrade) => PrepareShows(s, worker, current, upgrade);
      case Accepted(worker, mid, reply) => AcceptShows(s, worker, mid, reply);
      case Complete(worker, write) => CompleteShows(s, worker, write);
      case Defer(_, _) => DeadlineShows(s, e);
      case Cancel(_) => DeadlineShows(s, e);
      case Fail(_, _, _) => EndingShows(s, e);
      case Crash(_) => EndingShows(s, e);
      case Check(_, _) => OtherSendingShows(s, e);
      case Rejected(_) => OtherSendingShows(s, e);
      case Store(_, _) => OtherSendingShows(s, e);
      case _ => RowStepShows(s, e);
    }
  }

  lemma {:induction false} RunShows(events: seq<Event>)
    requires OneProcess(events) && EvidenceKept(events)
    ensures PostsShow(Run(Start, events))
  {
    if events != [] {
      var front := events[..|events| - 1];
      forall i | 0 <= i < |front| && front[i].Claim? ensures front[i].process == 0 { assert front[i] == events[i]; }
      forall n | 0 <= n < |front| ensures !ErasesEvidence(Run(Start, front[..n]), front[n]) {
        assert front[..n] == events[..n] && front[n] == events[n];
      }
      RunShows(front);
      RunInv(front);
      RunIsSolo(front);
      NextShows(Run(Start, front), events[|events| - 1]);
    }
  }

  lemma PostedIsTouched(s: State, id: nat)
    requires PostsShow(s) && Posted(s, id) && id in s.jobs && s.jobs[id].kind == Message
    ensures Touched(s, id)
  {
    var i :| 0 <= i < |s.log| && s.log[i].job == id;
    assert PostShows(s, i);
  }

  // ----- The promise and its limit ------------------------------------------

  /** In one process, as long as no /delivery_retry erases evidence, a text is only upgraded when MAX never
    * accepted any part of that answer. */
  lemma UpgradesAreUntouched(events: seq<Event>, worker: nat, current: bool, upgrade: Option<seq<nat>>, id: nat)
    requires OneProcess(events) && EvidenceKept(events)
    requires var s := Run(Start, events);
             id in s.jobs && Next(s, Prepare(worker, current, upgrade)).jobs[id].plan != s.jobs[id].plan
    ensures !Posted(Run(Start, events), id)
  {
    var s := Run(Start, events);
    RunShows(events);
    RunInv(events);
    OwnerIsLatest(s, worker);
    assert WorkerOk(s, s.workers[worker]) && JobOk(s.jobs[id], s.now);
    hide PostsShow;
    if Posted(s, id) { PostedIsTouched(s, id); }
  }

  /** What whoever issues /delivery_retry can see: the FAILED message it clears has stored progress. */
  predicate ClearsOnlyProgress(s: State, e: Event) {
    e.Retry? && e.clearError && e.job in s.jobs && s.jobs[e.job].status == Failed && s.jobs[e.job].kind == Message ==>
      s.jobs[e.job].progress.Some?
  }

  predicate CheckedRetries(events: seq<Event>) {
    forall n :: 0 <= n < |events| ==> ClearsOnlyProgress(Run(Start, events[..n]), events[n])
  }

  lemma CheckedIsKept(s: State, e: Event)
    requires ClearsOnlyProgress(s, e)
    ensures !ErasesEvidence(s, e)
  {
  }

  /** So it is enough never to use /delivery_retry on a failed message without stored progress: then no text that
    * MAX accepted a part of is ever replaced. */
  lemma CheckedRetriesKeepTexts(events: seq<Event>, worker: nat, current: bool, upgrade: Option<seq<nat>>, id: nat)
    requires OneProcess(events) && CheckedRetries(events)
    requires var s := Run(Start, events); id in s.jobs && Posted(s, id)
    ensures var s := Run(Start, events);
            var s' := Next(s, Prepare(worker, current, upgrade));
            id in s'.jobs && s'.jobs[id].plan == s.jobs[id].plan
  {
    hide Inv, Posted, OneProcess, ErasesEvidence, ClearsOnlyProgress;
    forall n | 0 <= n < |events| ensures !ErasesEvidence(Run(Start, events[..n]), events[n]) {
      assert ClearsOnlyProgress(Run(Start, events[..n]), events[n]);
      CheckedIsKept(Run(Start, events[..n]), events[n]);
    }
    if Next(Run(Start, events), Prepare(worker, current, upgrade)).jobs[id].plan != Run(Start, events).jobs[id].plan {
      UpgradesAreUntouched(events, worker, current, upgrade, id);
    }
  }

  /** A first attempt that shows no trace of an earlier one takes the new plan. */
  lemma FirstAttemptUpgrades(s: State, worker: nat, id: nat, process: nat, plan: seq<nat>)
    requires plan != [] && worker in s.workers && id in s.jobs && s.jobs[id].kind == Message
    requires s.jobs[id].status == Sending && s.jobs[id].lockedAt.Some? && s.jobs[id].attempts == 1
    requires !s.jobs[id].error && s.jobs[id].progress.None? && !s.jobs[id].superseded
    requires s.workers[worker] == NewWorker(s.jobs[id], id, process)
    ensures var s' := Next(s, Prepare(worker, true, Some(plan))); id in s'.jobs && s'.jobs[id].plan == plan && s'.log == s.log
  {
  }

  lemma StillPosted(s: State, s': State, id: nat)
    requires Posted(s, id) && s'.log == s.log
    ensures Posted(s', id)
  {
  }

  /** The condition cannot be dropped: after any /delivery_retry that erases evidence, the very next claim
    * lets the text be replaced by any other. */
  lemma ErasedEvidenceAllowsUpgrade(s: State, worker: nat, process: nat, id: nat, plan: seq<nat>)
    requires Inv(s) && ErasesEvidence(s, Retry(id, true)) && !s.jobs[id].superseded && plan != []
    requires var retried := Next(s, Retry(id, true)); Next(retried, Claim(worker, process, id, Proceed)) != retried
    ensures var claimed := Next(Next(s, Retry(id, true)), Claim(worker, process, id, Proceed));
            var upgraded := Next(claimed, Prepare(worker, true, Some(plan)));
            Posted(upgraded, id) && id in upgraded.jobs && upgraded.jobs[id].plan == plan
  {
    hide JobsOk, WorkersOk, Distinct, AllPlaced, MayClaim, PrepareJob;
    var retried := Next(s, Retry(id, true));
    var claimed := Next(retried, Claim(worker, process, id, Proceed));
    RowIsOk(s, id);
    assert worker in claimed.workers && claimed.workers[worker] == NewWorker(claimed.jobs[id], id, process);
    FirstAttemptUpgrades(claimed, worker, id, process, plan);
    StillPosted(s, Next(claimed, Prepare(worker, true, Some(plan))), id);
  }

  /** MAX accepted the only part, its reply was lost, and the attempt failed. */
  lemma AcceptedAndFailed() returns (s: State)
    ensures Reachable(s) && s.now == 0 && s.next == 1 && s.workers == map[] && s.log == [Post(0, 0, 1, 7, 99, false, 0)]
    ensures s.jobs == map[0 := Held(Message, Posting).jobs[0].(status := Pending, lockedAt := None, error := true, nextAt := 30_000)]
  {
    hide Reachable, Next;
    AboutToPost(Message);
    OneMore(Held(Message, Posting), Accepted(0, 99, LostAndRaised));
    ReplyIsLost(Message);
    OneMore(LostReply(Message), Fail(0, false, 30_000));
    LostIsFailed(Message);
    s := Next(LostReply(Message), Fail(0, false, 30_000));
  }

  /** The row of the message between its two attempts. */
  const Waiting: Job := Held(Message, Posting).jobs[0].(status := Pending, lockedAt := None, error := true, nextAt := 30_000)

  function Retaken(phase: Phase): State {
    var job := Waiting.(status := Sending, lockedAt := Some(30_000), attempts := 2, epoch := 2, lastLock := 30_000);
    State(30_000, 1, map[0 := job], map[1 := Taken(0, 0, Message, 1, 2, 30_000, phase).(error := true)], [Post(0, 0, 1, 7, 99, false, 0)])
  }

  lemma RetakenByClaim(s: State)
    requires s == State(0, 1, map[0 := Waiting], map[], [Post(0, 0, 1, 7, 99, false, 0)])
    ensures Next(Next(s, Tick(30_000)), Claim(1, 0, 0, Proceed)) == Retaken(Preparing)
  {
    var later := Next(s, Tick(30_000));
    assert !HasPredecessor(later, 0) && !Busy(later, 0, 7);
  }

  lemma RetakenPosts()
    ensures Next(Retaken(Preparing), Prepare(1, true, None)) == Retaken(Checking)
    ensures Next(Retaken(Checking), Check(1, true)) == Retaken(Posting)
  {
  }

  lemma SecondAttempt()
    ensures Reachable(Retaken(Posting))
  {
    hide Reachable, Next, Retaken;
    var s := AcceptedAndFailed();
    OneMore(s, Tick(30_000));
    OneMore(Next(s, Tick(30_000)), Claim(1, 0, 0, Proceed));
    RetakenByClaim(s);
    RetakenPosts();
    OneMore(Retaken(Preparing), Prepare(1, true, None));
    OneMore(Retaken(Checking), Check(1, true));
  }

  /** ... and the second attempt finds that MAX no longer has the photo. */
  lemma FailedForGood() returns (s: State)
    ensures Reachable(s) && s.workers == map[] && s.log == [Post(0, 0, 1, 7, 99, false, 0)] && s.jobs.Keys == {0}
    ensures s.jobs[0].kind == Message && s.jobs[0].status == Failed && s.jobs[0].progress.None? && !s.jobs[0].superseded
    ensures s.jobs[0].target == 7
  {
    hide Reachable;
    SecondAttempt();
    OneMore(Retaken(Posting), Rejected(1));
    assert Next(Retaken(Posting), Rejected(1)) == Retaken(Failing(false));
    OneMore(Retaken(Failing(false)), Fail(1, true, 0));
    s := Next(Retaken(Failing(false)), Fail(1, true, 0));
  }

  /** The run: MAX accepts the only part, the reply is lost, the second attempt fails for good, and /delivery_retry
    * clears the error. The next claim may then replace the text that was accepted. */
  lemma AcceptedTextIsReplaced(plan: seq<nat>) returns (s: State)
    requires plan != []
    ensures Reachable(s) && |s.log| == 1 && s.log[0].job == 0 && s.log[0].text == 1
    ensures ErasesEvidence(s, Retry(0, true)) && !ClearsOnlyProgress(s, Retry(0, true))
    ensures var claimed := Next(Next(s, Retry(0, true)), Claim(1, 0, 0, Proceed));
            var upgraded := Next(claimed, Prepare(1, true, Some(plan)));
            Posted(upgraded, 0) && 0 in upgraded.jobs && upgraded.jobs[0].plan == plan
  {
    hide Reachable, Posted, Inv, PrepareJob;
    s := FailedForGood();
    FirstPosted(s, 0);
    RetriedIsClaimed(s);
    ReachableInv(s);
    ErasedEvidenceAllowsUpgrade(s, 1, 0, 0, plan);
  }

  lemma RetriedIsClaimed(s: State)
    requires s.workers == map[] && s.jobs.Keys == {0} && s.jobs[0].status == Failed && !s.jobs[0].superseded && s.jobs[0].kind == Message
    ensures var retried := Next(s, Retry(0, true)); Next(retried, Claim(1, 0, 0, Proceed)) != retried
  {
    var retried := Next(s, Retry(0, true));
    assert !HasPredecessor(retried, 0) && !Busy(retried, 0, s.jobs[0].target);
    assert 1 in Next(retried, Claim(1, 0, 0, Proceed)).workers;
  }

  lemma FirstPosted(s: State, id: nat)
    requires |s.log| > 0 && s.log[0].job == id
    ensures Posted(s, id)
  {
  }
}
