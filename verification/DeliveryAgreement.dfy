/** The outbox's side of a delivery, and what every joint run of both sides promises. */
module DeliveryAgreement {
  import opened Incident
  import opened IncidentInvariants
  import opened Workflow
  import opened WorkflowSafety
  import opened WorkflowGuarantees
  import opened DeliveryLink
  import opened Wrappers
  import WorkflowLaws
  import O = Outbox
  import OI = OutboxInvariant
  import OG = OutboxGuarantees

  // ----- Steps of the outbox ------------------------------------------------

  lemma LogGrows(s: O.State, b: O.Event)
    ensures s.log <= O.Next(s, b).log
  {
    hide O.MayClaim, O.Owns, O.SamePayload, O.Settled;
  }

  lemma WholeStays(log: seq<O.Post>, log': seq<O.Post>, job: nat, target: nat)
    requires log <= log' && WholeSent(log, job, target)
    ensures WholeSent(log', job, target)
  {
    var plan: seq<nat>, mids: seq<nat> :| plan != [] && AllAcked(log, job, plan, mids, target);
    var more := log'[|log|..];
    assert log' == log + more;
    forall k | 0 <= k < |plan| ensures O.AckedPart(log', job, k, plan[k], target, mids[k]) {
      OI.AckedStays(log, more, job, k, plan[k], target, mids[k]);
    }
    assert AllAcked(log', job, plan, mids, target);
  }

  /** The row of the delivery as far as the workflow sees it. */
  predicate SameRow(l: Link, s: O.State, s': O.State) {
    && (l.job in s.jobs <==> l.job in s'.jobs) && s.next <= s'.next
    && (l.job in s.jobs && l.job in s'.jobs ==>
          var j, j' := s.jobs[l.job], s'.jobs[l.job];
          j'.kind == j.kind && j'.target == j.target && j'.status == j.status && j'.attempts == j.attempts
          && j'.lockedAt == j.lockedAt && j'.superseded == j.superseded)
  }

  predicate RowIsMessage(l: Link, s: O.State) { l.job in s.jobs ==> s.jobs[l.job].kind == O.Message }

  lemma UnprojectedSending(l: Link, s: O.State, b: O.Event)
    requires b.Claim? || b.Prepare? || b.Check? || b.Accepted? || b.Rejected? || b.Store? || b.Crash?
    requires O.Inv(s) && Projection(l, s, b) == []
    ensures SameRow(l, s, O.Next(s, b))
  {
    hide O.Inv, O.MayClaim, O.Settled;
  }

  lemma UnprojectedEnding(l: Link, s: O.State, b: O.Event)
    requires (b.Complete? || b.Fail?) && Projection(l, s, b) == []
    ensures SameRow(l, s, O.Next(s, b))
  {
  }

  lemma UnprojectedDeadline(l: Link, s: O.State, b: O.Event)
    requires (b.Defer? || b.Cancel?) && O.Inv(s) && RowIsMessage(l, s)
    ensures SameRow(l, s, O.Next(s, b))
  {
    if b.worker in s.workers { assert O.WorkerOk(s, s.workers[b.worker]); }
    hide O.Inv;
  }

  lemma UnprojectedOutside(l: Link, s: O.State, b: O.Event)
    requires b.Enqueue? || b.Retry? || b.Release? || b.Supersede? || b.Delete?
    requires l.job < s.next && BoxMay(l, b)
    ensures SameRow(l, s, O.Next(s, b))
  {
  }

  lemma BoxKeepsClock(s: O.State, b: O.Event)
    ensures O.Next(s, b).now == if b.Tick? then s.now + b.ms else s.now
  {
    hide O.MayClaim, O.Owns, O.SamePayload, O.Settled;
  }

  lemma Unprojected(l: Link, s: O.State, b: O.Event)
    requires !b.Tick? && BoxMay(l, b) && O.Inv(s) && RowIsMessage(l, s) && l.job < s.next && Projection(l, s, b) == []
    ensures SameRow(l, s, O.Next(s, b)) && O.Next(s, b).now == s.now
  {
    hide O.Inv, O.Next, SameRow, RowIsMessage, BoxMay, Projection;
    BoxKeepsClock(s, b);
    match b {
      case Enqueue(_, _, _, _, _) => UnprojectedOutside(l, s, b);
      case Retry(_, _) => UnprojectedOutside(l, s, b);
      case Release(_, _) => UnprojectedOutside(l, s, b);
      case Supersede(_) => UnprojectedOutside(l, s, b);
      case Delete(_) => UnprojectedOutside(l, s, b);
      case Complete(_, _) => UnprojectedEnding(l, s, b);
      case Fail(_, _, _) => UnprojectedEnding(l, s, b);
      case Defer(_, _) => UnprojectedDeadline(l, s, b);
      case Cancel(_) => UnprojectedDeadline(l, s, b);
      case Tick(_) =>
      case _ => UnprojectedSending(l, s, b);
    }
  }

  // ----- The job of an attempt ----------------------------------------------

  /** Only the job of the delivery changed, and nothing was delivered. */
  predicate OnlyJob(l: Link, c: Case, c': Case) {
    l.Key() in c'.jobs && c'.answers == c.answers && c'.requester == c.requester
  }

  lemma ClaimIsProjected(l: Link, c: Case, s: O.State, worker: nat, process: nat, verdict: O.Verdict)
    requires worker !in s.workers && O.MayClaim(s, process, l.job) && l.Key() in c.jobs && Matches(s.jobs[l.job], c.jobs[l.Key()])
    requires verdict != O.Refuse || s.jobs[l.job].superseded
    ensures var step := ClaimJob(c, l.Key(), s.now); var s' := O.Next(s, O.Claim(worker, process, l.job, verdict));
            && step.Done? && OnlyJob(l, c, step.c) && l.job in s'.jobs && Matches(s'.jobs[l.job], step.c.jobs[l.Key()])
            && s'.next == s.next
  {
  }

  lemma RefusalIsProjected(l: Link, c: Case, s: O.State, worker: nat, process: nat)
    requires worker !in s.workers && O.MayClaim(s, process, l.job) && l.Key() in c.jobs && Matches(s.jobs[l.job], c.jobs[l.Key()])
    requires !s.jobs[l.job].superseded
    ensures var claimed := ClaimJob(c, l.Key(), s.now); var s' := O.Next(s, O.Claim(worker, process, l.job, O.Refuse));
            && claimed.Done? && OnlyJob(l, c, claimed.c)
            && var step := FailJob(claimed.c, l.Key(), s.jobs[l.job].attempts + 1, s.now, OtherError, true);
               && step.Done? && OnlyJob(l, c, step.c) && l.job in s'.jobs && Matches(s'.jobs[l.job], step.c.jobs[l.Key()])
               && s'.next == s.next
  {
  }

  lemma StoreIsProjected(l: Link, c: Case, s: O.State, worker: nat, write: Write)
    requires Works(l, s, worker) && s.workers[worker].phase.Storing? && write != NotWritten && O.SamePayload(s, s.workers[worker])
    requires l.Key() in c.jobs && Matches(s.jobs[l.job], c.jobs[l.Key()])
    ensures var step := RenewJob(c, l.Key(), s.workers[worker].attempts, s.workers[worker].lockedAt, s.now);
            var s' := O.Next(s, O.Store(worker, write));
            && step.Done? && OnlyJob(l, c, step.c) && l.job in s'.jobs && Matches(s'.jobs[l.job], step.c.jobs[l.Key()])
            && s'.next == s.next
  {
  }

  lemma FailureIsProjected(l: Link, c: Case, s: O.State, worker: nat, photo: bool, delay: nat)
    requires Works(l, s, worker) && s.workers[worker].phase.Failing? && O.WorkerOk(s, s.workers[worker])
    requires l.Key() in c.jobs && Matches(s.jobs[l.job], c.jobs[l.Key()])
    ensures var w := s.workers[worker];
            var step := FailJob(c, l.Key(), w.attempts, w.lockedAt, if photo then PhotoUnavailable else OtherError,
                                w.phase.stale || w.attempts >= O.MAX_ATTEMPTS);
            var s' := O.Next(s, O.Fail(worker, photo, delay));
            && step.Done? && OnlyJob(l, c, step.c) && l.job in s'.jobs && Matches(s'.jobs[l.job], step.c.jobs[l.Key()])
            && s'.next == s.next
  {
  }

  /** A message that is SENT was acknowledged part by part. */
  lemma SentIsWhole(l: Link, s: O.State)
    requires O.Inv(s) && l.job in s.jobs && s.jobs[l.job].status == O.Sent && s.jobs[l.job].kind == O.Message
    ensures WholeSent(s.log, l.job, s.jobs[l.job].target)
  {
    var j := s.jobs[l.job];
    assert O.JobOk(j, s.now) && O.MidsAcked(s.log, l.job, j);
    assert AllAcked(s.log, l.job, j.plan, O.Mids(j.progress), j.target);
  }

  /** The row after its completion is written. */
  lemma CompletedRow(l: Link, s: O.State, worker: nat, write: Write)
    requires Works(l, s, worker) && s.workers[worker].phase == O.Checking && s.workers[worker].sent >= |s.workers[worker].plan|
    requires write != NotWritten && s.jobs[l.job].kind == O.Message
    ensures var s' := O.Next(s, O.Complete(worker, write));
            && l.job in s'.jobs && s'.next == s.next
            && var j, j' := s.jobs[l.job], s'.jobs[l.job];
               j'.kind == j.kind && j'.target == j.target && j'.attempts == j.attempts && j'.superseded == j.superseded
               && j'.status == O.Sent && j'.lockedAt == None
  {
  }

  /** The answer's job after its completion, whatever became of the answer. */
  lemma CompletedJob(l: Link, c: Case, attempts: int, lockedAt: int, now: int)
    requires l.Key() in c.jobs && Incident.Owns(c.jobs[l.Key()], attempts, lockedAt) && Judged(c, l.answer)
    requires c.answers != [] ==> Latest(c.answers) == c.answers[|c.answers| - 1]
    ensures var step := CompleteJob(c, l.Key(), attempts, lockedAt, now);
            && step.Done? && l.Key() in step.c.jobs && Judged(step.c, l.answer) && step.c.requester == c.requester
            && var j, j' := c.jobs[l.Key()], step.c.jobs[l.Key()];
               j'.target == j.target && j'.attempts == j.attempts && j'.superseded == j.superseded
               && j'.status == Incident.Sent && j'.lockedAt == None
  {
    hide FinishAssignment, Latest, Judged;
    RowStays(c, CompleteJob(c, l.Key(), attempts, lockedAt, now).c, l.answer);
  }

  lemma CompletionIsProjected(l: Link, c: Case, s: O.State, worker: nat, write: Write)
    requires Works(l, s, worker) && s.workers[worker].phase == O.Checking && s.workers[worker].sent >= |s.workers[worker].plan|
    requires write != NotWritten && l.Key() in c.jobs && Matches(s.jobs[l.job], c.jobs[l.Key()]) && Judged(c, l.answer)
    requires AnswersInv(c)
    ensures var step := CompleteJob(c, l.Key(), s.workers[worker].attempts, s.workers[worker].lockedAt, s.now);
            var s' := O.Next(s, O.Complete(worker, write));
            && step.Done? && l.Key() in step.c.jobs && Judged(step.c, l.answer) && step.c.requester == c.requester
            && l.job in s'.jobs && Matches(s'.jobs[l.job], step.c.jobs[l.Key()]) && s'.jobs[l.job].status == O.Sent
            && User(s'.jobs[l.job].target) == c.jobs[l.Key()].target && s'.jobs[l.job].kind == O.Message
            && s'.next == s.next
  {
    hide CompleteJob, O.Next, AnswersInv, Judged;
    LatestInRows(c);
    CompletedRow(l, s, worker, write);
    CompletedJob(l, c, s.workers[worker].attempts, s.workers[worker].lockedAt, s.now);
  }

  // ----- Both sides together ------------------------------------------------

  lemma RunNone(w: World)
    ensures Run(w, []) == w
  {
  }

  lemma RunOne(w: World, e: Event)
    ensures Run(w, [e]) == Apply(w, e)
  {
    hide Apply;
    assert [e][..0] == [];
  }

  lemma RunTwo(w: World, a: Event, b: Event)
    ensures Run(w, [a] + [b]) == Apply(Apply(w, a), b)
  {
    hide Apply;
    assert ([a] + [b])[..1] == [a];
    RunOne(w, a);
  }

  /** One committed job transaction of the incident. */
  lemma Committed(w: World, e: Event, id: nat, c': Case)
    requires Subject(w, e) == Some(id) && id in w.cases && StepOf(w, e, id) == Done(c')
    ensures id in Run(w, [e]).cases && Run(w, [e]).cases[id] == c' && Run(w, [e]).now == w.now
  {
    hide StepOf, Apply;
    RunOne(w, e);
    OnlyItsIncident(w, e, id);
  }

  /** A changed job keeps the link when the rows match and what was delivered stays so. */
  lemma JobKeepsLink(l: Link, c: Case, c': Case, s: O.State, s': O.State)
    requires LinkOk(l, c, s) && s.log <= s'.log && s.next <= s'.next
    requires l.job in s'.jobs && l.Key() in c'.jobs && Matches(s'.jobs[l.job], c'.jobs[l.Key()]) && c'.requester == c.requester
    requires c'.answers == c.answers
    ensures LinkOk(l, c', s')
  {
    hide WholeSent, Judged;
    JudgedSame(c, c', l.answer);
    if DeliveredAs(c, l.answer) { WholeStays(s.log, s'.log, l.job, c.requester); }
  }

  lemma RowKeepsLink(l: Link, c: Case, s: O.State, s': O.State)
    requires LinkOk(l, c, s) && s.log <= s'.log && SameRow(l, s, s')
    ensures LinkOk(l, c, s')
  {
    hide WholeSent, Judged;
    if DeliveredAs(c, l.answer) { WholeStays(s.log, s'.log, l.job, c.requester); }
  }

  /** The case the projected transactions lead to. */
  ghost predicate LeadsTo(l: Link, x: Joint, b: O.Event) {
    var w := Run(x.w, Projection(l, x.s, b));
    l.incident in w.cases && w.now == O.Next(x.s, b).now && LinkOk(l, w.cases[l.incident], O.Next(x.s, b))
  }

  lemma IdleLeads(l: Link, x: Joint, b: O.Event)
    requires Linked(l, x) && BoxMay(l, b) && !b.Tick? && Projection(l, x.s, b) == []
    ensures LeadsTo(l, x, b)
  {
    hide O.Inv, O.Next, WorldInv, Projection, BoxMay, SameRow;
    RunNone(x.w);
    LogGrows(x.s, b);
    Unprojected(l, x.s, b) by { LinkIsMessage(l, x.w.cases[l.incident], x.s); }
    RowKeepsLink(l, x.w.cases[l.incident], x.s, O.Next(x.s, b));
  }

  lemma LinkIsMessage(l: Link, c: Case, s: O.State)
    requires LinkOk(l, c, s)
    ensures RowIsMessage(l, s) && l.job < s.next
  {
  }

  lemma TickLeads(l: Link, x: Joint, ms: nat)
    requires Linked(l, x)
    ensures LeadsTo(l, x, O.Tick(ms))
  {
    hide O.Inv, WorldInv, WholeSent, Judged;
    RunOne(x.w, Workflow.Tick(ms));
  }

  lemma RefusalLeads(l: Link, x: Joint, worker: nat, process: nat)
    requires Linked(l, x) && worker !in x.s.workers && l.job in x.s.jobs && O.MayClaim(x.s, process, l.job) && !x.s.jobs[l.job].superseded
    ensures LeadsTo(l, x, O.Claim(worker, process, l.job, O.Refuse))
  {
    hide O.Inv, O.Next, O.MayClaim, WorldInv, ClaimJob, FailJob, Run, Judged, WholeSent, Matches;
    var c, b := x.w.cases[l.incident], O.Claim(worker, process, l.job, O.Refuse);
    LogGrows(x.s, b);
    BoxKeepsClock(x.s, b);
    RefusalIsProjected(l, c, x.s, worker, process);
    var claim := JobClaimed(l.incident, l.Key());
    var failure := JobFailed(l.incident, l.Key(), x.s.jobs[l.job].attempts + 1, x.s.now, OtherError, true);
    var claimed := ClaimJob(c, l.Key(), x.s.now).c;
    var failed := FailJob(claimed, l.Key(), x.s.jobs[l.job].attempts + 1, x.s.now, OtherError, true).c;
    Committed(x.w, claim, l.incident, claimed);
    RunOne(x.w, claim);
    Committed(Run(x.w, [claim]), failure, l.incident, failed);
    RunOne(Run(x.w, [claim]), failure);
    RunTwo(x.w, claim, failure);
    JobKeepsLink(l, c, failed, x.s, O.Next(x.s, b));
  }

  lemma ClaimLeads(l: Link, x: Joint, worker: nat, process: nat, verdict: O.Verdict)
    requires Linked(l, x) && worker !in x.s.workers && l.job in x.s.jobs && O.MayClaim(x.s, process, l.job)
    requires verdict != O.Refuse || x.s.jobs[l.job].superseded
    ensures LeadsTo(l, x, O.Claim(worker, process, l.job, verdict))
  {
    hide O.Inv, O.Next, O.MayClaim, WorldInv, ClaimJob, Run, Judged, WholeSent, Matches;
    var c, b := x.w.cases[l.incident], O.Claim(worker, process, l.job, verdict);
    LogGrows(x.s, b);
    BoxKeepsClock(x.s, b);
    ClaimIsProjected(l, c, x.s, worker, process, verdict);
    Committed(x.w, JobClaimed(l.incident, l.Key()), l.incident, ClaimJob(c, l.Key(), x.s.now).c);
    assert Projection(l, x.s, b) == [JobClaimed(l.incident, l.Key())];
    JobKeepsLink(l, c, ClaimJob(c, l.Key(), x.s.now).c, x.s, O.Next(x.s, b));
  }

  lemma StoreLeads(l: Link, x: Joint, worker: nat, write: Write)
    requires Linked(l, x) && Projection(l, x.s, O.Store(worker, write)) != []
    ensures LeadsTo(l, x, O.Store(worker, write))
  {
    hide O.Inv, O.Next, WorldInv, RenewJob, Run, Judged, WholeSent, Matches;
    var c, b, w := x.w.cases[l.incident], O.Store(worker, write), x.s.workers[worker];
    LogGrows(x.s, b);
    BoxKeepsClock(x.s, b);
    StoreIsProjected(l, c, x.s, worker, write);
    var c' := RenewJob(c, l.Key(), w.attempts, w.lockedAt, x.s.now).c;
    Committed(x.w, JobRenewed(l.incident, l.Key(), w.attempts, w.lockedAt), l.incident, c');
    JobKeepsLink(l, c, c', x.s, O.Next(x.s, b));
  }

  lemma WorkerIsOk(s: O.State, worker: nat)
    requires O.Inv(s) && worker in s.workers
    ensures O.WorkerOk(s, s.workers[worker])
  {
  }

  lemma FailLeads(l: Link, x: Joint, worker: nat, photo: bool, delay: nat)
    requires Linked(l, x) && Projection(l, x.s, O.Fail(worker, photo, delay)) != []
    ensures LeadsTo(l, x, O.Fail(worker, photo, delay))
  {
    hide O.Inv, O.WorkerOk, O.Next, WorldInv, FailJob, Run, Judged, WholeSent, Matches;
    var c, b, w := x.w.cases[l.incident], O.Fail(worker, photo, delay), x.s.workers[worker];
    WorkerIsOk(x.s, worker);
    LogGrows(x.s, b);
    BoxKeepsClock(x.s, b);
    FailureIsProjected(l, c, x.s, worker, photo, delay);
    var error := if photo then PhotoUnavailable else OtherError;
    var terminal := w.phase.stale || w.attempts >= O.MAX_ATTEMPTS;
    var c' := FailJob(c, l.Key(), w.attempts, w.lockedAt, error, terminal).c;
    Committed(x.w, JobFailed(l.incident, l.Key(), w.attempts, w.lockedAt, error, terminal), l.incident, c');
    JobKeepsLink(l, c, c', x.s, O.Next(x.s, b));
  }

  lemma CompleteLeads(l: Link, x: Joint, worker: nat, write: Write)
    requires Linked(l, x) && Projection(l, x.s, O.Complete(worker, write)) != []
    ensures LeadsTo(l, x, O.Complete(worker, write))
  {
    hide O.Inv, O.Next, WorldInv, CompleteJob, Run, Judged, WholeSent, AnswersInv, Inv;
    var c, b, w := x.w.cases[l.incident], O.Complete(worker, write), x.s.workers[worker];
    BoxKeepsClock(x.s, b);
    CaseHasAnswers(x.w, l.incident);
    CompletionIsProjected(l, c, x.s, worker, write);
    var c' := CompleteJob(c, l.Key(), w.attempts, w.lockedAt, x.s.now).c;
    Committed(x.w, JobCompleted(l.incident, l.Key(), w.attempts, w.lockedAt), l.incident, c');
    OI.NextInv(x.s, b);
    SentIsWhole(l, O.Next(x.s, b));
    TargetIsRequester(c, x.w.now, l.Key());
  }

  lemma TargetIsRequester(c: Case, now: int, key: JobKey)
    requires Inv(c, now) && key in c.jobs && key.AnswerJob?
    ensures c.jobs[key].target == User(c.requester)
  {
    assert IncidentInvariants.JobOk(c.answers, c.requester, key, c.jobs[key]);
  }

  lemma BoxKeepsLink(l: Link, x: Joint, b: O.Event)
    requires Linked(l, x) && BoxMay(l, b)
    ensures Linked(l, JointStep(l, x, Box(b)))
  {
    hide O.Inv, O.Next, WorldInv, LinkOk, Projection, Run;
    RunInv(x.w, Projection(l, x.s, b));
    OI.NextInv(x.s, b);
    if b.Tick? { TickLeads(l, x, b.ms); }
    else if Projection(l, x.s, b) == [] { IdleLeads(l, x, b); }
    else {
      OnlyFour(l, x.s, b);
      match b {
        case Claim(worker, process, job, verdict) =>
          if verdict == O.Refuse && !x.s.jobs[job].superseded { RefusalLeads(l, x, worker, process); }
          else { ClaimLeads(l, x, worker, process, verdict); }
        case Store(worker, write) => StoreLeads(l, x, worker, write);
        case Complete(worker, write) => CompleteLeads(l, x, worker, write);
        case Fail(worker, photo, delay) => FailLeads(l, x, worker, photo, delay);
        case _ =>
      }
    }
  }

  lemma OnlyFour(l: Link, s: O.State, b: O.Event)
    requires !b.Tick? && Projection(l, s, b) != []
    ensures b.Claim? || b.Store? || b.Complete? || b.Fail?
    ensures b.Claim? ==> b.job == l.job && b.worker !in s.workers && b.job in s.jobs && O.MayClaim(s, b.process, b.job)
  {
  }

  // ----- Every joint run ----------------------------------------------------

  /** However staff, sweeps, housekeeping and any number of outbox processes interleave, the two records agree. */
  lemma {:induction false} RunsKeepLink(l: Link, x: Joint, acts: seq<Act>)
    requires Linked(l, x)
    ensures Linked(l, Runs(l, x, acts))
  {
    hide Linked, JointStep;
    if acts != [] {
      var front, act := acts[..|acts| - 1], acts[|acts| - 1];
      RunsKeepLink(l, x, front);
      StepKeepsLink(l, Runs(l, x, front), act);
    }
  }

  lemma StepKeepsLink(l: Link, x: Joint, act: Act)
    requires Linked(l, x)
    ensures Linked(l, JointStep(l, x, act))
  {
    hide Linked;
    match act {
      case Desk(e) => if DeskMay(l, e) { DeskKeepsLink(l, x, e); }
      case Box(b) => if BoxMay(l, b) { BoxKeepsLink(l, x, b); }
    }
  }

  /** An answer recorded as delivered was delivered: MAX accepted and acknowledged every part of one plan of its
    * row, addressed to the incident's requester, and while the row is there it is SENT. */
  lemma DeliveredMeansAcknowledged(l: Link, x: Joint, acts: seq<Act>)
    requires Linked(l, x)
    ensures var x' := Runs(l, x, acts);
            && l.incident in x'.w.cases
            && var c := x'.w.cases[l.incident];
               DeliveredAs(c, l.answer) ==>
                 && WholeSent(x'.s.log, l.job, c.requester)
                 && (l.job in x'.s.jobs ==> x'.s.jobs[l.job].status == O.Sent && x'.s.jobs[l.job].target == c.requester)
  {
    hide Runs, WholeSent, WorldInv, O.Inv, Judged;
    RunsKeepLink(l, x, acts);
    var x' := Runs(l, x, acts);
    if DeliveredAs(x'.w.cases[l.incident], l.answer) { DeliveredRow(l, x'.w, x'.s); }
  }

  lemma DeliveredRow(l: Link, w: World, s: O.State)
    requires WorldInv(w) && l.incident in w.cases && LinkOk(l, w.cases[l.incident], s) && DeliveredAs(w.cases[l.incident], l.answer)
    ensures l.job in s.jobs ==> s.jobs[l.job].status == O.Sent && s.jobs[l.job].target == w.cases[l.incident].requester
  {
    hide WholeSent, Judged;
    var c := w.cases[l.incident];
    CaseHasAnswers(w, l.incident);
    if l.Key() in c.jobs { TargetIsRequester(c, w.now, l.Key()); }
  }

  // ----- Where the link begins ----------------------------------------------

  /** The delivery is fresh in the incident: judged, undelivered, its job not claimed yet. */
  predicate Fresh(c: Case, key: JobKey) {
    && Judged(c, key.answer) && !IsDelivered(c)
    && key in c.jobs && c.jobs[key] == Job(User(c.requester), Incident.Pending, 0, None, NoError, false, false)
  }

  lemma FreshBegins(w: World, e: Event, s: O.State, id: nat, answer: nat, key: Option<nat>, plan: seq<nat>)
    requires Reachable(w) && OG.Reachable(s) && w.now == s.now && plan != [] && !O.Keyed(s, key) && !e.Tick?
    requires id in w.cases && Commits(w, e, id) && Fresh(StepOf(w, e, id).c, AnswerJob(answer))
    ensures Linked(Link(id, answer, s.next),
                   Joint(Apply(w, e), O.Next(s, O.Enqueue(key, w.cases[id].requester, O.Message, plan, false))))
  {
    hide Apply, Reachable, OG.Reachable, Inv, O.Inv, WorldInv, StepOf;
    ReachableInv(w);
    OG.ReachableInv(s);
    ApplyInv(w, e);
    OI.NextInv(s, O.Enqueue(key, w.cases[id].requester, O.Message, plan, false));
    OnlyItsIncident(w, e, id);
    DeskKeepsClock(w, e);
    SameRequester(w, e, id);
    FreshRow(s, key, w.cases[id].requester, plan);
  }

  /** The link begins where `queueAnswer` (src/delivery/workflow-outbox.ts) inserts the row: when an approval, or an
    * answer of a group that needs no review, queues the delivery under a new key. */
  lemma QueuedDeliveryIsLinked(w: World, e: Event, s: O.State, id: nat, key: Option<nat>, plan: seq<nat>)
    requires Reachable(w) && OG.Reachable(s) && w.now == s.now && plan != [] && !O.Keyed(s, key)
    requires id in w.cases && Commits(w, e, id) && (e.ApproveAnswer? || (e.SubmitAnswer? && w.requests[e.request].direct))
    ensures var answer := if e.SubmitAnswer? then e.answer else Latest(StepOf(w, e, id).c.answers).id;
            Linked(Link(id, answer, s.next),
                   Joint(Apply(w, e), O.Next(s, O.Enqueue(key, w.cases[id].requester, O.Message, plan, false))))
  {
    hide Apply, Reachable, OG.Reachable, StepOf, Fresh, Linked, WorldInv;
    ReachableInv(w);
    if e.SubmitAnswer? {
      DirectFresh(w, e, id);
      FreshBegins(w, e, s, id, e.answer, key, plan);
    } else {
      ApprovedFresh(w, e.request, e.user, id);
      FreshBegins(w, e, s, id, Latest(StepOf(w, e, id).c.answers).id, key, plan);
    }
  }

  lemma DirectFresh(w: World, e: Event, id: nat)
    requires WorldInv(w) && id in w.cases && e.SubmitAnswer? && Commits(w, e, id) && w.requests[e.request].direct
    ensures Fresh(StepOf(w, e, id).c, AnswerJob(e.answer))
  {
    hide OneHolder, ReadsInv, CasesInv, Inv, AnswersInv, Submit, StepOf, Judged, HasAnswer;
    CaseHasAnswers(w, id);
    SubmittedStep(w, e, id);
    var c, seen := w.cases[id], w.requests[e.request].seen;
    WorkflowLaws.AnsweredOnce(c, seen, true, e.user, e.answer, e.body, w.now, seen, true, e.user, e.answer, e.body, w.now);
    DirectJob(c, seen, e.user, e.answer, e.body, w.now);
    var c' := StepOf(w, e, id).c;
    StepGood(w, e, id);
    assert AnswersInv(c') by { InvHasAnswers(c', w.now); }
    assert c'.answers != [] by { assert |c'.answers| > 0; }
    LatestIsJudged(c');
  }

  lemma InvHasAnswers(c: Case, now: int)
    requires Inv(c, now)
    ensures AnswersInv(c)
  {
  }

  lemma SubmittedStep(w: World, e: Event, id: nat)
    requires id in w.cases && e.SubmitAnswer? && Commits(w, e, id)
    ensures e.request in w.requests && !HasAnswer(w.cases[id].answers, e.answer)
    ensures var r := w.requests[e.request]; StepOf(w, e, id) == Submit(w.cases[id], r.seen, r.direct, e.user, e.answer, e.body, w.now)
  {
    hide Submit;
  }

  lemma NoJobYet(c: Case, answer: nat, now: int)
    requires Inv(c, now) && !HasAnswer(c.answers, answer)
    ensures AnswerJob(answer) !in c.jobs
  {
    assert forall k :: k in c.jobs ==> HasAnswer(c.answers, k.answer);
  }

  lemma DirectJob(c: Case, before: Case, user: nat, answer: nat, body: Body, now: int)
    requires Inv(c, now) && !HasAnswer(c.answers, answer) && Submit(c, before, true, user, answer, body, now).Done?
    ensures var c', key := Submit(c, before, true, user, answer, body, now).c, AnswerJob(answer);
            && c'.answers != [] && key in c'.jobs
            && c'.jobs[key] == Job(User(c'.requester), Incident.Pending, 0, None, NoError, false, false)
  {
    hide Latest;
    NoJobYet(c, answer, now);
  }

  lemma ApprovedFresh(w: World, r: nat, user: nat, id: nat)
    requires WorldInv(w) && id in w.cases && Commits(w, ApproveAnswer(r, user), id)
    ensures StepOf(w, ApproveAnswer(r, user), id).c.answers != []
    ensures var c' := StepOf(w, ApproveAnswer(r, user), id).c; Fresh(c', AnswerJob(Latest(c'.answers).id))
  {
    hide OneHolder, ReadsInv, CasesInv, Inv, AnswersInv, Approve, StepOf, StillLatest, Judged;
    CaseHasAnswers(w, id);
    ApprovedStep(w, r, user, id);
    WorkflowLaws.LatestApproved(w.cases[id], w.requests[r].seen, user, w.now);
    LatestIsJudged(StepOf(w, ApproveAnswer(r, user), id).c);
  }

  lemma ApprovedStep(w: World, r: nat, user: nat, id: nat)
    requires id in w.cases && Commits(w, ApproveAnswer(r, user), id)
    ensures r in w.requests && w.cases[id].answers != []
    ensures StepOf(w, ApproveAnswer(r, user), id) == Approve(w.cases[id], w.requests[r].seen, user, false, w.now)
    ensures Approve(w.cases[id], w.requests[r].seen, user, false, w.now).Done?
  {
    hide Editing, SetAnswer, Latest, HeldByOther;
  }

  lemma LatestIsJudged(c: Case)
    requires AnswersInv(c) && c.answers != [] && Latest(c.answers).status == Approved && Latest(c.answers).deliveredAt.None?
    ensures Judged(c, Latest(c.answers).id) && !IsDelivered(c)
  {
    LatestIsLast(c.answers);
    var n := |c.answers| - 1;
    forall i | 0 <= i < n ensures c.answers[i].id != c.answers[n].id { assert Differ(c.answers, i, n); }
    assert c.answers[n].id == Latest(c.answers).id;
  }

  lemma FreshRow(s: O.State, key: Option<nat>, target: nat, plan: seq<nat>)
    requires O.Inv(s) && plan != [] && !O.Keyed(s, key)
    ensures var s' := O.Next(s, O.Enqueue(key, target, O.Message, plan, false));
            && s.next in s'.jobs && s.next < s'.next && s'.now == s.now
            && s'.jobs[s.next] == O.Job(key, target, O.Message, plan, None, O.Pending, 0, s.now, None, false, false, false, 0, s.now)
  {
  }
}
