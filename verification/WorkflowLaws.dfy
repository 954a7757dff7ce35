/** How the transactions act on each other: what one excludes, undoes, repeats or makes impossible, and for how long. */
module WorkflowLaws {
  import opened Incident
  import opened IncidentInvariants
  import opened AnswerInvariants
  import opened Workflow
  import opened WorkflowSafety
  import opened WorkflowGuarantees
  import opened Wrappers

  // ----- What a lease excludes ----------------------------------------------

  /** A fresh claim shuts every other dispatcher out of claiming, assigning and rejecting for exactly 15 minutes;
    * its owner may act at any time, and nothing but the claim has changed. */
  lemma ClaimExcludes(c: Case, user: nat, other: nat, group: nat, now: int, t: int)
    requires ClaimDistribution(c, user, false, now).Done? && other != user && now <= t
    ensures var c' := ClaimDistribution(c, user, false, now).c;
            && c' == c.(claim := c'.claim) && HoldsClaim(c', user, now)
            && (HoldsClaim(c', user, t) <==> t < now + 900_000)
            && (ClaimDistribution(c', other, false, t).Done? <==> now + 900_000 <= t)
            && (Assign(c', c', other, group, t) != Refused(Conflict) <==> now + 900_000 <= t)
            && (Reject(c', c', other, t).Done? <==> now + 900_000 <= t)
            && Assign(c', c', user, group, t) != Refused(Conflict) && Reject(c', c', user, t).Done?
  {
  }

  /** A fresh reservation shuts every other executor out of taking, returning and answering for exactly 15 minutes,
    * and out of releasing it for ever; its owner may release, return or answer at any time, but not take it twice. */
  lemma ReservationExcludes(c: Case, user: nat, other: nat, direct: bool, answer: nat, body: Body, now: int, t: int)
    requires TakeInWork(c, user, now).Done? && other != user && now <= t
    ensures var c' := TakeInWork(c, user, now).c;
            && c'.status == InProgress && c'.responder == Some(user)
            && (TakeInWork(c', user, t).Done? <==> now + 900_000 <= t)
            && (TakeInWork(c', other, t).Done? <==> now + 900_000 <= t)
            && (ReturnToDistribution(c', other, t).Done? <==> now + 900_000 <= t)
            && (Submit(c', c', direct, other, answer, body, t) != Refused(Conflict) <==> now + 900_000 <= t)
            && ReleaseSector(c', other, t) == Refused(Conflict)
            && ReleaseSector(c', user, t).Done? && ReturnToDistribution(c', user, t).Done?
            && Submit(c', c', direct, user, answer, body, t) != Refused(Conflict)
  {
    var c' := TakeInWork(c, user, now).c;
    assert Allowed(InProgress, if direct then Resolved else WaitingReview);
    assert c'.sectorLease == Some(Lease(user, now + LEASE_MS));
  }

  /** A fresh review lease shuts every other reviewer out of claiming, approving and sending back for exactly
    * 15 minutes, and out of saving a correction for ever. */
  lemma ReviewExcludes(c: Case, user: nat, other: nat, reason: string, until: int, answer: nat, text: string, now: int, t: int)
    requires Inv(c, now) && ClaimReview(c, user, now).Done? && other != user && now <= t
    ensures var c' := ClaimReview(c, user, now).c; var last := Latest(c.answers).id;
            && c' == c.(reviewLease := c'.reviewLease)
            && (ClaimReview(c', other, t).Done? <==> now + 900_000 <= t)
            && (Approve(c', c', other, false, t).Done? <==> now + 900_000 <= t)
            && (RequestRevision(c', c', other, reason, false, t).Done? <==> now + 900_000 <= t)
            && SaveCorrection(c', other, until, last, answer, text, t) == Refused(Conflict)
            && (SaveCorrection(c', user, until, last, answer, text, t).Done? <==> until == now + 900_000 && t < until)
            && Approve(c', c', user, false, t).Done? && RequestRevision(c', c', user, reason, false, t).Done?
  {
    LatestIsLast(c.answers);
  }

  // ----- What one transaction undoes ----------------------------------------

  /** Each working-hours assignment opened one cycle and each return ended one round; an open stage is the one its
    * revision reason stands for. */
  predicate RoundsInv(c: Case) {
    && (c.policy == WorkingHours ==> |c.cycles| == c.redistributions + if c.group.Some? then 1 else 0)
    && (c.status == Assigned ==> OpenStatus(c) == Assigned)
    && (c.status == RevisionRequired ==> c.revisionReason.Some?)
  }

  lemma DistributionKeepsRounds(w: World, e: Event, id: nat)
    requires DistributionEvent(e) && Subject(w, e) == Some(id) && id in w.cases && StageInv(w.cases[id]) && RoundsInv(w.cases[id])
    requires e.AssignGroup? ==> w.requests[e.request].seen.policy == w.cases[id].policy
    ensures StepOf(w, e, id).Done? ==> RoundsInv(StepOf(w, e, id).c)
  {
    hide HeldByOther, LiveFor, ClaimsElsewhere, NextFree, HoldsClaim;
  }

  lemma SectorKeepsRounds(w: World, e: Event, id: nat)
    requires SectorEvent(e) && Subject(w, e) == Some(id) && id in w.cases && StageInv(w.cases[id]) && RoundsInv(w.cases[id])
    ensures StepOf(w, e, id).Done? ==> RoundsInv(StepOf(w, e, id).c)
  {
    hide HeldByOther, LiveFor, Latest, HasAnswer;
  }

  lemma ReviewKeepsRounds(w: World, e: Event, id: nat)
    requires (ReviewLeaseEvent(e) || VerdictEvent(e)) && Subject(w, e) == Some(id) && id in w.cases
    requires StageInv(w.cases[id]) && RoundsInv(w.cases[id])
    ensures StepOf(w, e, id).Done? ==> RoundsInv(StepOf(w, e, id).c)
  {
    hide HeldByOther, LiveFor, Editing, Reviews, NextWaiting, Latest, SetAnswer, HasAnswer, Enqueue;
  }

  lemma JobKeepsRounds(w: World, e: Event, id: nat)
    requires (JobEvent(e) || e.ResendAnswer?) && Subject(w, e) == Some(id) && id in w.cases && RoundsInv(w.cases[id])
    ensures StepOf(w, e, id).Done? ==> RoundsInv(StepOf(w, e, id).c)
  {
    hide Latest, Claimable, Owns;
  }

  lemma CompletionKeepsRounds(w: World, e: Event, id: nat)
    requires e.JobCompleted? && Subject(w, e) == Some(id) && id in w.cases && RoundsInv(w.cases[id])
    ensures StepOf(w, e, id).Done? ==> RoundsInv(StepOf(w, e, id).c)
  {
    hide CompleteJob;
    CompletionFrame(w.cases[id], e.key, e.attempts, e.lockedAt, w.now);
  }

  /** What a completion leaves alone. */
  lemma CompletionFrame(c: Case, key: JobKey, attempts: int, lockedAt: int, now: int)
    ensures var step := CompleteJob(c, key, attempts, lockedAt, now);
            step.Done? ==>
              && key in c.jobs && c.jobs[key].status == Sending && step.c.jobs == c.jobs[key := step.c.jobs[key]]
              && step.c.policy == c.policy && step.c.status == c.status && step.c.group == c.group
              && step.c.revisionReason == c.revisionReason && step.c.redistributions == c.redistributions
              && |step.c.cycles| == |c.cycles|
  {
    hide Latest, SetAnswer, CurrentAnswer;
  }

  lemma StepKeepsRounds(w: World, e: Event, id: nat)
    requires Subject(w, e) == Some(id) && id in w.cases && StageInv(w.cases[id]) && RoundsInv(w.cases[id])
    requires e.AssignGroup? ==> w.requests[e.request].seen.policy == w.cases[id].policy
    ensures StepOf(w, e, id).Done? ==> RoundsInv(StepOf(w, e, id).c)
  {
    hide StepOf, RoundsInv, StageInv;
    if DistributionEvent(e) { DistributionKeepsRounds(w, e, id); }
    else if SectorEvent(e) { SectorKeepsRounds(w, e, id); }
    else if ReviewLeaseEvent(e) || VerdictEvent(e) { ReviewKeepsRounds(w, e, id); }
    else if e.JobCompleted? { CompletionKeepsRounds(w, e, id); }
    else { JobKeepsRounds(w, e, id); }
  }

  lemma {:induction false} RunKeepsRounds(events: seq<Event>, id: nat)
    requires id in Run(Start, events).cases
    ensures RoundsInv(Run(Start, events).cases[id])
  {
    hide StepOf, Inv, RoundsInv, OneHolder;
    if events != [] {
      var front, e := events[..|events| - 1], events[|events| - 1];
      var w := Run(Start, front);
      RunInv(Start, front);
      if id in w.cases {
        RunKeepsRounds(front, id);
        OnlyItsIncident(w, e, id);
        if Subject(w, e) == Some(id) {
          if e.AssignGroup? { assert ReadOk(w.cases, w.requests[e.request]); }
          assert Inv(w.cases[id], w.now) && StageInv(w.cases[id]) by { InvHasStage(w, id); }
          StepKeepsRounds(w, e, id);
        }
      } else {
        OnlyRegistered(w, e, id);
      }
    }
  }

  lemma InvHasStage(w: World, id: nat)
    requires CasesInv(w) && id in w.cases
    ensures Inv(w.cases[id], w.now) && StageInv(w.cases[id])
  {
  }

  lemma OnlyRegistered(w: World, e: Event, id: nat)
    requires id !in w.cases && id in Apply(w, e).cases
    ensures RoundsInv(Apply(w, e).cases[id])
  {
    hide StepOf, Apply, Subject, Transact, RoundsInv;
    if Subject(w, e).Some? { SubjectTransacts(w, e); OnlyStores(w, e); } else { OnlyRegisters(w, e, id); }
  }

  lemma OnlyRegisters(w: World, e: Event, id: nat)
    requires Subject(w, e).None? && id !in w.cases && id in Apply(w, e).cases
    ensures RoundsInv(Apply(w, e).cases[id])
  {
    hide StepOf, Latest, HoldsReview;
  }

  lemma OnlyStores(w: World, e: Event)
    ensures Transact(w, e).cases.Keys == w.cases.Keys
  {
    hide StepOf, Subject;
  }

  /** One assignment a round: a working-hours incident was assigned once for each time it was returned, and once
    * more while it is with a group or done. */
  lemma OneAssignmentPerRound(w: World, id: nat)
    requires Reachable(w) && id in w.cases && w.cases[id].policy == WorkingHours
    ensures |w.cases[id].cycles| == w.cases[id].redistributions + if w.cases[id].group.Some? then 1 else 0
  {
    var events :| w == Run(Start, events);
    RunKeepsRounds(events, id);
  }

  /** Releasing after taking restores the stage in every run, unless the incident had been sent back with an empty
    * reason, which leaves it as if it had never been answered. */
  lemma ReleaseUndoesTake(w: World, id: nat, user: nat, t: int)
    requires Reachable(w) && id in w.cases && TakeInWork(w.cases[id], user, w.now).Done? && w.cases[id].sectorLease.None?
    ensures var c := w.cases[id]; var r := ReleaseSector(TakeInWork(c, user, w.now).c, user, t);
            && r.Done?
            && (r.c == c.(responder := None) <==> !(c.status == RevisionRequired && c.revisionReason == Some("")))
            && (c.status == RevisionRequired && c.revisionReason == Some("") ==> r.c == c.(responder := None, status := Assigned))
  {
    hide Inv, Reachable, Run;
    ReachableInv(w);
    InvHasStage(w, id);
    var events :| w == Run(Start, events) by { ReachableBy(w); }
    RunKeepsRounds(events, id);
  }

  lemma ReachableBy(w: World)
    requires Reachable(w)
    ensures exists events :: w == Run(Start, events)
  {
  }

  /** The sweep of a reservation is its holder's own release, and happens only to the reservation it had seen. */
  lemma SweepIsRelease(c: Case, until: int, t: int)
    requires StageInv(c)
    ensures SweepSector(c, until).Done? <==> c.sectorLease.Some? && c.sectorLease.value.until == until
    ensures c.sectorLease.Some? ==>
              SweepSector(c, c.sectorLease.value.until) == ReleaseSector(c, c.sectorLease.value.user, t)
    ensures SweepDistribution(c, t).Done? ==> SweepDistribution(c, t) == ReleaseDistribution(c, c.claim.value.user)
    ensures SweepReview(c, t).Done? ==> SweepReview(c, t) == ReleaseReview(c, c.reviewLease.value.user)
  {
  }

  /** A sweep that saw one reservation leaves a later one alone. */
  lemma StaleSweepIsRefused(c: Case, user: nat, other: nat, now: int, t: int, later: int)
    requires StageInv(c) && TakeInWork(c, user, now).Done? && now < later
    requires ReleaseSector(TakeInWork(c, user, now).c, user, t).Done?
    ensures var free := ReleaseSector(TakeInWork(c, user, now).c, user, t).c;
            && TakeInWork(free, other, later).Done?
            && SweepSector(TakeInWork(free, other, later).c, now + 900_000) == Refused(Conflict)
  {
  }

  // ----- What can happen only once ------------------------------------------

  /** One dispatcher's decision refuses all others, whatever they had read, until the incident comes back. */
  lemma DecidedOnce(c: Case, before: Case, user: nat, group: nat, now: int, before': Case, user': nat, group': nat, t: int)
    ensures var a := Assign(c, before, user, group, now);
            a.Done? ==> Assign(a.c, before', user', group', t) == Refused(Conflict) && Reject(a.c, before', user', t) == Refused(Conflict)
    ensures var r := Reject(c, before, user, now);
            r.Done? ==> Assign(r.c, before', user', group', t) == Refused(Conflict) && Reject(r.c, before', user', t) == Refused(Conflict)
  {
  }

  /** One accepted answer refuses every other submission of the same stage, whatever it had read; the new version
    * is above all earlier ones. */
  lemma AnsweredOnce(c: Case, before: Case, direct: bool, user: nat, answer: nat, body: Body, now: int,
                     before': Case, direct': bool, user': nat, answer': nat, body': Body, t: int)
    requires Inv(c, now) && !HasAnswer(c.answers, answer) && Submit(c, before, direct, user, answer, body, now).Done?
    ensures var c' := Submit(c, before, direct, user, answer, body, now).c;
            && Submit(c', before', direct', user', answer', body', t) == Refused(Conflict)
            && Latest(c'.answers) == Answer(answer, |c.answers| + 1, body, if direct then Approved else AwaitingReview, None)
            && c'.answers[..|c.answers|] == c.answers
  {
    SubmittedInv(c, direct, user, answer, body, now);
    var r := RecordPreparation(Moved(c, direct, user, answer, body), answer, now).value;
    assert StaffRefresh(r) == r;
    LatestIsLast(r.answers);
    if c.answers != [] { LatestIsLast(c.answers); assert AnswerOk(c.answers, |c.answers| - 1); }
  }

  /** One verdict or saved correction refuses every other verdict that was prepared for the same version. */
  lemma JudgedOnce(c: Case, before: Case, user: nat, reason: string, until: int, expected: nat, answer: nat, text: string, now: int,
                   before': Case, user': nat, reason': string, editing: bool, t: int)
    requires Inv(c, now) && !HasAnswer(c.answers, answer) && StillLatest(c, before')
    ensures var steps := [Approve(c, before, user, false, now), RequestRevision(c, before, user, reason, false, now),
                          SaveCorrection(c, user, until, expected, answer, text, now)];
            forall i :: 0 <= i < 3 && steps[i].Done? ==>
              && Approve(steps[i].c, before', user', editing, t) == Refused(Conflict)
              && RequestRevision(steps[i].c, before', user', reason', editing, t) == Refused(Conflict)
  {
    hide SaveCorrection, HasAnswer;
    CorrectionOutdates(c, user, until, expected, answer, text, now);
    LatestIsLast(c.answers);
  }

  lemma CorrectionOutdates(c: Case, user: nat, until: int, expected: nat, answer: nat, text: string, now: int)
    requires Inv(c, now) && !HasAnswer(c.answers, answer)
    ensures var saved := SaveCorrection(c, user, until, expected, answer, text, now);
            saved.Done? ==> c.answers != [] && saved.c.answers != [] && Latest(saved.c.answers).id != Latest(c.answers).id
  {
    var saved := SaveCorrection(c, user, until, expected, answer, text, now);
    if saved.Done? {
      SaveCorrectionGood(c, user, until, expected, answer, text, now);
      LatestIsLast(saved.c.answers);
      LatestIsLast(c.answers);
      assert c.answers[|c.answers| - 1].id != answer;
    }
  }

  /** A correction is a new version with the reviewed one's attachments; the reviewed one stays as it is. */
  lemma CorrectionKeepsMedia(c: Case, user: nat, until: int, expected: nat, answer: nat, text: string, now: int)
    requires Inv(c, now) && !HasAnswer(c.answers, answer)
    requires SaveCorrection(c, user, until, expected, answer, text, now).Done?
    ensures var c' := SaveCorrection(c, user, until, expected, answer, text, now).c;
            && c'.answers[..|c.answers|] == c.answers && |c'.answers| == |c.answers| + 1
            && Latest(c'.answers).body == Body(text, Latest(c.answers).body.media)
            && Latest(c'.answers).version == Latest(c.answers).version + 1
            && c'.status == WaitingReview && c'.reviewLease == c.reviewLease
  {
    SaveCorrectionGood(c, user, until, expected, answer, text, now);
    LatestIsLast(SaveCorrection(c, user, until, expected, answer, text, now).c.answers);
  }

  // ----- Deliveries ---------------------------------------------------------

  /** An approved answer's delivery, claimed and completed by the same attempt, is recorded for the requester;
    * the attempt can neither be completed again nor fail afterwards, and /resend then changes nothing. */
  lemma ApprovedIsDelivered(c: Case, before: Case, user: nat, now: int, t: int, end: int, error: JobError)
    requires Inv(c, now) && Approve(c, before, user, false, now).Done? && now <= t <= end
    ensures var approved := Approve(c, before, user, false, now).c; var key := AnswerJob(Latest(c.answers).id);
            && ClaimJob(approved, key, t).Done?
            && var claimed := ClaimJob(approved, key, t).c; var done := CompleteJob(claimed, key, 1, t, end);
               && done.Done? && IsDelivered(done.c) && done.c.sent == [Receipt(key.answer, User(c.requester))]
               && CompleteJob(done.c, key, 1, t, end) == Refused(Conflict)
               && FailJob(done.c, key, 1, t, error, true) == Refused(Conflict)
               && Resend(done.c, key.answer) == Done(done.c)
  {
    hide Inv, SetAnswer, RecordDelivery, CompleteJob;
    LatestApproved(c, before, user, now);
    var approved, key := Approve(c, before, user, false, now).c, AnswerJob(Latest(c.answers).id);
    CompletedLatest(ClaimJob(approved, key, t).c, key, 1, t, end);
  }

  lemma LatestApproved(c: Case, before: Case, user: nat, now: int)
    requires Inv(c, now) && Approve(c, before, user, false, now).Done?
    ensures var approved := Approve(c, before, user, false, now).c; var key := AnswerJob(Latest(c.answers).id);
            && AnswersInv(approved) && approved.status == Resolved && approved.answers != [] && approved.requester == c.requester
            && Latest(approved.answers).id == key.answer && Latest(approved.answers).status == Approved
            && Latest(approved.answers).deliveredAt.None? && approved.sent == []
            && key in approved.jobs && approved.jobs[key] == Job(User(c.requester), Pending, 0, None, NoError, false, false)
  {
    LatestWaits(c, before);
    ApproveGood(c, before, user, false, now);
    LatestIsLast(Approve(c, before, user, false, now).c.answers);
  }

  lemma CompletedLatest(c: Case, key: JobKey, attempts: int, lockedAt: int, now: int)
    requires AnswersInv(c) && key.AnswerJob? && key in c.jobs && Owns(c.jobs[key], attempts, lockedAt)
    requires CurrentAnswer(c, key.answer, c.jobs[key].target)
    ensures var done := CompleteJob(c, key, attempts, lockedAt, now);
            && done.Done? && IsDelivered(done.c) && done.c.sent == c.sent + [Receipt(key.answer, User(c.requester))]
            && Latest(done.c.answers).id == key.answer && Latest(done.c.answers).status == Approved
            && Latest(done.c.answers).deliveredAt == Some(now) && done.c.status == Resolved
            && key in done.c.jobs && done.c.jobs[key].status == Sent
            && CompleteJob(done.c, key, attempts, lockedAt, now) == Refused(Conflict)
  {
    LatestIsLast(c.answers);
    SetLatest(c, Latest(c.answers).(deliveredAt := Some(now)));
    var rows := c.answers[|c.answers| - 1 := Latest(c.answers).(deliveredAt := Some(now))];
    forall i | 0 <= i < |rows| ensures AnswerOk(rows, i) { assert AnswerOk(c.answers, i); }
    LatestIsLast(rows);
  }

  // ----- A superseded version -----------------------------------------------

  /** The job was stopped for good: it is superseded and not being sent, or went with its rejected incident. */
  predicate Halted(c: Case, key: JobKey) {
    || (key in c.jobs && c.jobs[key].superseded && (c.jobs[key].status == Pending || c.jobs[key].status == Failed))
    || (key !in c.jobs && c.status == Rejected)
  }

  lemma JobKeepsHalted(w: World, e: Event, id: nat, key: JobKey)
    requires JobEvent(e) && Subject(w, e) == Some(id) && id in w.cases && Halted(w.cases[id], key)
    ensures StepOf(w, e, id).Done? ==> Halted(StepOf(w, e, id).c, key)
  {
  }

  lemma CompletionKeepsHalted(w: World, e: Event, id: nat, key: JobKey)
    requires e.JobCompleted? && Subject(w, e) == Some(id) && id in w.cases && Halted(w.cases[id], key)
    ensures StepOf(w, e, id).Done? ==> Halted(StepOf(w, e, id).c, key)
  {
    hide CompleteJob;
    CompletionFrame(w.cases[id], e.key, e.attempts, e.lockedAt, w.now);
  }

  lemma ResendKeepsHalted(w: World, e: Event, id: nat, key: JobKey)
    requires e.ResendAnswer? && Subject(w, e) == Some(id) && id in w.cases && Halted(w.cases[id], key)
    ensures StepOf(w, e, id).Done? ==> Halted(StepOf(w, e, id).c, key)
  {
    hide Latest;
  }

  lemma DistributionKeepsHalted(w: World, e: Event, id: nat, key: JobKey)
    requires DistributionEvent(e) && Subject(w, e) == Some(id) && id in w.cases && Halted(w.cases[id], key)
    ensures StepOf(w, e, id).Done? ==> Halted(StepOf(w, e, id).c, key)
  {
    hide HeldByOther, LiveFor, ClaimsElsewhere, NextFree, HoldsClaim, StartAssignment, FinishAssignment;
  }

  lemma SectorKeepsHalted(w: World, e: Event, id: nat, key: JobKey)
    requires SectorEvent(e) && Subject(w, e) == Some(id) && id in w.cases && Halted(w.cases[id], key)
    ensures StepOf(w, e, id).Done? ==> Halted(StepOf(w, e, id).c, key)
  {
    hide HeldByOther, LiveFor, Latest, FinishAssignment, OpenStatus, HasAnswer, RecordPreparation;
    PreparationKeepsJobs();
  }

  lemma PreparationKeepsJobs()
    ensures forall c: Case, answer: nat, at: int :: RecordPreparation(c, answer, at).Some? ==>
              RecordPreparation(c, answer, at).value.jobs == c.jobs && RecordPreparation(c, answer, at).value.status == c.status
  {
  }

  lemma ReviewKeepsHalted(w: World, e: Event, id: nat, key: JobKey)
    requires (ReviewLeaseEvent(e) || VerdictEvent(e)) && Subject(w, e) == Some(id) && id in w.cases && Halted(w.cases[id], key)
    ensures StepOf(w, e, id).Done? ==> Halted(StepOf(w, e, id).c, key)
  {
    hide HeldByOther, LiveFor, Editing, Reviews, NextWaiting, Latest, SetAnswer, HasAnswer;
  }

  lemma StepKeepsHalted(w: World, e: Event, id: nat, key: JobKey)
    requires Subject(w, e) == Some(id) && id in w.cases && Halted(w.cases[id], key)
    ensures StepOf(w, e, id).Done? ==> Halted(StepOf(w, e, id).c, key)
  {
    hide StepOf, Halted;
    if JobEvent(e) { JobKeepsHalted(w, e, id, key); }
    else if e.JobCompleted? { CompletionKeepsHalted(w, e, id, key); }
    else if e.ResendAnswer? { ResendKeepsHalted(w, e, id, key); }
    else if DistributionEvent(e) { DistributionKeepsHalted(w, e, id, key); }
    else if SectorEvent(e) { SectorKeepsHalted(w, e, id, key); }
    else { ReviewKeepsHalted(w, e, id, key); }
  }

  lemma {:induction false} RunKeepsHalted(w: World, id: nat, key: JobKey, events: seq<Event>)
    requires id in w.cases && Halted(w.cases[id], key)
    ensures id in Run(w, events).cases && Halted(Run(w, events).cases[id], key)
  {
    hide StepOf, Halted, Apply, Subject;
    if events != [] {
      var front, e := events[..|events| - 1], events[|events| - 1];
      RunKeepsHalted(w, id, key, front);
      OnlyItsIncident(Run(w, front), e, id);
      if Subject(Run(w, front), e) == Some(id) { StepKeepsHalted(Run(w, front), e, id, key); }
    }
  }

  lemma RepairHalts(w: World, e: Event)
    requires e.Repair? && e.id in w.cases && StepOf(w, e, e.id).Done?
    ensures e.id in Apply(w, e).cases && Halted(Apply(w, e).cases[e.id], e.key)
  {
    hide Apply, Latest, SetAnswer;
    OnlyItsIncident(w, e, e.id);
  }

  /** Once a photo repair has superseded a version's job, whatever follows, the job is never being sent nor sent: a
    * claim only finds it FAILED for good, no attempt can complete, fail or renew it, and it goes only with a
    * rejected incident. */
  lemma SupersededIsNeverSent(w: World, e: Event, events: seq<Event>, attempts: int, lockedAt: int, t: int)
    requires e.Repair? && e.id in w.cases && StepOf(w, e, e.id).Done?
    ensures e.id in Run(Apply(w, e), events).cases
    ensures var c, key := Run(Apply(w, e), events).cases[e.id], e.key;
            && (key in c.jobs ==> c.jobs[key].superseded && c.jobs[key].status != Sending && c.jobs[key].status != Sent)
            && (key !in c.jobs ==> c.status == Rejected)
            && (ClaimJob(c, key, t).Done? ==>
                  var j := ClaimJob(c, key, t).c.jobs[key]; j.status == Failed && j.error == Superseded && j.lockedAt.None?)
            && CompleteJob(c, key, attempts, lockedAt, t) == Refused(Conflict)
            && RenewJob(c, key, attempts, lockedAt, t) == Refused(Conflict)
            && FailJob(c, key, attempts, lockedAt, OtherError, true) == Refused(Conflict)
  {
    hide Apply, StepOf, Run;
    RepairHalts(w, e);
    RunKeepsHalted(Apply(w, e), e.id, e.key, events);
  }

  /** What a request read before the incident was returned is never answered on, whatever happens in between. */
  lemma ReturnedReadNeverAnswers(w: World, r: nat, user: nat, answer: nat, body: Body, events: seq<Event>)
    requires Reachable(w) && r in w.requests && w.requests[r].incident in w.cases
    requires w.requests[r].seen.redistributions < w.cases[w.requests[r].incident].redistributions
    requires r in Run(w, events).requests && Run(w, events).requests[r] == w.requests[r]
    ensures var w', e := Run(w, events), SubmitAnswer(r, user, answer, body);
            var id := w.requests[r].incident; id in w'.cases && StepOf(w', e, id) == Refused(Conflict)
  {
    hide Reachable, Inv, Run;
    ReachableInv(w);
    RunInv(w, events);
    assert FollowsAt(w, Run(w, events), w.requests[r].incident);
  }
}
