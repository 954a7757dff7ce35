/** The workflow as its services run it: the stored rows change in place, one transaction at a time. A
  * transaction's new state is the event of `Workflow` it stands for, and every incident takes a legal step. */
module WorkflowService {
  import opened Incident
  import opened IncidentInvariants
  import opened Workflow
  import opened WorkflowGuarantees
  import opened WorkflowSafety
  import opened WorkflowRows
  import opened Wrappers
  import T = WorkflowTransactions
  import WorkingTime

  predicate Transaction(e: Event) { !e.Tick? && !e.Register? && !e.PreRead? && !e.BeginEdit? && !e.DropEdit? }

  ghost predicate Commits(w: World, e: Event) {
    Subject(w, e).Some? && Subject(w, e).value in w.cases && StepOf(w, e, Subject(w, e).value).Done?
  }

  lemma Absent(w: World, e: Event)
    requires Transaction(e) && (Subject(w, e).None? || Subject(w, e).value !in w.cases)
    ensures Apply(w, e) == w
  {
    hide StepOf;
  }

  class Services {
    var now: int
    var cases: map<nat, Case>
    var edits: map<nat, Edit>
    var requests: map<nat, Read>

    function State(): World
      reads this
    {
      World(now, cases, edits, requests)
    }

    ghost predicate Valid()
      reads this
    {
      WorldInv(State())
    }

    constructor ()
      ensures State() == Start && Valid()
    {
      now, cases, edits, requests := 0, map[], map[], map[];
    }

    /** Commit or roll back; corrections of an incident that left review are deleted with it. */
    method Finish(id: nat, step: Step, saved: Option<nat>) returns (ok: bool)
      modifies this`cases, this`edits
      ensures ok <==> step.Done?
      ensures State() == match step case Refused(_) => old(State()) case Done(c) => Store(old(State()), saved, id, c)
    {
      if step.Refused? { return false; }
      edits := map u | u in edits && !(edits[u].incident == id && step.c.status != WaitingReview) && saved != Some(u) :: edits[u];
      cases := cases[id := step.c];
      return true;
    }

    method Register(id: nat, policy: Policy, requester: nat, legacyDeadline: int)
      requires Valid()
      modifies this`cases
      ensures Valid() && State() == Apply(old(State()), Workflow.Register(id, policy, requester, legacyDeadline))
    {
      ApplyInv(State(), Workflow.Register(id, policy, requester, legacyDeadline));
      if id in cases { return; }
      var deadline := legacyDeadline;
      if policy == WorkingHours {
        var due := WorkingTime.AddWorkingHours(now, WorkingTime.Finite(24.0));
        WorkingTime.DueIsUnique(now, ANSWER_MS, due.at, WorkingTime.DueAt(now, ANSWER_MS));
        deadline := due.at;
      }
      cases := cases[id := Case(policy, requester, now, deadline, Distribution, None, None, None, None, None, None, 0,
                                [], [], [], map[], {}, [], None, false)];
    }

    method ReadBefore(request: nat, id: nat, direct: bool)
      requires Valid()
      modifies this`requests
      ensures Valid() && State() == Apply(old(State()), PreRead(request, id, direct))
    {
      hide WorldInv, Transact;
      ApplyInv(State(), PreRead(request, id, direct));
      if id !in cases { return; }
      requests := requests[request := Read(id, cases[id], direct)];
    }

    lemma ValidCycles(id: nat)
      requires Valid() && id in cases
      ensures OnlyLastOpen(cases[id].cycles)
    {
      CyclesOnlyLastOpen(cases[id], now);
    }

    /** What distribution and the sector chats run. */
    method StaffTransaction(e: Event, id: nat) returns (step: Step)
      requires Valid() && (DistributionEvent(e) || SectorEvent(e)) && Subject(State(), e) == Some(id) && id in cases
      ensures step == StepOf(State(), e, id)
    {
      hide WorldInv, ClaimDistribution, Assign, Reject, TakeInWork, ReleaseSector, SweepSector, ReturnToDistribution, Submit,
           ClaimsElsewhere, NextFree, HasAnswer;
      var c := cases[id];
      match e {
        case ClaimNext(user, _, named) =>
          var own := HoldsClaim(c, user, now);
          if ClaimsElsewhere(State(), user, id) || (!named && !own && !NextFree(State(), id)) { return Refused(Conflict); }
          return ClaimDistribution(c, user, own, now);
        case ReleaseClaim(user, _) => return ReleaseDistribution(c, user);
        case ExpireClaim(_) => return SweepDistribution(c, now);
        case AssignGroup(r, user, group) => step := T.AssignGroup(c, requests[r].seen, user, group, now);
        case RejectIncident(r, user) => step := T.RejectIncident(c, requests[r].seen, user, now);
        case Take(user, _) => return TakeInWork(c, user, now);
        case Release(user, _) => return ReleaseSector(c, user, now);
        case ExpireSector(_, until) => return if now < until then Refused(Conflict) else SweepSector(c, until);
        case Return(user, _) => step := T.ReturnIncident(c, user, now);
        case SubmitAnswer(r, user, answer, body) =>
          if HasAnswer(c.answers, answer) { return Refused(Conflict); }
          ValidCycles(id);
          step := T.SubmitAnswer(c, requests[r].seen, requests[r].direct, user, answer, body, now);
      }
    }

    /** What the review chat runs, and the photo repair. */
    method ReviewTransaction(e: Event, id: nat) returns (step: Step)
      requires Valid() && (ReviewLeaseEvent(e) || VerdictEvent(e)) && Subject(State(), e) == Some(id) && id in cases
      ensures step == StepOf(State(), e, id)
    {
      hide WorldInv, ClaimReview, Approve, RequestRevision, SaveCorrection, RepairPhoto, Reviews, NextWaiting, HasAnswer;
      var c := cases[id];
      match e {
        case StartReview(user, _, named) =>
          if Reviews(State(), user) || (!named && !NextWaiting(State(), id)) { return Refused(Conflict); }
          return ClaimReview(c, user, now);
        case StopReview(user, _) => return ReleaseReview(c, user);
        case ExpireReview(_) => return SweepReview(c, now);
        case ApproveAnswer(r, user) =>
          step := T.ApproveAnswer(c, requests[r].seen, user, Editing(State(), user, id, c), now);
        case SendBack(r, user, reason) =>
          step := T.ReviseAnswer(c, requests[r].seen, user, reason, Editing(State(), user, id, c), now);
        case SaveEdit(user, answer) =>
          var edit := edits[user];
          if HasAnswer(c.answers, answer) || edit.expires <= now { return Refused(Conflict); }
          step := T.CorrectAnswer(c, user, edit.leaseUntil, edit.answer, answer, edit.text, now);
        case Repair(_, _, from, key) => step := T.ReopenForPhotos(c, from, key, now);
      }
    }

    /** What the outbox and the delivery commands run on an answer's own jobs. */
    method JobTransaction(e: Event, id: nat) returns (step: Step)
      requires Valid() && (JobEvent(e) || e.JobCompleted? || e.ResendAnswer?) && Subject(State(), e) == Some(id) && id in cases
      ensures step == StepOf(State(), e, id)
    {
      hide WorldInv, CompleteJob, Resend, ClaimJob, FailJob, RenewJob, PurgeJob, RetryFailed;
      var c := cases[id];
      match e {
        case JobClaimed(_, key) => return ClaimJob(c, key, now);
        case JobFailed(_, key, attempts, lockedAt, error, terminal) => return FailJob(c, key, attempts, lockedAt, error, terminal);
        case JobRenewed(_, key, attempts, lockedAt) => return RenewJob(c, key, attempts, lockedAt, now);
        case JobPurged(_, key) => return PurgeJob(c, key);
        case RetryJob(_, key) => return RetryFailed(c, key);
        case JobCompleted(_, key, attempts, lockedAt) => step := T.CompleteAnswerJob(c, key, attempts, lockedAt, now);
        case ResendAnswer(_, answer) => step := T.ResendAnswer(c, answer);
      }
    }

    method RunTransaction(e: Event, id: nat) returns (step: Step)
      requires Valid() && Transaction(e) && Subject(State(), e) == Some(id) && id in cases
      ensures step == StepOf(State(), e, id)
    {
      hide WorldInv, StepOf, Subject;
      if DistributionEvent(e) || SectorEvent(e) { step := StaffTransaction(e, id); }
      else if ReviewLeaseEvent(e) || VerdictEvent(e) { step := ReviewTransaction(e, id); }
      else { step := JobTransaction(e, id); }
    }

    /** Run a transaction and commit or roll it back. Whatever the event and however stale its read, every incident
      * takes a legal step that keeps live leases, one that is not the event's own stands still, and a refused
      * transaction changes nothing. */
    method Perform(e: Event) returns (ok: bool)
      requires Valid() && Transaction(e)
      modifies this`cases, this`edits
      ensures Valid() && State() == Apply(old(State()), e)
      ensures cases.Keys == old(cases).Keys
      ensures forall id :: id in cases ==> StepsTo(old(cases)[id], cases[id], now) && Evolves(old(cases)[id], cases[id])
      ensures forall id :: id in cases && Subject(old(State()), e) != Some(id) ==> cases[id] == old(cases)[id]
      ensures ok <==> Commits(old(State()), e)
      ensures !ok ==> State() == old(State())
    {
      hide Apply, WorldInv, StepOf, Follows, StepsTo, Evolves, Subject, Transaction, Store, Saves;
      ghost var w := State();
      ApplyInv(w, e);
      LegalSteps(w, e);
      var subject := Subject(State(), e);
      if subject.None? || subject.value !in cases { Absent(w, e); return false; }
      var id := subject.value;
      Outcome(w, e, id);
      var step := RunTransaction(e, id);
      ok := Finish(id, step, Saves(e));
    }
  }

  lemma LegalSteps(w: World, e: Event)
    requires WorldInv(w) && Transaction(e)
    ensures Apply(w, e).cases.Keys == w.cases.Keys
    ensures forall id :: id in w.cases ==> StepsTo(w.cases[id], Apply(w, e).cases[id], w.now) && Evolves(w.cases[id], Apply(w, e).cases[id])
    ensures forall id :: id in w.cases && Subject(w, e) != Some(id) ==> Apply(w, e).cases[id] == w.cases[id]
  {
    hide StepOf, Apply, StepsTo, Evolves;
    if Subject(w, e).None? || Subject(w, e).value !in w.cases { Absent(w, e); } else { OnlyItsIncident(w, e, Subject(w, e).value); }
    forall id | id in w.cases
      ensures StepsTo(w.cases[id], Apply(w, e).cases[id], w.now) && Evolves(w.cases[id], Apply(w, e).cases[id])
    {
      OnlyItsIncident(w, e, id);
      LegalStep(w, e, id);
    }
    forall id | id in w.cases && Subject(w, e) != Some(id) ensures Apply(w, e).cases[id] == w.cases[id] { OnlyItsIncident(w, e, id); }
  }

  lemma LegalStep(w: World, e: Event, id: nat)
    requires WorldInv(w) && Transaction(e) && id in w.cases
    ensures id in Apply(w, e).cases
    ensures StepsTo(w.cases[id], Apply(w, e).cases[id], w.now) && Evolves(w.cases[id], Apply(w, e).cases[id])
  {
    hide StepOf, Apply, Evolves, Inv;
    OnlyItsIncident(w, e, id);
    SameEvolves(w.cases[id]);
    if Subject(w, e) == Some(id) && StepOf(w, e, id).Done? { StepGood(w, e, id); }
  }
}
