/** What holds after every run of the workflow, however its events interleave. */
module WorkflowSafety {
  import opened Incident
  import opened IncidentInvariants
  import opened Workflow
  import opened Wrappers
  import WorkingTime

  // ----- One event ----------------------------------------------------------

  lemma SameEvolves(c: Case)
    ensures Evolves(c, c)
  {
    forall i | 0 <= i < |c.answers| ensures SameText(c.answers, c.answers, i) {}
  }

  lemma UpdateReads(w: World, id: nat, c: Case)
    requires ReadsInv(w) && (id in w.cases ==> Evolves(w.cases[id], c))
    ensures ReadsInv(w.(cases := w.cases[id := c]))
  {
    var cases := w.cases[id := c];
    forall r | r in w.requests ensures ReadOk(cases, w.requests[r]) {
      assert ReadOk(w.cases, w.requests[r]);
      if w.requests[r].incident == id { EvolvesIsTransitive(w.requests[r].seen, w.cases[id], c); }
    }
  }

  lemma UpdateFollows(w: World, id: nat, c: Case)
    requires id in w.cases ==> Evolves(w.cases[id], c)
    ensures Follows(w, w.(cases := w.cases[id := c]))
  {
    forall j | j in w.cases ensures FollowsAt(w, w.(cases := w.cases[id := c]), j) { SameEvolves(w.cases[j]); }
  }

  lemma UpdateCases(w: World, id: nat, c: Case)
    requires CasesInv(w) && Inv(c, w.now)
    ensures CasesInv(w.(cases := w.cases[id := c]))
  {
  }

  lemma StoredInv(w: World, e: Event, id: nat)
    requires WorldInv(w) && Subject(w, e) == Some(id) && id in w.cases && StepOf(w, e, id).Done?
    ensures var w' := w.(cases := w.cases[id := StepOf(w, e, id).c]); WorldInv(w') && Follows(w, w')
  {
    var c := StepOf(w, e, id).c;
    StepGood(w, e, id);
    StoreKeepsOneHolder(w, e, id);
    UpdateReads(w, id, c);
    UpdateFollows(w, id, c);
    UpdateCases(w, id, c);
  }

  lemma TickInv(w: World, ms: nat)
    requires WorldInv(w)
    ensures WorldInv(w.(now := w.now + ms)) && Follows(w, w.(now := w.now + ms))
  {
    var w' := w.(now := w.now + ms);
    HoldersStay(w, ms);
    hide Inv, OneHolder, ReadOk, Evolves;
    forall id | id in w'.cases ensures Inv(w'.cases[id], w'.now) && FollowsAt(w, w', id) {
      LaterInv(w.cases[id], w.now, w'.now);
      SameEvolves(w.cases[id]);
    }
    assert forall r :: r in w'.requests ==> ReadOk(w'.cases, w'.requests[r]);
  }

  lemma HoldersStay(w: World, ms: nat)
    requires OneHolder(w)
    ensures OneHolder(w.(now := w.now + ms))
  {
    var w' := w.(now := w.now + ms);
    assert forall id, u :: id in w.cases && HoldsClaim(w.cases[id], u, w'.now) ==> HoldsClaim(w.cases[id], u, w.now);
    assert forall id, u :: id in w.cases && HoldsReview(w.cases[id], u, w'.now) ==> HoldsReview(w.cases[id], u, w.now);
  }

  lemma RegisterKeepsOneHolder(w: World, id: nat, c: Case)
    requires OneHolder(w) && id !in w.cases && c.claim.None? && c.reviewLease.None?
    ensures OneHolder(w.(cases := w.cases[id := c]))
  {
  }

  lemma RegisterInv(w: World, id: nat, c: Case)
    requires WorldInv(w) && id !in w.cases && Inv(c, w.now) && c.claim.None? && c.reviewLease.None?
    ensures var w' := w.(cases := w.cases[id := c]); WorldInv(w') && Follows(w, w')
  {
    RegisterKeepsOneHolder(w, id, c);
    UpdateReads(w, id, c);
    UpdateFollows(w, id, c);
    UpdateCases(w, id, c);
  }

  lemma PreReadInv(w: World, request: nat, id: nat, direct: bool)
    requires ReadsInv(w) && id in w.cases
    ensures ReadsInv(w.(requests := w.requests[request := Read(id, w.cases[id], direct)]))
  {
    SameEvolves(w.cases[id]);
  }

  /** The invariant speaks of the clock, the incidents and the requests only. */
  lemma OnlyEditsDiffer(w: World, w': World)
    requires w'.now == w.now && w'.cases == w.cases && WorldInv(w) && ReadsInv(w')
    ensures WorldInv(w') && Follows(w, w')
  {
    forall id | id in w.cases ensures FollowsAt(w, w', id) { SameEvolves(w.cases[id]); }
    assert forall id :: id in w'.cases ==> id in w.cases;
  }

  lemma Unchanged(w: World)
    requires WorldInv(w)
    ensures Follows(w, w)
  {
    OnlyEditsDiffer(w, w);
  }

  lemma TransactInv(w: World, e: Event)
    requires WorldInv(w)
    ensures WorldInv(Transact(w, e)) && Follows(w, Transact(w, e))
  {
    hide StepOf, Subject, WorldInv, Follows;
    Unchanged(w);
    match Subject(w, e) {
      case None =>
      case Some(id) =>
        if id in w.cases {
          match StepOf(w, e, id) {
            case Refused(_) =>
            case Done(c) =>
              StoredInv(w, e, id);
              StoringKeeps(w, Saves(e), id, c);
          }
        }
    }
  }

  /** Dropping corrections with the stored incident matters to nothing else. */
  lemma StoringKeeps(w: World, saved: Option<nat>, id: nat, c: Case)
    requires WorldInv(w.(cases := w.cases[id := c])) && Follows(w, w.(cases := w.cases[id := c]))
    ensures WorldInv(Store(w, saved, id, c)) && Follows(w, Store(w, saved, id, c))
  {
    var stored, w' := w.(cases := w.cases[id := c]), Store(w, saved, id, c);
    OnlyEditsDiffer(stored, w');
    forall j | j in w.cases ensures FollowsAt(w, w', j) { assert FollowsAt(w, stored, j); }
  }

  lemma RegisterArm(w: World, e: Event)
    requires WorldInv(w) && e.Register?
    ensures WorldInv(Apply(w, e)) && Follows(w, Apply(w, e))
  {
    hide Inv, OneHolder, ReadOk, Evolves;
    Unchanged(w);
    if e.id !in w.cases {
      RegisteredInv(e.policy, e.requester, e.legacyDeadline, w.now);
      RegisterInv(w, e.id, Registered(e.policy, e.requester, e.legacyDeadline, w.now));
    }
  }

  lemma PreReadArm(w: World, e: Event)
    requires WorldInv(w) && e.PreRead?
    ensures WorldInv(Apply(w, e)) && Follows(w, Apply(w, e))
  {
    hide Inv, OneHolder, ReadOk, Evolves;
    Unchanged(w);
    if e.id in w.cases {
      PreReadInv(w, e.request, e.id, e.direct);
      OnlyEditsDiffer(w, Apply(w, e));
    }
  }

  lemma EditArm(w: World, e: Event)
    requires WorldInv(w) && (e.BeginEdit? || e.DropEdit?)
    ensures WorldInv(Apply(w, e)) && Follows(w, Apply(w, e))
  {
    hide Inv, OneHolder, ReadOk, Evolves, Latest, HoldsReview;
    OnlyEditsDiffer(w, Apply(w, e));
  }

  lemma ApplyInv(w: World, e: Event)
    requires WorldInv(w)
    ensures WorldInv(Apply(w, e)) && Follows(w, Apply(w, e))
  {
    hide Transact, WorldInv, Follows;
    match e {
      case Tick(ms) => TickInv(w, ms);
      case Register(_, _, _, _) => RegisterArm(w, e);
      case PreRead(_, _, _) => PreReadArm(w, e);
      case BeginEdit(_, _, _, _) => EditArm(w, e);
      case DropEdit(_) => EditArm(w, e);
      case _ => TransactInv(w, e);
    }
  }

  // ----- Every run ----------------------------------------------------------

  lemma {:induction false} RunInv(w: World, events: seq<Event>)
    requires WorldInv(w)
    ensures WorldInv(Run(w, events)) && Follows(w, Run(w, events))
  {
    if events != [] {
      var front := events[..|events| - 1];
      RunInv(w, front);
      var mid := Run(w, front);
      ApplyInv(mid, events[|events| - 1]);
      forall id | id in w.cases ensures FollowsAt(w, Run(w, events), id) {
        assert FollowsAt(w, mid, id) && FollowsAt(mid, Run(w, events), id);
        EvolvesIsTransitive(w.cases[id], mid.cases[id], Run(w, events).cases[id]);
      }
    } else {
      Unchanged(w);
    }
  }

  ghost predicate Reachable(w: World) { exists events :: w == Run(Start, events) }

  lemma ReachableInv(w: World)
    requires Reachable(w)
    ensures WorldInv(w)
  {
    var events :| w == Run(Start, events);
    RunInv(Start, events);
  }
}
