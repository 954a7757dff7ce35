/** What the inbox promises over every run: lost replies, failed writes, late claims and restarts included. */
module InboxGuarantees {
  import opened Inbox
  import opened InboxInvariant

  /** Each row reaches business code at most once, and a lane's rows reach it in order. */
  lemma DispatchedAtMostOnceInOrder(events: seq<Event>, i: nat, j: nat)
    requires i < j < |Run(Start, events).log|
    ensures var log := Run(Start, events).log;
            log[i].row != log[j].row && (log[i].lane == log[j].lane ==> log[i].row < log[j].row)
  {
    RunInv(events);
    assert InOrder(Run(Start, events).log, i, j);
  }

  predicate WasDispatched(s: State, id: nat) { exists i :: 0 <= i < |s.log| && s.log[i].row == id }

  /** A row that reached business code never waits for it again. */
  lemma DispatchedNeverPends(events: seq<Event>, id: nat)
    requires var s := Run(Start, events); id in s.rows && WasDispatched(s, id)
    ensures Run(Start, events).rows[id].status != Pending
  {
    var s := Run(Start, events);
    RunInv(events);
    var i :| 0 <= i < |s.log| && s.log[i].row == id;
    assert DispatchOk(s, i);
  }

  lemma StaysDispatched(s: State, e: Event, id: nat)
    requires WasDispatched(s, id)
    ensures WasDispatched(Next(s, e), id)
  {
    var i :| 0 <= i < |s.log| && s.log[i].row == id;
    assert Next(s, e).log[i] == s.log[i];
  }

  /** Only an attempt that never began dispatch returns its row to the queue, and never after a third claim. */
  lemma OnlyUndispatchedReturn(events: seq<Event>, e: Event, id: nat)
    requires var s := Run(Start, events);
             id in s.rows && s.rows[id].status == Processing && id in Next(s, e).rows && Next(s, e).rows[id].status == Pending
    ensures !WasDispatched(Run(Start, events), id) && Run(Start, events).rows[id].attempts < CLAIMS
  {
    var s := Run(Start, events);
    RunInv(events);
    NextIsNew(s);
    AttemptsOnReturn(s, e, id);
    assert (events + [e])[..|events|] == events;
    if WasDispatched(s, id) {
      StaysDispatched(s, e, id);
      DispatchedNeverPends(events + [e], id);
    }
  }

  lemma AttemptsOnReturn(s: State, e: Event, id: nat)
    requires id in s.rows && s.rows[id].status == Processing && id in Next(s, e).rows && Next(s, e).rows[id].status == Pending
    requires s.next !in s.rows
    ensures s.rows[id].attempts < CLAIMS
  {
  }

  // ----- Claims -------------------------------------------------------------

  /** This step claims the row: it goes from PENDING to PROCESSING. */
  predicate ClaimsRow(s: State, s': State, id: nat) {
    id in s.rows && id in s'.rows && s.rows[id].status == Pending && s'.rows[id].status == Processing
  }

  function ClaimCount(events: seq<Event>, id: nat): nat {
    if events == [] then 0
    else
      var front := events[..|events| - 1];
      ClaimCount(front, id) + if ClaimsRow(Run(Start, front), Run(Start, events), id) then 1 else 0
  }

  lemma AttemptsCountClaims(s: State, e: Event, id: nat)
    requires s.next !in s.rows && id in s.rows && id in Next(s, e).rows
    ensures Next(s, e).rows[id].attempts == s.rows[id].attempts + if ClaimsRow(s, Next(s, e), id) then 1 else 0
  {
  }

  lemma NewRowsAreUnclaimed(s: State, e: Event, id: nat)
    requires id !in s.rows && id in Next(s, e).rows
    ensures id == s.next && Next(s, e).rows[id].attempts == 0 && id < Next(s, e).next
  {
  }

  lemma {:induction false} ClaimsAreCounted(events: seq<Event>, id: nat)
    ensures var s := Run(Start, events);
            && ClaimCount(events, id) <= CLAIMS
            && (id in s.rows ==> s.rows[id].attempts == ClaimCount(events, id))
            && (id >= s.next ==> ClaimCount(events, id) == 0)
  {
    if events != [] {
      var front, e := events[..|events| - 1], events[|events| - 1];
      var s := Run(Start, front);
      ClaimsAreCounted(front, id);
      RunInv(front);
      RunInv(events);
      NextIsNew(s);
      NextAdvances(s, e);
      if id in Next(s, e).rows {
        assert RowOk(Next(s, e), id);
        if id in s.rows { AttemptsCountClaims(s, e, id); } else { NewRowsAreUnclaimed(s, e, id); }
      }
      if id in s.rows { assert RowOk(s, id); }
    }
  }

  /** A row is claimed at most three times in its life. */
  lemma ClaimedAtMostThreeTimes(events: seq<Event>, id: nat)
    ensures ClaimCount(events, id) <= 3
  {
    ClaimsAreCounted(events, id);
  }

  // ----- Lanes --------------------------------------------------------------

  /** At most one row of a lane is being processed, although eligibility is read apart from the claim. */
  lemma OneProcessingPerLane(events: seq<Event>, a: nat, b: nat)
    requires var s := Run(Start, events);
             a in s.rows && b in s.rows && s.rows[a].lane == s.rows[b].lane
             && s.rows[a].status == Processing && s.rows[b].status == Processing
    ensures a == b
  {
    var s := Run(Start, events);
    RunInv(events);
    assert RowOk(s, a) && RowOk(s, b);
    assert !EarlierIs(s.rows, a, s.rows[b].lane, b) && !EarlierIs(s.rows, b, s.rows[a].lane, a);
  }

  lemma {:induction false} RunAdvances(before: seq<Event>, more: seq<Event>)
    ensures Advances(Run(Start, before), Run(Start, before + more))
  {
    hide Inv, Next, Run, Advances;
    if more == [] {
      assert before + more == before;
      AdvancesItself(Run(Start, before));
    } else {
      var front := more[..|more| - 1];
      RunAdvances(before, front);
      RunInv(before);
      RunInv(before + front);
      RunStep(before, more);
      NextAdvances(Run(Start, before + front), more[|more| - 1]);
      AdvancesCompose(Run(Start, before), Run(Start, before + front), Run(Start, before + more));
    }
  }

  lemma AdvancesItself(s: State)
    ensures Advances(s, s)
  {
  }

  lemma RunStep(before: seq<Event>, more: seq<Event>)
    requires more != []
    ensures Run(Start, before + more) == Next(Run(Start, before + more[..|more| - 1]), more[|more| - 1])
  {
    hide Next;
    assert (before + more)[..|before + more| - 1] == before + more[..|more| - 1];
  }

  lemma AdvancesCompose(a: State, b: State, c: State)
    requires Inv(a) && Advances(a, b) && Advances(b, c)
    ensures Advances(a, c)
  {
    forall id | id in c.rows ensures RowAdvances(a, c, id) {
      assert RowAdvances(b, c, id);
      if id in a.rows { assert RowOk(a, id); }
      if id in b.rows { assert RowAdvances(a, b, id); }
    }
  }

  /** Once all earlier rows of a lane are settled they stay settled, so a row that was eligible once is
    * still first in its lane whenever its claim arrives. */
  lemma EligibleStaysFirst(before: seq<Event>, more: seq<Event>, id: nat)
    requires var s := Run(Start, before); id in s.rows && HeadOfLane(s.rows, s.rows[id].lane, id)
    requires id in Run(Start, before + more).rows
    ensures var s' := Run(Start, before + more); HeadOfLane(s'.rows, s'.rows[id].lane, id)
  {
    var s := Run(Start, before);
    RunAdvances(before, more);
    RunInv(before);
    assert RowOk(s, id) && RowAdvances(s, Run(Start, before + more), id);
    HeadStays(s, Run(Start, before + more), s.rows[id].lane, id);
  }

  /** A received update has one row: no two rows share a key. */
  lemma OneRowPerUpdate(events: seq<Event>, a: nat, b: nat)
    requires var s := Run(Start, events); a in s.rows && b in s.rows && s.rows[a].key == s.rows[b].key
    ensures a == b
  {
    RunInv(events);
  }
}
