/** A confirmed draft becomes at most one incident, and only after its preview was acknowledged. */
module DraftScreensInvariant {
  import opened DraftScreens
  import opened Wrappers

  /** Tokens only move forward, and what a preview was bound with never changes. */
  predicate Grows(s: State, s': State) {
    && s.next <= s'.next && s.acknowledged <= s'.acknowledged
    && (forall p :: p in s.contents ==> p in s'.contents && s'.contents[p] == s.contents[p])
    && (forall p :: p in s'.contents && p !in s.contents ==> p >= s.next)
  }

  lemma SessionStays(s: State, s': State, row: Session)
    requires SessionOk(s, row) && Grows(s, s')
    ensures SessionOk(s', row)
  {
  }

  predicate KeptSender(s: State, w: nat, sender: Sender) {
    w in s.senders && sender.screen == s.senders[w].screen && sender.preview == s.senders[w].preview
  }

  /** The parts of the state that keep their meaning while tokens move forward. */
  lemma OthersStay(s: State, s': State)
    requires Inv(s) && Grows(s, s') && s'.incidents == s.incidents
    requires forall h :: h in s'.handlers ==>
               (h in s.handlers && s'.handlers[h] == s.handlers[h]) || SessionOk(s', s'.handlers[h].session)
    requires forall w :: w in s'.senders ==> KeptSender(s, w, s'.senders[w]) || SenderOk(s', s'.senders[w])
    requires forall p :: p in s'.contents ==> p < s'.next
    requires s'.session.Some? ==> s'.session.value.draft >= s.next || (s.session.Some? && s'.session.value.draft == s.session.value.draft)
    requires s'.session.Some? ==> SessionOk(s', s'.session.value)
    requires s'.session.Some? && s'.session.value.stage == Confirming && !s'.session.value.pending ==>
               s'.session.value.preview.Some? && s'.session.value.preview.value in s'.acknowledged
    ensures Inv(s')
  {
    forall h | h in s'.handlers ensures SessionOk(s', s'.handlers[h].session) {
      if h in s.handlers && s'.handlers[h] == s.handlers[h] { SessionStays(s, s', s.handlers[h].session); }
    }
    forall w | w in s'.senders ensures SenderOk(s', s'.senders[w]) {
      if w in s.senders { assert SenderOk(s, s.senders[w]); }
    }
    forall i | 0 <= i < |s'.incidents| ensures IncidentOk(s', i) { assert IncidentOk(s, i); }
    forall i, j | 0 <= i < j < |s'.incidents| ensures Apart(s', i, j) { assert Apart(s, i, j); }
  }

  lemma HandlerInv(s: State, e: Event)
    requires Inv(s) && (e.Tick? || e.Begin? || e.Drop? || e.Look? || e.Press? || e.Cancel?)
    ensures Inv(Next(s, e))
  {
    OthersStay(s, Next(s, e));
  }

  lemma SaveStepInv(s: State, handler: nat, stage: Stage, content: nat)
    requires Inv(s)
    ensures Inv(SaveDraftStep(s, handler, stage, content))
  {
    OthersStay(s, SaveDraftStep(s, handler, stage, content));
  }

  lemma ScreenInv(s: State, e: Event)
    requires Inv(s) && (e.SendScreen? || e.ShowPreview?)
    ensures Inv(Next(s, e))
  {
    OthersStay(s, Next(s, e));
  }

  lemma RowIsOk(s: State)
    requires Inv(s)
    ensures forall p :: p in s.contents ==> p < s.next
    ensures s.session.Some? ==> SessionOk(s, s.session.value)
    ensures s.session.Some? && s.session.value.stage == Confirming && !s.session.value.pending ==>
              s.session.value.preview.Some? && s.session.value.preview.value in s.acknowledged
  {
  }

  /** The delivery of a stored session goes on with the same screen. */
  lemma DeliveryStays(s: State, s': State, row: Session, job: Delivery)
    requires SessionOk(s, row) && row.delivery.Some? && s'.next == s.next && s'.contents == s.contents
    requires job.screen == row.delivery.value.screen && job.preview == row.delivery.value.preview
    ensures SessionOk(s', row.(delivery := Some(job)))
    ensures job.screen < s'.next && (job.preview <==> job.screen in s'.contents)
  {
  }

  lemma ClaimScreenInv(s: State, sender: nat)
    requires Inv(s)
    ensures Inv(ClaimScreen(s, sender))
  {
    hide Inv, SessionOk, IncidentOk, Apart;
    RowIsOk(s);
    var s' := ClaimScreen(s, sender);
    if s' != s {
      DeliveryStays(s, s', s.session.value, s'.session.value.delivery.value);
      OthersStay(s, s');
    }
  }

  lemma DisplayInv(s: State, sender: nat)
    requires Inv(s)
    ensures Inv(DisplayScreen(s, sender))
  {
    OthersStay(s, DisplayScreen(s, sender));
  }

  lemma FailureInv(s: State, sender: nat, giveUp: bool)
    requires Inv(s)
    ensures Inv(FailScreen(s, sender, giveUp))
  {
    OthersStay(s, FailScreen(s, sender, giveUp));
  }

  lemma ReplacementInv(s: State, sender: nat, content: nat, buttons: nat)
    requires Inv(s)
    ensures Inv(ReplaceLostPhotos(s, sender, content, buttons))
  {
    OthersStay(s, ReplaceLostPhotos(s, sender, content, buttons));
  }

  lemma AcknowledgeInv(s: State, sender: nat)
    requires Inv(s)
    ensures Inv(AcknowledgeScreen(s, sender))
  {
    if sender in s.senders { assert SenderOk(s, s.senders[sender]); }
    OthersStay(s, AcknowledgeScreen(s, sender));
  }

  lemma CreateInv(s: State, handler: nat)
    requires Inv(s)
    ensures Inv(CreateIncident(s, handler))
  {
    var s' := CreateIncident(s, handler);
    if s' != s {
      forall h | h in s'.handlers ensures SessionOk(s', s'.handlers[h].session) { assert SessionOk(s, s.handlers[h].session); }
      forall w | w in s'.senders ensures SenderOk(s', s'.senders[w]) { assert SenderOk(s, s.senders[w]); }
      forall i | 0 <= i < |s'.incidents| ensures IncidentOk(s', i) { if i < |s.incidents| { assert IncidentOk(s, i); } }
      forall i, j | 0 <= i < j < |s'.incidents| ensures Apart(s', i, j) {
        if j < |s.incidents| { assert Apart(s, i, j); } else { assert IncidentOk(s, i); }
      }
    }
  }

  lemma NextInv(s: State, e: Event)
    requires Inv(s)
    ensures Inv(Next(s, e))
  {
    hide Inv;
    match e {
      case SaveStep(handler, stage, content) => SaveStepInv(s, handler, stage, content);
      case SendScreen(_, _) => ScreenInv(s, e);
      case ShowPreview(_, _, _, _) => ScreenInv(s, e);
      case Create(handler) => CreateInv(s, handler);
      case Acknowledge(sender) => AcknowledgeInv(s, sender);
      case ClaimDelivery(sender) => ClaimScreenInv(s, sender);
      case Display(sender) => DisplayInv(s, sender);
      case FailDelivery(sender, giveUp) => FailureInv(s, sender, giveUp);
      case ReplacePhotos(sender, content, buttons) => ReplacementInv(s, sender, content, buttons);
      case _ => HandlerInv(s, e);
    }
  }

  lemma {:induction false} RunInv(events: seq<Event>)
    ensures Inv(Run(Start, events))
  {
    if events != [] {
      RunInv(events[..|events| - 1]);
      NextInv(Run(Start, events[..|events| - 1]), events[|events| - 1]);
    }
  }

  /** Under every interleaving of presses, deliveries, recoveries and late replies an incident carries exactly
    * the content of a preview that MAX acknowledged showing. */
  lemma IncidentsWerePreviewed(events: seq<Event>, i: nat)
    requires i < |Run(Start, events).incidents|
    ensures var s := Run(Start, events);
            var incident := s.incidents[i];
            incident.preview in s.acknowledged && incident.preview in s.contents && s.contents[incident.preview] == incident.content
  {
    RunInv(events);
    assert IncidentOk(Run(Start, events), i);
  }

  lemma DraftsDiffer(s: State, i: nat, j: nat)
    requires Inv(s) && i < j < |s.incidents|
    ensures s.incidents[i].draft != s.incidents[j].draft
  {
    assert Apart(s, i, j);
  }

  /** A draft becomes at most one incident, and nothing brings it back afterwards. */
  lemma OneIncidentPerDraft(events: seq<Event>, i: nat, j: nat)
    requires i < |Run(Start, events).incidents| && j < |Run(Start, events).incidents|
    requires Run(Start, events).incidents[i].draft == Run(Start, events).incidents[j].draft
    ensures i == j
    ensures var s := Run(Start, events); s.session.Some? ==> s.session.value.draft != s.incidents[i].draft
  {
    var s := Run(Start, events);
    RunInv(events);
    assert IncidentOk(s, i);
    if i < j { DraftsDiffer(s, i, j); } else if j < i { DraftsDiffer(s, j, i); }
  }

  // ----- One button per screen ----------------------------------------------

  /** The branch that fails: the copy being saved brings back the buttons of a screen already used. */
  predicate Resurrects(s: State, e: Event) {
    && e.SaveStep? && e.handler in s.handlers && SaveDraftStep(s, e.handler, e.stage, e.content) != s
    && s.handlers[e.handler].session.screen in s.executed && s.handlers[e.handler].session.buttons > 0
  }

  /** No button of a used screen leads anywhere. */
  predicate UsedUp(s: State) {
    s.session.Some? && s.session.value.screen in s.executed ==> s.session.value.buttons == 0
  }

  predicate OnceEach(executed: seq<nat>) { forall i, j :: 0 <= i < j < |executed| ==> executed[i] != executed[j] }

  predicate ExecutedOk(s: State) { forall i :: 0 <= i < |s.executed| ==> s.executed[i] < s.next }

  predicate SingleUse(s: State) { UsedUp(s) && OnceEach(s.executed) && ExecutedOk(s) }

  /** Saving a step makes a used screen's buttons work again exactly in that branch. */
  lemma ResurrectsIff(s: State, handler: nat, stage: Stage, content: nat)
    requires SingleUse(s) && SaveDraftStep(s, handler, stage, content) != s
    ensures UsedUp(SaveDraftStep(s, handler, stage, content)) <==> !Resurrects(s, SaveStep(handler, stage, content))
  {
  }

  lemma PressIsSingle(s: State, handler: nat, screen: nat, index: nat, confirm: bool)
    requires Inv(s) && SingleUse(s)
    ensures SingleUse(PressButton(s, handler, screen, index, confirm))
  {
  }

  lemma DraftStepsAreSingle(s: State, e: Event)
    requires Inv(s) && SingleUse(s)
    requires e.Tick? || e.Begin? || e.Drop? || e.Look? || e.SendScreen? || e.ShowPreview? || e.Cancel? || e.Create?
    ensures SingleUse(Next(s, e))
  {
    hide OnceEach, IncidentOk, Apart, SenderOk;
  }

  lemma DeliveryStepsAreSingle(s: State, e: Event)
    requires Inv(s) && SingleUse(s)
    requires e.ClaimDelivery? || e.Display? || e.Acknowledge? || e.FailDelivery? || e.ReplacePhotos?
    ensures SingleUse(Next(s, e))
  {
    hide OnceEach, IncidentOk, Apart;
  }

  lemma NextIsSingle(s: State, e: Event)
    requires Inv(s) && SingleUse(s) && !Resurrects(s, e)
    ensures SingleUse(Next(s, e))
  {
    hide Inv;
    match e {
      case Press(handler, screen, index, confirm) => PressIsSingle(s, handler, screen, index, confirm);
      case SaveStep(handler, stage, content) =>
        if SaveDraftStep(s, handler, stage, content) != s { ResurrectsIff(s, handler, stage, content); }
      case ClaimDelivery(_) => DeliveryStepsAreSingle(s, e);
      case Display(_) => DeliveryStepsAreSingle(s, e);
      case Acknowledge(_) => DeliveryStepsAreSingle(s, e);
      case FailDelivery(_, _) => DeliveryStepsAreSingle(s, e);
      case ReplacePhotos(_, _, _) => DeliveryStepsAreSingle(s, e);
      case _ => DraftStepsAreSingle(s, e);
    }
  }

  predicate NeverResurrects(events: seq<Event>) {
    forall n :: 0 <= n < |events| ==> !Resurrects(Run(Start, events[..n]), events[n])
  }

  lemma {:induction false} RunIsSingle(events: seq<Event>)
    requires NeverResurrects(events)
    ensures SingleUse(Run(Start, events))
  {
    if events != [] {
      var front := events[..|events| - 1];
      forall n | 0 <= n < |front| ensures !Resurrects(Run(Start, front[..n]), front[n]) {
        assert front[..n] == events[..n] && front[n] == events[n];
      }
      RunIsSingle(front);
      RunInv(front);
      NextIsSingle(Run(Start, front), events[|events| - 1]);
    }
  }

  /** A screen token executes at most one button, whatever presses, deliveries and late replies interleave,
    * as long as no stale copy brings back used buttons. */
  lemma OneButtonPerScreen(events: seq<Event>, i: nat, j: nat)
    requires NeverResurrects(events) && i < j < |Run(Start, events).executed|
    ensures Run(Start, events).executed[i] != Run(Start, events).executed[j]
  {
    RunIsSingle(events);
  }

  /** When one does, the screen can be used a second time by the next press. */
  lemma ResurrectedButtonRunsAgain(s: State, e: Event, handler: nat)
    requires Inv(s) && Resurrects(s, e)
    ensures var saved := Next(s, e);
            var pressed := Next(Next(saved, Look(handler)), Press(handler, saved.session.value.screen, 0, false));
            saved.session.Some? && saved.session.value.screen in s.executed
            && pressed.executed == s.executed + [saved.session.value.screen]
  {
  }

  ghost predicate Reachable(s: State) { exists events :: s == Run(Start, events) }

  lemma OneMore(s: State, e: Event)
    requires Reachable(s)
    ensures Reachable(Next(s, e))
  {
    var events :| s == Run(Start, events);
    assert (events + [e])[..|events|] == events;
    assert Run(Start, events + [e]) == Next(s, e);
  }

  /** The draft's first screen, with two buttons, as two handlers have read it. */
  lemma ReadByTwo() returns (s: State)
    ensures Reachable(s) && s.session == Some(Session(0, 0, Collecting, 1, 2, Some(Delivery(1, false, 0, Queued, 0)), None, false, 7))
    ensures s.executed == [] && 1 in s.handlers && 2 in s.handlers
    ensures s.handlers[1] == Copy(s.session.value, 0) && s.handlers[2] == Copy(s.session.value, 0)
  {
    assert Run(Start, []) == Start;
    OneMore(Start, Begin(7));
    var begun := Next(Start, Begin(7));
    OneMore(begun, Look(0));
    var looked := Next(begun, Look(0));
    OneMore(looked, SendScreen(0, 2));
    var shown := Next(looked, SendScreen(0, 2));
    OneMore(shown, Look(1));
    OneMore(Next(shown, Look(1)), Look(2));
    s := Next(Next(shown, Look(1)), Look(2));
  }

  /** A run that reaches the branch: handler 2 uses a button of the screen, then handler 1 saves its older copy. */
  lemma StaleCopyResurrects() returns (s: State)
    ensures Reachable(s) && Resurrects(s, SaveStep(1, Editing, 8))
  {
    hide Reachable;
    var read := ReadByTwo();
    OneMore(read, Press(2, 1, 0, false));
    s := Next(read, Press(2, 1, 0, false));
  }

  // ----- The resident lock --------------------------------------------------

  /** What the resident lock gives a handler: no button was executed since it read the session it saves. */
  predicate Undisturbed(s: State, e: Event) {
    e.SaveStep? && e.handler in s.handlers ==> s.handlers[e.handler].executed == |s.executed|
  }

  /** A copy taken after a screen was used shows it without buttons. */
  predicate CopyOk(s: State, h: nat)
    requires h in s.handlers
  {
    var copy := s.handlers[h];
    copy.executed <= |s.executed| && (copy.session.screen in s.executed[..copy.executed] ==> copy.session.buttons == 0)
  }

  predicate CopiesOk(s: State) { forall h :: h in s.handlers ==> CopyOk(s, h) }

  lemma CopyStays(s: State, s': State, h: nat)
    requires h in s.handlers && h in s'.handlers && s'.handlers[h] == s.handlers[h] && CopyOk(s, h) && s.executed <= s'.executed
    ensures CopyOk(s', h)
  {
    assert s'.executed[..s.handlers[h].executed] == s.executed[..s.handlers[h].executed];
  }

  lemma NewCopyOk(s: State, e: Event, h: nat)
    requires SingleUse(s) && h in Next(s, e).handlers && (h !in s.handlers || Next(s, e).handlers[h] != s.handlers[h])
    ensures CopyOk(Next(s, e), h)
  {
    hide OnceEach, ExecutedOk, Matches;
    assert s.executed[..|s.executed|] == s.executed;
  }

  lemma NextCopies(s: State, e: Event)
    requires SingleUse(s) && CopiesOk(s)
    ensures CopiesOk(Next(s, e))
  {
    hide Next, SingleUse, CopyOk;
    var s' := Next(s, e);
    forall h | h in s'.handlers ensures CopyOk(s', h) {
      if h in s.handlers && s'.handlers[h] == s.handlers[h] {
        ExecutedGrows(s, e);
        CopyStays(s, s', h);
      } else {
        NewCopyOk(s, e, h);
      }
    }
  }

  lemma ExecutedGrows(s: State, e: Event)
    ensures s.executed <= Next(s, e).executed
  {
  }

  predicate Locked(events: seq<Event>) {
    forall n :: 0 <= n < |events| ==> Undisturbed(Run(Start, events[..n]), events[n])
  }

  /** Handlers that keep the lock from their read to their save never bring a button back. */
  lemma {:induction false} LockedNeverResurrects(events: seq<Event>)
    requires Locked(events)
    ensures NeverResurrects(events) && CopiesOk(Run(Start, events))
  {
    if events != [] {
      var front, e := events[..|events| - 1], events[|events| - 1];
      forall n | 0 <= n < |front| ensures Undisturbed(Run(Start, front[..n]), front[n]) {
        assert front[..n] == events[..n] && front[n] == events[n];
      }
      LockedNeverResurrects(front);
      RunIsSingle(front);
      var s := Run(Start, front);
      NextCopies(s, e);
      forall n | 0 <= n < |events| ensures !Resurrects(Run(Start, events[..n]), events[n]) {
        if n < |front| {
          assert front[..n] == events[..n] && front[n] == events[n];
        } else if e.SaveStep? && e.handler in s.handlers {
          assert CopyOk(s, e.handler) && s.executed[..|s.executed|] == s.executed;
        }
      }
    }
  }

  /** So under the lock every screen token executes at most one button. */
  lemma LockedScreensAreSingleUse(events: seq<Event>, i: nat, j: nat)
    requires Locked(events) && i < j < |Run(Start, events).executed|
    ensures Run(Start, events).executed[i] != Run(Start, events).executed[j]
  {
    LockedNeverResurrects(events);
    OneButtonPerScreen(events, i, j);
  }
}
