/** The stored session and the handlers' copies as they change in place (src/sessions/operator-session.service.ts:132-147,
  * src/bot/draft-screen.ts:40-83, src/bot/draft-screen-delivery.ts:118-190, src/incidents/incident.service.ts:174-186). */
module DraftService {
  import opened DraftScreens
  import opened DraftScreensInvariant
  import opened Wrappers

  /** The stored screen has a delivery that is due and has attempts left. */
  predicate Awaited(s: State) {
    && s.session.Some? && s.session.value.delivery.Some?
    && var row, job := s.session.value, s.session.value.delivery.value;
       job.screen == row.screen && job.status != GivenUp && job.nextAt <= s.now && job.attempts < ATTEMPTS
  }

  class ResidentDrafts {
    var now: int
    var next: nat
    var session: Option<Session>
    var handlers: map<nat, Copy>
    var senders: map<nat, Sender>
    var contents: map<nat, nat>
    var acknowledged: set<nat>
    var executed: seq<nat>
    var incidents: seq<Incident>

    function State(): DraftScreens.State
      reads this
    {
      DraftScreens.State(now, next, session, handlers, senders, contents, acknowledged, executed, incidents)
    }

    constructor ()
      ensures State() == Start
    {
      now, next, session, handlers, senders := 0, 0, None, map[], map[];
      contents, acknowledged, executed, incidents := map[], {}, [], [];
    }

    /** Only the value that was read is replaced: a changed, consumed or deleted session refuses. */
    method ReplaceCurrent(copy: Session, row: Session) returns (changed: bool)
      modifies this`session
      ensures changed <==> old(session) == Some(copy)
      ensures session == if changed then Some(row) else old(session)
    {
      if session.None? || session.value != copy { return false; }
      session := Some(row);
      return true;
    }

    method ClearCurrent(copy: Session) returns (removed: bool)
      modifies this`session
      ensures removed <==> old(session) == Some(copy)
      ensures session == if removed then None else old(session)
    {
      if session.None? || session.value != copy { return false; }
      session := None;
      return true;
    }

    method ConsumeDraftButton(handler: nat, screen: nat, index: nat, confirm: bool) returns (ok: bool)
      modifies this`session, this`executed
      ensures State() == Next(old(State()), Press(handler, screen, index, confirm))
      ensures ok <==> executed == old(executed) + [screen]
      ensures ok ==> session.Some? && session.value.screen == screen && session.value.buttons == 0 && session.value.delivery.None?
      ensures !ok ==> session == old(session) && executed == old(executed)
    {
      if handler !in handlers { return false; }
      var copy := handlers[handler].session;
      if screen != copy.screen || index >= copy.buttons { return false; }
      if copy.pending && confirm { return false; }
      var consumed := copy.(buttons := 0);
      consumed := consumed.(delivery := None);
      ok := ReplaceCurrent(copy, consumed);
      if ok { executed := executed + [screen]; }
    }

    /** The row is found anew: only the draft token of the written copy is compared. */
    method SaveDraftStepOf(handler: nat, stage: Stage, content: nat) returns (ok: bool)
      modifies this`session
      ensures State() == Next(old(State()), SaveStep(handler, stage, content))
      ensures ok <==> handler in handlers && old(session).Some? && stage != Confirming
                      && old(session).value.draft == handlers[handler].session.draft
      ensures if ok then session.Some? && session.value.id == old(session).value.id && session.value.draft == old(session).value.draft
              else session == old(session)
    {
      if handler !in handlers || session.None? || stage == Confirming { return false; }
      var found, data := session.value, handlers[handler].session;
      if found.draft != data.draft { return false; }
      data := data.(id := found.id, stage := stage);
      data := data.(content := content);
      ok := ReplaceCurrent(found, data);
    }

    method SendDraftScreenTo(handler: nat, buttons: nat) returns (ok: bool)
      modifies this`session, this`next
      ensures State() == Next(old(State()), SendScreen(handler, buttons))
      ensures ok <==> handler in handlers && old(session) == Some(handlers[handler].session)
      ensures if ok then session.Some? && session.value.screen == old(next) && next == old(next) + 1
              else session == old(session) && next == old(next)
    {
      if handler !in handlers { return false; }
      var copy := handlers[handler].session;
      var data := copy.(screen := next, buttons := buttons);
      data := data.(delivery := Some(Delivery(next, false, 0, Queued, now)));
      ok := ReplaceCurrent(copy, data);
      if ok { next := next + 1; }
    }

    method ShowIncidentDraftPreview(handler: nat, exact: bool, content: nat, buttons: nat) returns (ok: bool)
      modifies this`session, this`next, this`contents
      ensures State() == Next(old(State()), ShowPreview(handler, exact, content, buttons))
      ensures ok ==> && session.Some? && session.value.stage == Confirming && session.value.pending
                     && session.value.preview == Some(old(next)) && old(next) in contents && contents[old(next)] == content
      ensures !ok ==> session == old(session) && next == old(next) && contents == old(contents)
    {
      if handler !in handlers || session.None? { return false; }
      var data := handlers[handler].session;
      var expected := if exact then data else session.value;
      if session.value.draft != data.draft { return false; }
      data := data.(id := session.value.id, stage := Confirming, content := content);
      data := data.(preview := Some(next), pending := true);
      data := data.(screen := next, buttons := buttons);
      data := data.(delivery := Some(Delivery(next, true, 0, Queued, now)));
      ok := ReplaceCurrent(expected, data);
      if ok {
        contents := contents[next := content];
        next := next + 1;
      }
    }

    method CancelDraftOf(handler: nat) returns (ok: bool)
      modifies this`session
      ensures State() == Next(old(State()), Cancel(handler))
      ensures ok <==> handler in handlers && old(session) == Some(handlers[handler].session)
      ensures session == if ok then None else old(session)
    {
      if handler !in handlers { return false; }
      ok := ClearCurrent(handlers[handler].session);
    }

    /** The session is consumed in the transaction that registers the incident. */
    method CreateFromDraft(handler: nat) returns (ok: bool)
      modifies this`session, this`incidents
      ensures State() == Next(old(State()), Create(handler))
      ensures ok ==> && session.None? && old(session).Some? && !old(session).value.pending
                     && |incidents| == |old(incidents)| + 1 && old(incidents) <= incidents
                     && Some(incidents[|old(incidents)|].preview) == old(session).value.preview
      ensures !ok ==> session == old(session) && incidents == old(incidents)
    {
      if handler !in handlers || session.None? { return false; }
      var input, row := handlers[handler].session, session.value;
      if input.stage != Confirming || input.preview.None? { return false; }
      if row.stage != Confirming || row.preview != input.preview || row.pending { return false; }
      ok := ClearCurrent(row);
      incidents := incidents + [Incident(row.draft, input.preview.value, input.content)];
    }

    method ClaimSavedScreen(sender: nat) returns (ok: bool)
      modifies this`session, this`senders
      ensures State() == Next(old(State()), ClaimDelivery(sender))
      ensures ok <==> sender !in old(senders) && Awaited(old(State()))
      ensures ok ==> old(session).Some? && old(session).value.delivery.Some? && session.Some? && sender in senders
      ensures ok ==> Matches(State(), senders[sender]) && senders[sender].preview == old(session).value.delivery.value.preview
                     && session.value == old(session).value.(delivery := session.value.delivery)
      ensures ok ==> session.value.delivery.Some? && session.value.delivery.value.attempts == old(session).value.delivery.value.attempts + 1
    {
      if sender in senders || session.None? || session.value.delivery.None? { return false; }
      var row := session.value;
      var job := row.delivery.value;
      if job.screen != row.screen || job.status == GivenUp || job.nextAt > now { return false; }
      if job.attempts >= ATTEMPTS {
        session := Some(row.(delivery := Some(job.(status := GivenUp))));
        return false;
      }
      job := job.(status := Sending, attempts := job.attempts + 1, nextAt := now + LEASE_MS);
      session := Some(row.(delivery := Some(job)));
      senders := senders[sender := Sender(row.id, row.draft, row.stage, row.screen, job.preview, job.attempts, job.nextAt, false)];
      return true;
    }

    method ConfirmShown(sender: nat) returns (ok: bool)
      requires sender in senders && senders[sender].displayed
      modifies this`session, this`senders, this`acknowledged
      ensures State() == Next(old(State()), Acknowledge(sender))
      ensures ok <==> Matches(old(State()), old(senders)[sender])
      ensures var w := old(senders)[sender];
              ok ==> session == Some(old(session).value.(delivery := None, pending := old(session).value.pending && !w.preview))
                     && (w.preview ==> w.screen in acknowledged)
    {
      var w := senders[sender];
      senders := senders - {sender};
      if !Matches(State(), w) { return false; }
      var row := session.value.(delivery := None);
      if w.preview {
        row := row.(pending := false);
        acknowledged := acknowledged + {w.screen};
      }
      session := Some(row);
      return true;
    }

    method ScheduleRetry(sender: nat, giveUp: bool)
      requires sender in senders
      modifies this`session, this`senders
      ensures State() == Next(old(State()), FailDelivery(sender, giveUp))
      ensures Matches(old(State()), old(senders)[sender]) ==>
                && session.Some? && session.value.delivery.Some? && session.value.delivery.value.status != Sending
                && session.value == old(session).value.(delivery := session.value.delivery)
                && session.value.delivery.value.attempts == old(session).value.delivery.value.attempts
    {
      var w := senders[sender];
      senders := senders - {sender};
      if !Matches(State(), w) { return; }
      var job := session.value.delivery.value;
      job := job.(status := if giveUp || w.attempts >= ATTEMPTS then GivenUp else Queued, nextAt := now);
      session := Some(session.value.(delivery := Some(job)));
    }

    /** One delivery that nobody overtakes: it ends acknowledged exactly when the awaited screen was shown, and only
      * then is the job gone and a preview confirmable; a failed one keeps its job, with one more attempt counted. */
    method DeliverSavedScreen(sender: nat, shown: bool, giveUp: bool) returns (sent: bool)
      requires Inv(State())
      modifies this`session, this`senders, this`acknowledged
      ensures Inv(State())
      ensures sent <==> shown && sender !in old(senders) && Awaited(old(State()))
      ensures sent ==>
                var row, preview := old(session).value, old(session).value.delivery.value.preview;
                session == Some(row.(delivery := None, pending := row.pending && !preview)) && (preview ==> row.screen in acknowledged)
      ensures !shown && sender !in old(senders) && Awaited(old(State())) ==>
                && session.Some? && session.value.delivery.Some? && session.value.delivery.value.status != Sending
                && session.value == old(session).value.(delivery := session.value.delivery)
                && session.value.delivery.value.attempts == old(session).value.delivery.value.attempts + 1
                && acknowledged == old(acknowledged)
    {
      hide Inv;
      NextInv(State(), ClaimDelivery(sender));
      var claimed := ClaimSavedScreen(sender);
      if !claimed { return false; }
      if !shown {
        NextInv(State(), FailDelivery(sender, giveUp));
        ScheduleRetry(sender, giveUp);
        return false;
      }
      NextInv(State(), Display(sender));
      senders := senders[sender := senders[sender].(displayed := true)];
      NextInv(State(), Acknowledge(sender));
      sent := ConfirmShown(sender);
    }
  }
}
