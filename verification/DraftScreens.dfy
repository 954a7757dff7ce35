/** A resident's draft and its screens (src/bot/draft-screen.ts, src/bot/draft-screen-delivery.ts,
  * src/bot/requester-draft.ts, src/sessions/operator-session.service.ts, src/incidents/incident.service.ts:174-186).
  * One stored session; every handler and every delivery works on a copy it read earlier and writes by
  * compare-and-swap. Tokens are fresh numbers; a preview is named after the screen it was bound with. */
module DraftScreens {
  import opened Wrappers

  datatype Stage = Collecting | Confirming | Editing

  datatype DeliveryStatus = Queued | Sending | GivenUp

  /** The screen still to be shown, saved with the session. */
  datatype Delivery = Delivery(screen: nat, preview: bool, attempts: nat, status: DeliveryStatus, nextAt: int)

  /** One session row: the whole value is compared by every swap. `buttons` is the number of actions the
    * screen's buttons still lead to. */
  datatype Session = Session(id: nat, draft: nat, stage: Stage, screen: nat, buttons: nat, delivery: Option<Delivery>,
    preview: Option<nat>, pending: bool, content: nat)

  /** What a handler read, and how many buttons had been executed by then. */
  datatype Copy = Copy(session: Session, executed: nat)

  /** A delivery attempt in memory. */
  datatype Sender = Sender(id: nat, draft: nat, stage: Stage, screen: nat, preview: bool, attempts: nat, nextAt: int, displayed: bool)

  datatype Incident = Incident(draft: nat, preview: nat, content: nat)

  datatype State = State(now: int, next: nat, session: Option<Session>, handlers: map<nat, Copy>, senders: map<nat, Sender>,
    contents: map<nat, nat>, acknowledged: set<nat>, executed: seq<nat>, incidents: seq<Incident>)

  datatype Event =
    | Tick(ms: nat)
    | Begin(content: nat)
    | Drop
    | Look(handler: nat)
    | Press(handler: nat, screen: nat, index: nat, confirm: bool)
    | SaveStep(handler: nat, stage: Stage, content: nat)
    | SendScreen(handler: nat, buttons: nat)
    | ShowPreview(handler: nat, exact: bool, content: nat, buttons: nat)
    | Cancel(handler: nat)
    | Create(handler: nat)
    | ClaimDelivery(sender: nat)
    | Display(sender: nat)
    | Acknowledge(sender: nat)
    | FailDelivery(sender: nat, giveUp: bool)
    | ReplacePhotos(sender: nat, content: nat, buttons: nat)

  const LEASE_MS: int := 300_000
  const ATTEMPTS: nat := 4

  /** A new draft; the row keeps its id when one is there. */
  function BeginDraft(s: State, content: nat): State {
    var id := if s.session.Some? then s.session.value.id else s.next;
    s.(session := Some(Session(id, s.next, Collecting, s.next, 0, None, None, false, content)), next := s.next + 1)
  }

  function LookAt(s: State, handler: nat): State {
    if s.session.None? then s else s.(handlers := s.handlers[handler := Copy(s.session.value, |s.executed|)])
  }

  /** `replaceCurrent`: only the value that was read is replaced. */
  predicate Current(s: State, copy: Session) { s.session == Some(copy) }

  /** `consumeDraftButton`: the screen's buttons are given up before the action runs. */
  function PressButton(s: State, handler: nat, screen: nat, index: nat, confirm: bool): State {
    if handler !in s.handlers then s
    else
      var copy := s.handlers[handler].session;
      if screen != copy.screen || index >= copy.buttons || (copy.pending && confirm) || !Current(s, copy) then s
      else s.(session := Some(copy.(buttons := 0, delivery := None)), executed := s.executed + [screen])
  }

  /** `saveDraftStep`: the row is found anew and only its draft token is compared with the copy that is
    * written; the stages it is called with never are the confirmation. */
  function SaveDraftStep(s: State, handler: nat, stage: Stage, content: nat): State {
    if handler !in s.handlers || s.session.None? || stage == Confirming then s
    else
      var copy := s.handlers[handler].session;
      if s.session.value.draft != copy.draft then s
      else s.(session := Some(copy.(id := s.session.value.id, stage := stage, content := content)))
  }

  /** `bindDraftKeyboard` and `prepareScreenDelivery`: a fresh token with its own buttons and delivery. */
  function Bound(s: State, base: Session, buttons: nat, preview: bool): Session {
    base.(screen := s.next, buttons := buttons, delivery := Some(Delivery(s.next, preview, 0, Queued, s.now)))
  }

  function SendDraftScreen(s: State, handler: nat, buttons: nat): State {
    if handler !in s.handlers || !Current(s, s.handlers[handler].session) then s
    else s.(session := Some(Bound(s, s.handlers[handler].session, buttons, false)), next := s.next + 1)
  }

  /** `showIncidentDraftPreview`: with the row the handler read, or with the row found anew. */
  function ShowDraftPreview(s: State, handler: nat, exact: bool, content: nat, buttons: nat): State {
    if handler !in s.handlers || s.session.None? then s
    else
      var copy := s.handlers[handler].session;
      if (exact && !Current(s, copy)) || s.session.value.draft != copy.draft then s
      else
        var base := copy.(id := s.session.value.id, stage := Confirming, content := content, preview := Some(s.next), pending := true);
        var shown := Bound(s, base, buttons, true);
        s.(session := Some(shown), contents := s.contents[s.next := content], next := s.next + 1)
  }

  function CancelDraft(s: State, handler: nat): State {
    if handler in s.handlers && Current(s, s.handlers[handler].session) then s.(session := None) else s
  }

  /** `create`: the transaction consumes the session whose preview the handler confirmed; the text it
    * registers is the handler's copy. */
  function CreateIncident(s: State, handler: nat): State {
    if handler !in s.handlers || s.session.None? then s
    else
      var copy, row := s.handlers[handler].session, s.session.value;
      if copy.stage != Confirming || copy.preview.None? || row.stage != Confirming || row.preview != copy.preview || row.pending then s
      else s.(session := None, incidents := s.incidents + [Incident(row.draft, copy.preview.value, copy.content)])
  }

  // ----- Delivery -----------------------------------------------------------

  function ClaimScreen(s: State, sender: nat): State {
    if sender in s.senders || s.session.None? || s.session.value.delivery.None? then s
    else
      var row := s.session.value;
      var job := row.delivery.value;
      if job.screen != row.screen || job.status == GivenUp || job.nextAt > s.now then s
      else if job.attempts >= ATTEMPTS then s.(session := Some(row.(delivery := Some(job.(status := GivenUp)))))
      else
        var claimed := job.(status := Sending, attempts := job.attempts + 1, nextAt := s.now + LEASE_MS);
        s.(session := Some(row.(delivery := Some(claimed))),
           senders := s.senders[sender :=
             Sender(row.id, row.draft, row.stage, row.screen, job.preview, claimed.attempts, claimed.nextAt, false)])
  }

  /** `matches`: the stored screen is still the one this attempt claimed. */
  predicate Matches(s: State, w: Sender) {
    && s.session.Some?
    && var row := s.session.value;
       && row.id == w.id && row.stage == w.stage && row.draft == w.draft && row.screen == w.screen && row.delivery.Some?
       && row.delivery.value.screen == w.screen && row.delivery.value.status == Sending
       && row.delivery.value.attempts == w.attempts && row.delivery.value.nextAt == w.nextAt
  }

  function DisplayScreen(s: State, sender: nat): State {
    if sender !in s.senders then s else s.(senders := s.senders[sender := s.senders[sender].(displayed := true)])
  }

  function Done(s: State, sender: nat): State { s.(senders := s.senders - {sender}) }

  /** The reply arrived, however late: it counts only for the screen that is still awaited. */
  function AcknowledgeScreen(s: State, sender: nat): State {
    if sender !in s.senders || !s.senders[sender].displayed then s
    else
      var w := s.senders[sender];
      if !Matches(s, w) then Done(s, sender)
      else
        var row := s.session.value.(delivery := None);
        Done(s.(session := Some(if w.preview then row.(pending := false) else row),
                acknowledged := if w.preview then s.acknowledged + {w.screen} else s.acknowledged), sender)
  }

  function FailScreen(s: State, sender: nat, giveUp: bool): State {
    if sender !in s.senders then s
    else
      var w := s.senders[sender];
      if !Matches(s, w) then Done(s, sender)
      else
        var status := if giveUp || w.attempts >= ATTEMPTS then GivenUp else Queued;
        var job := s.session.value.delivery.value.(status := status, nextAt := s.now);
        Done(s.(session := Some(s.session.value.(delivery := Some(job)))), sender)
  }

  /** A preview whose photo is gone becomes a photo question, in one swap with its own screen. */
  function ReplaceLostPhotos(s: State, sender: nat, content: nat, buttons: nat): State {
    if sender !in s.senders || !s.senders[sender].preview then s
    else
      var w := s.senders[sender];
      if !Matches(s, w) then Done(s, sender)
      else
        var row := s.session.value.(stage := Editing, content := content, pending := false);
        Done(s.(session := Some(Bound(s, row, buttons, false)), next := s.next + 1), sender)
  }

  function Next(s: State, e: Event): State {
    match e
    case Tick(ms) => s.(now := s.now + ms)
    case Begin(content) => BeginDraft(s, content)
    case Drop => s.(session := None)
    case Look(handler) => LookAt(s, handler)
    case Press(handler, screen, index, confirm) => PressButton(s, handler, screen, index, confirm)
    case SaveStep(handler, stage, content) => SaveDraftStep(s, handler, stage, content)
    case SendScreen(handler, buttons) => SendDraftScreen(s, handler, buttons)
    case ShowPreview(handler, exact, content, buttons) => ShowDraftPreview(s, handler, exact, content, buttons)
    case Cancel(handler) => CancelDraft(s, handler)
    case Create(handler) => CreateIncident(s, handler)
    case ClaimDelivery(sender) => ClaimScreen(s, sender)
    case Display(sender) => DisplayScreen(s, sender)
    case Acknowledge(sender) => AcknowledgeScreen(s, sender)
    case FailDelivery(sender, giveUp) => FailScreen(s, sender, giveUp)
    case ReplacePhotos(sender, content, buttons) => ReplaceLostPhotos(s, sender, content, buttons)
  }

  function Run(s: State, events: seq<Event>): State {
    if events == [] then s else Next(Run(s, events[..|events| - 1]), events[|events| - 1])
  }

  const Start: State := State(0, 0, None, map[], map[], map[], {}, [], [])

  // ----- One incident, after its preview was shown --------------------------

  /** A stored or copied session: at the confirmation stage it holds exactly what its preview was bound with. */
  predicate SessionOk(s: State, row: Session) {
    && row.draft < s.next && row.screen < s.next
    && (row.delivery.Some? ==>
          row.delivery.value.screen < s.next && (row.delivery.value.preview <==> row.delivery.value.screen in s.contents))
    && (row.stage == Confirming ==>
          row.preview.Some? && row.preview.value in s.contents && s.contents[row.preview.value] == row.content)
    && (row.stage == Confirming && row.delivery.Some? && row.delivery.value.preview ==> row.preview == Some(row.delivery.value.screen))
  }

  predicate SenderOk(s: State, w: Sender) {
    w.screen < s.next && (w.preview <==> w.screen in s.contents)
  }

  predicate IncidentOk(s: State, i: nat)
    requires i < |s.incidents|
  {
    var incident := s.incidents[i];
    && incident.draft < s.next && (s.session.Some? ==> s.session.value.draft != incident.draft)
    && incident.preview in s.contents && s.contents[incident.preview] == incident.content && incident.preview in s.acknowledged
  }

  predicate Apart(s: State, i: nat, j: nat)
    requires i < j < |s.incidents|
  {
    s.incidents[i].draft != s.incidents[j].draft
  }

  predicate Inv(s: State) {
    && (s.session.Some? ==> SessionOk(s, s.session.value))
    && (s.session.Some? && s.session.value.stage == Confirming && !s.session.value.pending ==>
          s.session.value.preview.Some? && s.session.value.preview.value in s.acknowledged)
    && (forall h :: h in s.handlers ==> SessionOk(s, s.handlers[h].session))
    && (forall w :: w in s.senders ==> SenderOk(s, s.senders[w]))
    && (forall p :: p in s.contents ==> p < s.next)
    && (forall i :: 0 <= i < |s.incidents| ==> IncidentOk(s, i))
    && (forall i, j :: 0 <= i < j < |s.incidents| ==> Apart(s, i, j))
  }
}
