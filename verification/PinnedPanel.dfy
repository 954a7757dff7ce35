/** The queue panel of a chat (src/max/pinned-panel.service.ts): a send intent is stored before the one POST
  * that creates it, its identity is stored before it gets buttons, and replaced panels are retired. The
  * refreshes of one chat run one at a time; any call may fail, take effect without its reply or after it was
  * given up, or show an incomplete history. */
module PinnedPanel {
  import opened Wrappers

  /** A panel message in the chat; a retired one carries the stale notice. */
  datatype Panel = Panel(buttons: bool, retired: bool)

  /** What a running refresh does next. */
  datatype Phase =
    | Reading
    | Searching
    | Posting(intent: nat)
    | Committing(id: nat)
    | Editing(id: nat)
    | Retiring

  datatype Post = Post(intent: nat, accepted: Option<nat>)

  /** An edit whose call failed and which MAX may still apply: the panel's buttons, or the stale notice. */
  datatype LateEdit = Buttons(id: nat) | Notice(id: nat)

  datatype State = State(panels: map<nat, Panel>, next: nat, identity: Option<nat>, intent: Option<nat>, issued: nat,
    missing: Option<nat>, retire: set<nat>, refresh: Option<Phase>, posts: seq<Post>, late: set<LateEdit>)

  datatype Event =
    | Begin
    | ReadOwn
    | ReadMissing
    | Find(candidates: set<nat>, chosen: nat, write: Write)
    | FindNothing(confirmed: bool, write: Write)
    | Send(accepted: bool, heard: bool)
    | Commit(write: Write)
    | Edit(applied: bool, heard: bool)
    | SameContent
    | Retire(id: nat, applied: bool, write: Write)
    | Finish
    | Crash
    | Remove(id: nat)
    | Land(edit: LateEdit)

  predicate In(s: State, phase: Phase) { s.refresh == Some(phase) }

  function Ended(s: State): State { s.(refresh := None) }

  function BeginRefresh(s: State): State { if s.refresh.Some? then s else s.(refresh := Some(Reading)) }

  /** A stored panel that can be read and leaves no intent open is simply updated. */
  function ReadPanel(s: State): State {
    if !In(s, Reading) || s.identity.None? || s.identity.value !in s.panels || s.panels[s.identity.value].retired then s
    else
      s.(missing := None, refresh := Some(if s.intent.Some? then Searching else Editing(s.identity.value)))
  }

  /** A 404 may also mean lost access. */
  function ReadNothing(s: State): State { if !In(s, Reading) then s else s.(refresh := Some(Searching)) }

  /** `findPanels` and the pin: the identity itself if it is among them; every other panel is to be retired.
    * The choice is committed together with the end of the intent. */
  function FindPanels(s: State, candidates: set<nat>, chosen: nat, write: Write): State {
    if !In(s, Searching) || chosen !in candidates || !(candidates <= s.panels.Keys)
      || (exists id :: id in candidates && s.panels[id].retired)
      || (s.identity.Some? && s.identity.value in candidates && chosen != s.identity.value) then s
    else if write == NotWritten then Ended(s)
    else
      var replaced := if s.identity.Some? then {s.identity.value} else {};
      s.(identity := Some(chosen), intent := None, missing := None, retire := s.retire + ((replaced + candidates) - {chosen}),
         refresh := if write == Written then Some(Editing(chosen)) else None)
  }

  /** Nothing found: an open intent waits; a missing panel is confirmed on a later sweep; only then is a new
    * intent stored. */
  function FindNoPanel(s: State, confirmed: bool, write: Write): State {
    if !In(s, Searching) then s
    else if s.intent.Some? || write == NotWritten then Ended(s)
    else if s.identity.Some? && (s.missing != s.identity || !confirmed) then Ended(s.(missing := s.identity))
    else
      var replaced := if s.identity.Some? then {s.identity.value} else {};
      s.(intent := Some(s.issued), issued := s.issued + 1, retire := s.retire + replaced,
         refresh := if write == Written then Some(Posting(s.issued)) else None)
  }

  /** The one POST of an intent; the provisional copy has no buttons. */
  function SendPanel(s: State, accepted: bool, heard: bool): State {
    if s.refresh.None? || !s.refresh.value.Posting? then s
    else
      var n := s.refresh.value.intent;
      if !accepted then Ended(s.(posts := s.posts + [Post(n, None)]))
      else
        s.(panels := s.panels[s.next := Panel(false, false)], next := s.next + 1, posts := s.posts + [Post(n, Some(s.next))],
           refresh := if heard then Some(Committing(s.next)) else None)
  }

  function CommitPanel(s: State, write: Write): State {
    if s.refresh.None? || !s.refresh.value.Committing? then s
    else if write == NotWritten then Ended(s)
    else
      var id := s.refresh.value.id;
      s.(identity := Some(id), intent := None, missing := None, refresh := if write == Written then Some(Editing(id)) else None)
  }

  function EditPanel(s: State, applied: bool, heard: bool): State {
    if s.refresh.None? || !s.refresh.value.Editing? then s
    else
      var id := s.refresh.value.id;
      s.(panels := if applied && id in s.panels then s.panels[id := s.panels[id].(buttons := true)] else s.panels,
         late := if applied then s.late else s.late + {Buttons(id)},
         refresh := if applied && heard then Some(Retiring) else None)
  }

  /** A panel that already shows this text and these buttons is not edited. */
  function SkipEdit(s: State): State {
    if s.refresh.Some? && s.refresh.value.Editing? && s.refresh.value.id in s.panels && s.panels[s.refresh.value.id].buttons
    then s.(refresh := Some(Retiring)) else s
  }

  /** A replaced panel loses its buttons before it leaves the list. */
  function RetirePanel(s: State, id: nat, applied: bool, write: Write): State {
    if !In(s, Retiring) || id !in s.retire || s.identity == Some(id) || id !in s.panels then s
    else if !applied then Ended(s.(late := s.late + {Notice(id)}))
    else
      var retired := s.(panels := s.panels[id := Panel(false, true)]);
      match write
      case Written => retired.(retire := s.retire - {id})
      case WrittenUnheard => Ended(retired.(retire := s.retire - {id}))
      case NotWritten => Ended(retired)
  }

  /** MAX applies an edit after its call has failed, however much later. */
  function LandEdit(s: State, edit: LateEdit): State {
    if edit !in s.late then s
    else
      var panel := if edit.Buttons? then Panel(true, false) else Panel(false, true);
      s.(late := s.late - {edit}, panels := if edit.id in s.panels then s.panels[edit.id := panel] else s.panels)
  }

  function Next(s: State, e: Event): State {
    match e
    case Begin => BeginRefresh(s)
    case ReadOwn => ReadPanel(s)
    case ReadMissing => ReadNothing(s)
    case Find(candidates, chosen, write) => FindPanels(s, candidates, chosen, write)
    case FindNothing(confirmed, write) => FindNoPanel(s, confirmed, write)
    case Send(accepted, heard) => SendPanel(s, accepted, heard)
    case Commit(write) => CommitPanel(s, write)
    case Edit(applied, heard) => EditPanel(s, applied, heard)
    case SameContent => SkipEdit(s)
    case Retire(id, applied, write) => RetirePanel(s, id, applied, write)
    case Finish => if In(s, Retiring) then Ended(s) else s
    case Crash => Ended(s)
    case Remove(id) => s.(panels := s.panels - {id})
    case Land(edit) => LandEdit(s, edit)
  }

  function Run(s: State, events: seq<Event>): State {
    if events == [] then s else Next(Run(s, events[..|events| - 1]), events[|events| - 1])
  }

  const Start: State := State(map[], 0, None, None, 0, None, {}, None, [], {})

  // ----- Every run ----------------------------------------------------------

  predicate PostOk(s: State, i: nat)
    requires i < |s.posts|
  {
    s.posts[i].intent < s.issued && (s.refresh != Some(Posting(s.posts[i].intent)))
  }

  predicate OnePostEach(posts: seq<Post>, i: nat, j: nat)
    requires i < j < |posts|
  {
    posts[i].intent < posts[j].intent
  }

  /** Buttons only where they can be found again. */
  predicate Accounted(s: State) {
    forall id :: id in s.panels && s.panels[id].buttons ==> s.identity == Some(id) || id in s.retire
  }

  predicate RefreshOk(s: State) {
    && (s.refresh.Some? && s.refresh.value.Posting? ==>
          s.intent == Some(s.refresh.value.intent) && s.refresh.value.intent + 1 == s.issued)
    && (s.refresh.Some? && s.refresh.value.Committing? ==>
          s.refresh.value.id < s.next && (s.identity.Some? ==> s.identity.value in s.retire || s.identity == Some(s.refresh.value.id)))
    && (s.refresh.Some? && s.refresh.value.Editing? ==> s.identity == Some(s.refresh.value.id))
  }

  /** While an intent is open its own POST is the latest one there may be. */
  predicate IntentOk(s: State) {
    && (s.intent.Some? ==> s.intent.value + 1 == s.issued && (s.identity.Some? ==> s.identity.value in s.retire))
    && (s.refresh.Some? && s.refresh.value.Committing? ==> s.intent.Some?)
  }

  predicate Inv(s: State) {
    && RefreshOk(s) && IntentOk(s)
    && (forall i :: 0 <= i < |s.posts| ==> PostOk(s, i))
    && (forall i, j :: 0 <= i < j < |s.posts| ==> OnePostEach(s.posts, i, j))
  }

  lemma SendInv(s: State, accepted: bool, heard: bool)
    requires Inv(s)
    ensures Inv(SendPanel(s, accepted, heard))
  {
    var s' := SendPanel(s, accepted, heard);
    if s' != s {
      forall i | 0 <= i < |s'.posts| ensures PostOk(s', i) { if i < |s.posts| { assert PostOk(s, i); } }
      forall i, j | 0 <= i < j < |s'.posts| ensures OnePostEach(s'.posts, i, j) {
        assert PostOk(s, i);
        if j < |s.posts| { assert OnePostEach(s.posts, i, j); }
      }
    }
  }

  /** Steps that post nothing and start no post of an intent already sent. */
  lemma PostsStay(s: State, s': State)
    requires Inv(s) && s'.posts == s.posts && s'.issued >= s.issued && RefreshOk(s') && IntentOk(s')
    requires forall n :: s'.refresh == Some(Posting(n)) ==> s.refresh == s'.refresh || n == s.issued
    ensures Inv(s')
  {
    forall i | 0 <= i < |s'.posts| ensures PostOk(s', i) { assert PostOk(s, i); }
    forall i, j | 0 <= i < j < |s'.posts| ensures OnePostEach(s'.posts, i, j) { assert OnePostEach(s.posts, i, j); }
  }

  lemma SearchInv(s: State, e: Event)
    requires Inv(s) && (e.Find? || e.FindNothing? || e.Commit?)
    ensures Inv(Next(s, e))
  {
    PostsStay(s, Next(s, e));
  }

  lemma OthersInv(s: State, e: Event)
    requires Inv(s) && !e.Send? && !e.Find? && !e.FindNothing? && !e.Commit?
    ensures Inv(Next(s, e))
  {
    PostsStay(s, Next(s, e));
  }

  lemma NextInv(s: State, e: Event)
    requires Inv(s)
    ensures Inv(Next(s, e))
  {
    hide Inv;
    if e.Send? { SendInv(s, e.accepted, e.heard); }
    else if e.Find? || e.FindNothing? || e.Commit? { SearchInv(s, e); }
    else { OthersInv(s, e); }
  }

  lemma {:induction false} RunInv(events: seq<Event>)
    ensures Inv(Run(Start, events))
  {
    if events != [] {
      RunInv(events[..|events| - 1]);
      NextInv(Run(Start, events[..|events| - 1]), events[|events| - 1]);
    }
  }

  // ----- Buttons ------------------------------------------------------------

  /** A late edit gives buttons to a panel that is neither the committed one nor listed for retirement. */
  predicate LandsOutside(s: State, e: Event) {
    e.Land? && e.edit.Buttons? && e.edit in s.late && e.edit.id in s.panels && s.identity != Some(e.edit.id) && e.edit.id !in s.retire
  }

  /** That is the only way in which buttons get where they cannot be found again. */
  lemma AccountedIff(s: State, e: Event)
    requires Inv(s) && Accounted(s)
    ensures Accounted(Next(s, e)) <==> !LandsOutside(s, e)
  {
    if LandsOutside(s, e) { assert Next(s, e).panels[e.edit.id].buttons; }
  }

  predicate NoneLandsOutside(events: seq<Event>) {
    forall n :: 0 <= n < |events| ==> !LandsOutside(Run(Start, events[..n]), events[n])
  }

  /** A message carries panel buttons only if it is the committed panel or is listed for retirement, through every
    * crash, lost reply and delayed history, unless an edit given up earlier lands after its panel was retired. */
  lemma {:induction false} ButtonsAreAccountedFor(events: seq<Event>)
    requires NoneLandsOutside(events)
    ensures Accounted(Run(Start, events))
  {
    if events != [] {
      var front := events[..|events| - 1];
      forall n | 0 <= n < |front| ensures !LandsOutside(Run(Start, front[..n]), front[n]) {
        assert front[..n] == events[..n] && front[n] == events[n];
      }
      ButtonsAreAccountedFor(front);
      RunInv(front);
      hide Inv, LandsOutside;
      AccountedIff(Run(Start, front), events[|events| - 1]);
    }
  }

  /** A panel leaves the list although an edit of it was given up: something the process has seen itself. */
  predicate ForgetsGivenUp(s: State, e: Event) { e.Retire? && Buttons(e.id) in s.late }

  predicate LateListed(s: State) {
    forall edit :: edit in s.late && edit.Buttons? ==> s.identity == Some(edit.id) || edit.id in s.retire
  }

  lemma CautiousStep(s: State, e: Event)
    requires Inv(s) && LateListed(s) && !ForgetsGivenUp(s, e)
    ensures LateListed(Next(s, e)) && !LandsOutside(s, e)
  {
  }

  /** It is enough that no panel is retired for good after an edit of it was given up. */
  lemma {:induction false} CautiousRunsAreAccounted(events: seq<Event>)
    requires forall n :: 0 <= n < |events| ==> !ForgetsGivenUp(Run(Start, events[..n]), events[n])
    ensures LateListed(Run(Start, events)) && Accounted(Run(Start, events))
  {
    if events != [] {
      var front := events[..|events| - 1];
      forall n | 0 <= n < |front| ensures !ForgetsGivenUp(Run(Start, front[..n]), front[n]) {
        assert front[..n] == events[..n] && front[n] == events[n];
      }
      CautiousRunsAreAccounted(front);
      RunInv(front);
      CautiousStep(Run(Start, front), events[|events| - 1]);
      AccountedIff(Run(Start, front), events[|events| - 1]);
    }
  }

  // ----- A run in which it does ----------------------------------------------

  ghost predicate Reachable(s: State) { exists events :: s == Run(Start, events) }

  lemma OneMore(s: State, e: Event)
    requires Reachable(s)
    ensures Reachable(Next(s, e))
  {
    var events :| s == Run(Start, events);
    assert (events + [e])[..|events|] == events;
    assert Run(Start, events + [e]) == Next(s, e);
  }

  lemma ThreeMore(s: State, a: Event, b: Event, c: Event)
    requires Reachable(s)
    ensures Reachable(Next(Next(Next(s, a), b), c))
  {
    hide Next, Reachable;
    OneMore(s, a);
    OneMore(Next(s, a), b);
    OneMore(Next(Next(s, a), b), c);
  }

  /** The first panel was committed, and the edit that gives it buttons was given up. */
  const GivenUp: State := State(map[0 := Panel(false, false)], 1, Some(0), None, 1, None, {}, None, [Post(0, Some(0))], {Buttons(0)})

  lemma EditGivenUp()
    ensures Reachable(GivenUp)
  {
    hide Reachable;
    assert Reachable(Start) by { Nothing(); }
    ThreeMore(Start, Begin, ReadMissing, FindNothing(false, Written));
    var sending := Next(Next(Next(Start, Begin), ReadMissing), FindNothing(false, Written));
    ThreeMore(sending, Send(true, true), Commit(Written), Edit(false, false));
    assert Next(Next(Next(sending, Send(true, true)), Commit(Written)), Edit(false, false)) == GivenUp;
  }

  lemma Nothing()
    ensures Reachable(Start)
  {
    assert Run(Start, []) == Start;
  }

  /** Its loss was confirmed on a later sweep, and the next panel took its place. */
  const Replaced: State := State(map[0 := Panel(false, false), 1 := Panel(true, false)], 2, Some(1), None, 2, None, {0}, Some(Retiring),
                                 [Post(0, Some(0)), Post(1, Some(1))], {Buttons(0)})

  lemma PanelReplaced()
    ensures Reachable(Replaced)
  {
    hide Reachable;
    EditGivenUp();
    ThreeMore(GivenUp, Begin, ReadMissing, FindNothing(false, Written));
    var missed := GivenUp.(missing := Some(0));
    assert Next(Next(Next(GivenUp, Begin), ReadMissing), FindNothing(false, Written)) == missed;
    ThreeMore(missed, Begin, ReadMissing, FindNothing(true, Written));
    var sending := missed.(intent := Some(1), issued := 2, retire := {0}, refresh := Some(Posting(1)));
    assert Next(Next(Next(missed, Begin), ReadMissing), FindNothing(true, Written)) == sending;
    ThreeMore(sending, Send(true, true), Commit(Written), Edit(true, true));
    var replaced := Next(Next(Next(sending, Send(true, true)), Commit(Written)), Edit(true, true));
    assert replaced.panels == Replaced.panels && replaced.posts == Replaced.posts;
    assert replaced == Replaced;
  }

  /** The old panel is retired and leaves the list; then its first edit lands, and it has buttons nobody looks for. */
  lemma LateEditIsUnaccounted() returns (s: State, e: Event)
    ensures Reachable(s) && Accounted(s) && LandsOutside(s, e) && !Accounted(Next(s, e))
  {
    hide Reachable;
    PanelReplaced();
    OneMore(Replaced, Retire(0, true, Written));
    s, e := Next(Replaced, Retire(0, true, Written)), Land(Buttons(0));
    assert Next(s, e).panels[0].buttons;
  }

  // ----- One POST per intent ------------------------------------------------

  /** Each POST follows its own stored intent: no intent is ever sent twice, and none is sent unless it is
    * the one stored at that moment. */
  lemma OnePostPerIntent(events: seq<Event>, i: nat, j: nat)
    requires i < j < |Run(Start, events).posts|
    ensures Run(Start, events).posts[i].intent != Run(Start, events).posts[j].intent
  {
    RunInv(events);
    assert OnePostEach(Run(Start, events).posts, i, j);
  }

  lemma PostNeedsStoredIntent(events: seq<Event>, e: Event)
    requires |Next(Run(Start, events), e).posts| > |Run(Start, events).posts|
    ensures var s, s' := Run(Start, events), Next(Run(Start, events), e);
            s.intent == Some(s'.posts[|s.posts|].intent) && forall i :: 0 <= i < |s.posts| ==> s.posts[i].intent != s.intent.value
  {
    var s := Run(Start, events);
    RunInv(events);
    forall i | 0 <= i < |s.posts| ensures s.posts[i].intent != s.intent.value { assert PostOk(s, i); }
  }

  predicate StillOpen(before: seq<Event>, more: seq<Event>, intent: nat, k: int)
    requires 0 <= k <= |more|
  {
    Run(Start, before + more[..k]).intent == Some(intent)
  }

  lemma StepWhileOpen(s: State, e: Event, intent: nat)
    requires Inv(s) && s.intent == Some(intent) && s.refresh != Some(Posting(intent)) && Next(s, e).intent == Some(intent)
    ensures Next(s, e).refresh != Some(Posting(intent)) && Next(s, e).posts == s.posts
  {
  }

  /** Once the POST of an intent was sent or lost to a crash, nothing is sent while the intent is outstanding:
    * the outcome is left to the history. */
  lemma {:induction false} NothingSentWhileOutstanding(before: seq<Event>, more: seq<Event>, intent: nat)
    requires Run(Start, before).refresh != Some(Posting(intent))
    requires forall k :: 0 <= k <= |more| ==> StillOpen(before, more, intent, k)
    ensures Run(Start, before + more).posts == Run(Start, before).posts
    ensures Run(Start, before + more).refresh != Some(Posting(intent))
  {
    if more == [] {
      assert before + more == before;
    } else {
      var front := more[..|more| - 1];
      forall k | 0 <= k <= |front| ensures StillOpen(before, front, intent, k) {
        assert StillOpen(before, more, intent, k) && front[..k] == more[..k];
      }
      NothingSentWhileOutstanding(before, front, intent);
      assert StillOpen(before, more, intent, |more|) && StillOpen(before, more, intent, |more| - 1);
      assert more[..|more|] == more && (before + more)[..|before + more| - 1] == before + front;
      RunInv(before + front);
      StepWhileOpen(Run(Start, before + front), more[|more| - 1], intent);
    }
  }
}
