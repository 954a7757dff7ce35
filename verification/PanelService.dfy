/** A panel refresh as it runs (src/max/pinned-panel.service.ts:41-126): the recovery state, the identity and
  * the messages of the chat change in place, one call after another. */
module PanelService {
  import opened PinnedPanel
  import opened Wrappers

  /** The panels a committed one replaces: those found beside it, and the one committed before. */
  lemma FoundState(s: PinnedPanel.State, candidates: set<nat>, chosen: nat, write: Write)
    requires s.refresh == Some(Searching) && chosen in candidates && candidates <= s.panels.Keys
    requires forall id :: id in candidates ==> !s.panels[id].retired
    requires s.identity.Some? && s.identity.value in candidates ==> chosen == s.identity.value
    ensures var s' := Next(s, Find(candidates, chosen, write));
            if write == NotWritten then s' == s.(refresh := None)
            else
              var before := if s.identity.Some? && s.identity.value != chosen then {s.identity.value} else {};
              s' == s.(identity := Some(chosen), intent := None, missing := None, retire := s.retire + (candidates - {chosen} + before),
                       refresh := if write == Written then Some(Editing(chosen)) else None)
  {
    var replaced := if s.identity.Some? then {s.identity.value} else {};
    var before := if s.identity.Some? && s.identity.value != chosen then {s.identity.value} else {};
    assert (replaced + candidates) - {chosen} == candidates - {chosen} + before;
  }

  class PinnedPanels {
    var panels: map<nat, Panel>
    var next: nat
    var identity: Option<nat>
    var intent: Option<nat>
    var issued: nat
    var missing: Option<nat>
    var retire: set<nat>
    var refresh: Option<Phase>
    var posts: seq<Post>
    var late: set<LateEdit>

    function State(): PinnedPanel.State
      reads this
    {
      PinnedPanel.State(panels, next, identity, intent, issued, missing, retire, refresh, posts, late)
    }

    constructor ()
      ensures State() == Start
    {
      panels, next, identity, intent, issued := map[], 0, None, None, 0;
      missing, retire, refresh, posts, late := None, {}, None, [], {};
    }

    /** The chosen panel is committed together with the end of the intent and the list of those it replaces. */
    method Reconcile(candidates: set<nat>, chosen: nat, write: Write)
      requires refresh == Some(Searching) && chosen in candidates && candidates <= panels.Keys
      requires forall id :: id in candidates ==> !panels[id].retired
      requires identity.Some? && identity.value in candidates ==> chosen == identity.value
      modifies this`identity, this`intent, this`missing, this`retire, this`refresh
      ensures State() == Next(old(State()), Find(candidates, chosen, write))
      ensures write != NotWritten ==> identity == Some(chosen) && intent.None? && forall id :: id in candidates && id != chosen ==> id in retire
      ensures write == NotWritten ==> identity == old(identity) && intent == old(intent) && retire == old(retire)
      ensures old(retire) <= retire
    {
      hide Next;
      FoundState(State(), candidates, chosen, write);
      if write == NotWritten {
        refresh := None;
        return;
      }
      var replaced := candidates - {chosen};
      if identity.Some? && identity.value != chosen { replaced := replaced + {identity.value}; }
      retire := retire + replaced;
      identity := Some(chosen);
      intent, missing := None, None;
      refresh := if write == Written then Some(Editing(chosen)) else None;
    }

    /** With nothing to be found a send intent is stored, unless one is open or the loss is not confirmed yet. */
    method IntendNewPanel(confirmed: bool, write: Write)
      requires refresh == Some(Searching)
      modifies this`intent, this`issued, this`missing, this`retire, this`refresh
      ensures State() == Next(old(State()), FindNothing(confirmed, write))
      ensures issued > old(issued) <==> old(intent).None? && write != NotWritten && (identity.None? || (confirmed && old(missing) == identity))
      ensures issued > old(issued) ==> intent == Some(old(issued)) && (identity.Some? ==> identity.value in retire)
      ensures issued == old(issued) ==> intent == old(intent) && retire == old(retire) && refresh.None?
    {
      refresh := None;
      if intent.Some? || write == NotWritten { return; }
      if identity.Some? {
        if missing != identity || !confirmed {
          missing := identity;
          return;
        }
        retire := retire + {identity.value};
      }
      intent := Some(issued);
      if write == Written { refresh := Some(Posting(issued)); }
      issued := issued + 1;
    }

    method SendPanelOnce(accepted: bool, heard: bool)
      requires refresh.Some? && refresh.value.Posting?
      modifies this`panels, this`next, this`posts, this`refresh
      ensures State() == Next(old(State()), Send(accepted, heard))
      ensures |posts| == |old(posts)| + 1 && old(posts) <= posts && posts[|old(posts)|].intent == old(refresh).value.intent
      ensures forall id :: id in old(panels) && id != old(next) ==> id in panels && panels[id] == old(panels)[id]
    {
      var n := refresh.value.intent;
      refresh := None;
      if !accepted {
        posts := posts + [Post(n, None)];
        return;
      }
      posts := posts + [Post(n, Some(next))];
      panels := panels[next := Panel(false, false)];
      if heard { refresh := Some(Committing(next)); }
      next := next + 1;
    }

    method CommitIdentity(write: Write)
      requires refresh.Some? && refresh.value.Committing?
      modifies this`identity, this`intent, this`missing, this`refresh
      ensures State() == Next(old(State()), Commit(write))
      ensures if write == NotWritten then identity == old(identity) && intent == old(intent)
              else identity == Some(old(refresh).value.id) && intent.None?
    {
      var id := refresh.value.id;
      refresh := None;
      if write == NotWritten { return; }
      identity := Some(id);
      intent, missing := None, None;
      if write == Written { refresh := Some(Editing(id)); }
    }

    method GiveButtons(applied: bool, heard: bool)
      requires refresh.Some? && refresh.value.Editing?
      modifies this`panels, this`refresh, this`late
      ensures State() == Next(old(State()), Edit(applied, heard))
      ensures panels.Keys == old(panels).Keys
      ensures forall id :: id in panels && id != old(refresh).value.id ==> panels[id] == old(panels)[id]
      ensures !applied ==> panels == old(panels) && Buttons(old(refresh).value.id) in late
    {
      var id := refresh.value.id;
      if applied && id in panels { panels := panels[id := panels[id].(buttons := true)]; }
      if !applied { late := late + {Buttons(id)}; }
      refresh := if applied && heard then Some(Retiring) else None;
    }

    method RetireOne(id: nat, applied: bool, write: Write)
      requires refresh == Some(Retiring) && id in retire && identity != Some(id) && id in panels
      modifies this`panels, this`retire, this`refresh, this`late
      ensures State() == Next(old(State()), Event.Retire(id, applied, write))
      ensures id !in retire ==> !panels[id].buttons
      ensures forall k :: k in panels && k != id ==> k in old(panels) && panels[k] == old(panels)[k]
      ensures !applied ==> panels == old(panels) && retire == old(retire)
    {
      if !applied {
        late := late + {Notice(id)};
        refresh := None;
        return;
      }
      panels := panels[id := Panel(false, true)];
      if write != NotWritten { retire := retire - {id}; }
      if write != Written { refresh := None; }
    }

    /** The loop over the list: with every call answered no replaced panel that still exists keeps its
      * buttons, and only the committed panel and panels that are gone stay listed. */
    method RetireAll()
      requires Inv(State()) && Accounted(State()) && refresh == Some(Retiring)
      modifies this`panels, this`retire, this`refresh, this`late
      ensures Inv(State()) && Accounted(State()) && identity == old(identity) && retire <= old(retire) && late == old(late)
      ensures forall id :: id in panels && panels[id].buttons ==> identity == Some(id)
    {
      var left := retire;
      while left != {}
        invariant Inv(State()) && Accounted(State()) && refresh == Some(Retiring) && left <= retire <= old(retire)
        invariant identity == old(identity) && late == old(late)
        invariant forall id :: id in retire && id in panels && identity != Some(id) ==> id in left
        decreases |left|
      {
        var id :| id in left;
        left := left - {id};
        if identity != Some(id) && id in panels {
          OthersInv(State(), Event.Retire(id, true, Written));
          AccountedIff(State(), Event.Retire(id, true, Written));
          RetireOne(id, true, Written);
        }
      }
    }
  }
}
