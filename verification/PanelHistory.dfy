/** The bounded scan for own panels (`findPanels`, src/max/pinned-panel.service.ts:129-145). */
module PanelHistory {

  datatype Message = Message(id: nat, at: int, own: bool)

  datatype Scan = Found(ids: set<nat>) | NoProgress | LimitReached

  const PAGE: nat := 100
  const PAGES: nat := 10

  /** Chat history as the server lists it: newest first. */
  ghost predicate NewestFirst(history: seq<Message>) {
    forall i, j :: 0 <= i < j < |history| ==> history[i].at >= history[j].at
  }

  /** The first message that is not newer than the boundary. */
  function FirstUpTo(history: seq<Message>, before: int): (k: nat)
    ensures k <= |history| && (forall i :: 0 <= i < k ==> history[i].at > before)
    ensures k < |history| ==> history[k].at <= before
  {
    if history == [] || history[0].at <= before then 0 else 1 + FirstUpTo(history[1..], before)
  }

  /** One page: the hundred newest messages up to and including the boundary. */
  function Page(history: seq<Message>, before: int): seq<Message> {
    var k := FirstUpTo(history, before);
    if k + PAGE <= |history| then history[k..k + PAGE] else history[k..]
  }

  /** Every own panel of the scanned window is in the result. */
  ghost predicate Complete(history: seq<Message>, start: int, since: int, ids: set<nat>) {
    forall i :: 0 <= i < |history| && history[i].own && since <= history[i].at <= start ==> history[i].id in ids
  }

  ghost predicate OnlyOwn(history: seq<Message>, ids: set<nat>) {
    forall id :: id in ids ==> exists i :: 0 <= i < |history| && history[i].id == id && history[i].own
  }

  /** What the pages so far have shown: everything newer than the boundary. */
  ghost predicate Seen(history: seq<Message>, start: int, before: int, ids: set<nat>) {
    forall i :: 0 <= i < |history| && history[i].own && before < history[i].at <= start ==> history[i].id in ids
  }

  /** The result holds every own panel up to the start. */
  ghost predicate Known(history: seq<Message>, start: int, ids: set<nat>) {
    forall i :: 0 <= i < |history| && history[i].own && history[i].at <= start ==> history[i].id in ids
  }

  function OwnIds(page: seq<Message>): set<nat> {
    if page == [] then {}
    else OwnIds(page[..|page| - 1]) + if page[|page| - 1].own then {page[|page| - 1].id} else {}
  }

  lemma {:induction false} OwnIsListed(page: seq<Message>, i: nat)
    requires i < |page| && page[i].own
    ensures page[i].id in OwnIds(page)
  {
    if i < |page| - 1 { OwnIsListed(page[..|page| - 1], i); }
  }

  lemma {:induction false} ListedIsOwn(page: seq<Message>, id: nat) returns (i: nat)
    requires id in OwnIds(page)
    ensures i < |page| && page[i].own && page[i].id == id
  {
    if page[|page| - 1].own && page[|page| - 1].id == id { i := |page| - 1; } else { i := ListedIsOwn(page[..|page| - 1], id); }
  }

  /** A short page shows everything up to its boundary; a full one everything newer than its oldest message. */
  lemma PageShows(history: seq<Message>, before: int, i: nat)
    requires NewestFirst(history) && i < |history| && history[i].own && history[i].at <= before
    requires var page := Page(history, before); |page| < PAGE || history[i].at > page[|page| - 1].at
    ensures history[i].id in OwnIds(Page(history, before))
  {
    var k, page := FirstUpTo(history, before), Page(history, before);
    if |page| == PAGE { assert page[PAGE - 1] == history[k + PAGE - 1]; }
    assert k <= i < k + |page| && page[i - k] == history[i];
    OwnIsListed(page, i - k);
  }

  lemma PageIsHistory(history: seq<Message>, before: int, ids: set<nat>)
    requires OnlyOwn(history, ids)
    ensures OnlyOwn(history, ids + OwnIds(Page(history, before)))
  {
    var k, page := FirstUpTo(history, before), Page(history, before);
    forall id | id in OwnIds(page) ensures exists i :: 0 <= i < |history| && history[i].id == id && history[i].own {
      var j := ListedIsOwn(page, id);
      assert page[j] == history[k + j];
    }
  }

  /** Everything up to the start is known once a short page was read ... */
  lemma ShortPageEnds(history: seq<Message>, start: int, before: int, ids: set<nat>)
    requires NewestFirst(history) && Seen(history, start, before, ids) && |Page(history, before)| < PAGE
    ensures Known(history, start, ids + OwnIds(Page(history, before)))
  {
    forall i | 0 <= i < |history| && history[i].own && history[i].at <= start
      ensures history[i].id in ids + OwnIds(Page(history, before))
    {
      if history[i].at <= before { PageShows(history, before, i); }
    }
  }

  /** ... and everything newer than its oldest message after a full one. */
  lemma FullPageMoves(history: seq<Message>, start: int, before: int, ids: set<nat>)
    requires NewestFirst(history) && Seen(history, start, before, ids) && |Page(history, before)| == PAGE
    ensures var page := Page(history, before); Seen(history, start, page[PAGE - 1].at, ids + OwnIds(page))
  {
    var page := Page(history, before);
    forall i | 0 <= i < |history| && history[i].own && page[PAGE - 1].at < history[i].at <= start
      ensures history[i].id in ids + OwnIds(page)
    {
      if history[i].at <= before { PageShows(history, before, i); }
    }
  }

  /** Page by page, with an inclusive boundary; absence is never concluded from an incomplete window. */
  method FindPanels(history: seq<Message>, start: int, since: int, bounded: bool) returns (r: Scan)
    requires NewestFirst(history)
    ensures r.Found? ==> OnlyOwn(history, r.ids) && Complete(history, start, since, r.ids)
    ensures r.Found? && !bounded ==> Known(history, start, r.ids)
    ensures |Page(history, start)| < PAGE ==> r.Found?
  {
    hide Page, OwnIds, OnlyOwn, NewestFirst;
    var before, found := start, {};
    assert OnlyOwn(history, found) by { NothingIsOwn(history); }
    for page := 0 to PAGES
      invariant before <= start && OnlyOwn(history, found) && Seen(history, start, before, found)
      invariant if page == 0 then before == start else |Page(history, start)| == PAGE
    {
      var messages := Page(history, before);
      PageSize(history, before);
      PageIsHistory(history, before, found);
      if |messages| < PAGE {
        ShortPageEnds(history, start, before, found);
        return Found(found + OwnIds(messages));
      }
      FullPageMoves(history, start, before, found);
      found := found + OwnIds(messages);
      var oldest := messages[|messages| - 1].at;
      if bounded && oldest < since { return Found(found); }
      if oldest >= before { return NoProgress; }
      before := oldest;
    }
    return LimitReached;
  }

  lemma PageSize(history: seq<Message>, before: int)
    ensures |Page(history, before)| <= PAGE
  {
  }

  lemma NothingIsOwn(history: seq<Message>)
    ensures OnlyOwn(history, {})
  {
  }
}
