/** How one logical message becomes several MAX messages
  * (`splitText`, `groupAttachments` and the plan in `deliverLogical`, src/max/max-message.service.ts).
  * A text is a sequence of code points, as `Array.from` splits it. */
module MessagePlan {

  /** Code points allowed in one message. */
  const LIMIT: nat := 3800
  /** Attachments of one kind per message. */
  const PER_MESSAGE: nat := 4

  datatype Caption = NoCaption | Caption(text: string)

  datatype Kind = Image | File

  datatype Attachment = Attachment(kind: Kind, id: nat)

  datatype Message = Message(text: string, attachments: seq<Attachment>, keyboard: bool, reply: bool)

  /** The heading repeated on every follow-up part; an empty label counts as none. */
  function Prefix(caption: Caption): string {
    if caption.Caption? && caption.text != "" then caption.text + "\n\n" else ""
  }

  // ----- Splitting text -----------------------------------------------------

  /** The loop's cursor after n turns. */
  function CursorAfter(n: nat, prefix: string): int {
    if n == 0 then 0 else CursorAfter(n - 1, prefix) + if n == 1 then LIMIT else LIMIT - |prefix|
  }

  ghost predicate Splits(text: string, prefix: string) {
    |text| <= LIMIT || exists n: nat :: CursorAfter(n, prefix) >= |text|
  }

  /** The loop ends exactly when the text fits or the heading leaves room for at least one
    * code point. A heading that fills the whole message never advances past the first part. */
  lemma SplitEndsIff(text: string, prefix: string)
    ensures Splits(text, prefix) <==> |text| <= LIMIT || |prefix| < LIMIT
  {
    if |prefix| < LIMIT {
      CursorAdvances(|text|, prefix);
    } else {
      forall n: nat ensures CursorAfter(n, prefix) <= LIMIT { CursorStuck(n, prefix); }
    }
  }

  lemma {:induction false} CursorAdvances(n: nat, prefix: string)
    requires |prefix| < LIMIT
    ensures CursorAfter(n, prefix) >= n
  {
    if n > 0 { CursorAdvances(n - 1, prefix); }
  }

  lemma {:induction false} CursorStuck(n: nat, prefix: string)
    requires LIMIT <= |prefix|
    ensures CursorAfter(n, prefix) <= LIMIT
  {
    if n > 0 { CursorStuck(n - 1, prefix); }
  }

  /** A failing input: 3801 code points under a label of 3798. */
  lemma SplitDiverges(text: string, caption: string)
    requires |text| == 3801 && |caption| == 3798
    ensures !Splits(text, Prefix(Caption(caption)))
  {
    SplitEndsIff(text, Prefix(Caption(caption)));
  }

  /** The parts with the repeated heading taken off again, joined. */
  ghost function Content(parts: seq<string>, prefix: string): string {
    if parts == [] then ""
    else Content(parts[..|parts| - 1], prefix) + Body(parts, |parts| - 1, prefix)
  }

  ghost function Body(parts: seq<string>, i: nat, prefix: string): string
    requires i < |parts|
  {
    if i > 0 && prefix <= parts[i] then parts[i][|prefix|..] else parts[i]
  }

  /** Every part fits, every follow-up carries the heading, and only the last may be short. */
  ghost predicate WellSplit(parts: seq<string>, prefix: string) {
    && (forall i :: 0 <= i < |parts| ==> |parts[i]| <= LIMIT)
    && (forall i :: 0 < i < |parts| ==> prefix < parts[i])
    && (forall i :: 0 <= i < |parts| - 1 ==> |parts[i]| == LIMIT)
  }

  /** Appending the next slice under its heading extends the content by that slice. */
  lemma AppendPart(parts: seq<string>, prefix: string, text: string, cursor: nat, end: nat, part: string)
    requires cursor <= end <= |text| && Content(parts, prefix) == text[..cursor]
    requires part == if parts == [] then text[cursor..end] else prefix + text[cursor..end]
    ensures Content(parts + [part], prefix) == text[..end]
  {
    var all := parts + [part];
    assert Body(all, |parts|, prefix) == text[cursor..end] by {
      assert all[|parts|] == part;
      if parts != [] { HeadingComesOff(prefix, text[cursor..end]); }
    }
    assert all[..|all| - 1] == parts;
    assert text[..end] == text[..cursor] + text[cursor..end];
  }

  lemma HeadingComesOff(prefix: string, rest: string)
    ensures prefix <= prefix + rest && (prefix + rest)[|prefix|..] == rest
  {
  }

  ghost predicate AllFull(parts: seq<string>) {
    forall i :: 0 <= i < |parts| ==> |parts[i]| == LIMIT
  }

  lemma PartsGrow(parts: seq<string>, part: string, prefix: string)
    requires WellSplit(parts, prefix) && AllFull(parts)
    requires |part| <= LIMIT && (parts != [] ==> prefix < part)
    ensures WellSplit(parts + [part], prefix)
    ensures |part| == LIMIT ==> AllFull(parts + [part])
  {
  }

  method SplitText(text: string, caption: Caption) returns (parts: seq<string>)
    requires Splits(text, Prefix(caption))
    ensures |parts| >= 1 && WellSplit(parts, Prefix(caption))
    ensures Content(parts, Prefix(caption)) == text
  {
    var prefix := Prefix(caption);
    SplitEndsIff(text, prefix);
    parts := [];
    if |text| <= LIMIT {
      AppendPart(parts, prefix, text, 0, |text|, text);
      parts := [text];
      return;
    }
    var cursor := 0;
    while cursor < |text|
      invariant 0 <= cursor && (parts == [] <==> cursor == 0)
      invariant WellSplit(parts, prefix)
      invariant Content(parts, prefix) == text[..if cursor <= |text| then cursor else |text|]
      invariant cursor < |text| ==> AllFull(parts)
    {
      var budget := if |parts| == 0 then LIMIT else LIMIT - |prefix|;
      var end := if cursor + budget <= |text| then cursor + budget else |text|;
      var part := if |parts| == 0 then text[cursor..end] else prefix + text[cursor..end];
      AppendPart(parts, prefix, text, cursor, end, part);
      PartsGrow(parts, part, prefix);
      parts := parts + [part];
      cursor := cursor + budget;
    }
  }

  // ----- Grouping attachments -----------------------------------------------

  function OfKind(items: seq<Attachment>, kind: Kind): seq<Attachment> {
    if items == [] then []
    else OfKind(items[..|items| - 1], kind) + if items[|items| - 1].kind == kind then [items[|items| - 1]] else []
  }

  lemma {:induction false} OfKindIsUniform(items: seq<Attachment>, kind: Kind)
    ensures forall i :: 0 <= i < |OfKind(items, kind)| ==> OfKind(items, kind)[i].kind == kind
  {
    if items != [] { OfKindIsUniform(items[..|items| - 1], kind); }
  }

  function Flatten(groups: seq<seq<Attachment>>): seq<Attachment> {
    if groups == [] then [] else Flatten(groups[..|groups| - 1]) + groups[|groups| - 1]
  }

  lemma FlattenAppends(groups: seq<seq<Attachment>>, group: seq<Attachment>)
    ensures Flatten(groups + [group]) == Flatten(groups) + group
  {
    assert (groups + [group])[..|groups|] == groups;
  }

  /** A group is never empty, holds at most four attachments and only one kind. */
  ghost predicate GoodGroup(group: seq<Attachment>) {
    0 < |group| <= PER_MESSAGE && forall i :: 0 <= i < |group| ==> group[i].kind == group[0].kind
  }

  ghost predicate GoodGroups(groups: seq<seq<Attachment>>) {
    forall i :: 0 <= i < |groups| ==> GoodGroup(groups[i])
  }

  /** Four of a kind share a message. */
  function GroupsNeeded(count: nat): nat { (count + PER_MESSAGE - 1) / PER_MESSAGE }

  function GroupCount(items: seq<Attachment>): nat { GroupsNeeded(|OfKind(items, Image)|) + GroupsNeeded(|OfKind(items, File)|) }

  /** The groups of one kind, cut in fours. */
  method GroupsOfKind(items: seq<Attachment>, kind: Kind, done: seq<seq<Attachment>>) returns (groups: seq<seq<Attachment>>)
    requires GoodGroups(done)
    ensures GoodGroups(groups)
    ensures Flatten(groups) == Flatten(done) + OfKind(items, kind)
    ensures |groups| == |done| + GroupsNeeded(|OfKind(items, kind)|)
  {
    var ofType := OfKind(items, kind);
    OfKindIsUniform(items, kind);
    groups := done;
    var index := 0;
    while index < |ofType|
      invariant 0 <= index < |ofType| + PER_MESSAGE && GoodGroups(groups)
      invariant index == PER_MESSAGE * (|groups| - |done|)
      invariant Flatten(groups) == Flatten(done) + ofType[..if index <= |ofType| then index else |ofType|]
    {
      var end := if index + PER_MESSAGE <= |ofType| then index + PER_MESSAGE else |ofType|;
      FlattenAppends(groups, ofType[index..end]);
      assert ofType[..end] == ofType[..index] + ofType[index..end];
      groups := groups + [ofType[index..end]];
      index := index + PER_MESSAGE;
    }
    assert ofType[..|ofType|] == ofType;
  }

  method GroupAttachments(items: seq<Attachment>) returns (groups: seq<seq<Attachment>>)
    ensures GoodGroups(groups)
    ensures Flatten(groups) == OfKind(items, Image) + OfKind(items, File) && |groups| == GroupCount(items)
  {
    groups := GroupsOfKind(items, Image, []);
    groups := GroupsOfKind(items, File, groups);
  }

  // ----- The plan -----------------------------------------------------------

  function Attached(plan: seq<Message>): seq<Attachment> {
    if plan == [] then [] else Attached(plan[..|plan| - 1]) + plan[|plan| - 1].attachments
  }

  /** The groups carried by the first `sent` messages: none before the last text part, which
    * takes the first group; then one group a message. */
  function Carried(sent: nat, texts: nat, groups: seq<seq<Attachment>>): nat
    requires 1 <= texts
  {
    if sent < texts || groups == [] then 0 else if sent - texts + 1 <= |groups| then sent - texts + 1 else |groups|
  }

  /** The attachments of the message at one place of the plan. */
  function GroupAt(i: nat, texts: nat, groups: seq<seq<Attachment>>): seq<Attachment> {
    if i + 1 < texts || i + 1 - texts >= |groups| then [] else groups[i + 1 - texts]
  }

  /** The message sent at one place of the plan. */
  function MessageAt(i: nat, parts: seq<string>, groups: seq<seq<Attachment>>, caption: Caption, keyboard: bool, reply: bool): Message
    requires 1 <= |parts|
  {
    Message(
      if i < |parts| then parts[i] else if caption.Caption? then caption.text else "",
      GroupAt(i, |parts|, groups),
      keyboard && i == |parts| - 1,
      reply && i == 0)
  }

  ghost predicate Planned(plan: seq<Message>, parts: seq<string>, groups: seq<seq<Attachment>>,
      caption: Caption, keyboard: bool, reply: bool)
    requires 1 <= |parts|
  {
    forall i :: 0 <= i < |plan| ==> plan[i] == MessageAt(i, parts, groups, caption, keyboard, reply)
  }

  /** One more message carries the next group, if there is one left for it. */
  lemma CarriesOne(sent: nat, texts: nat, groups: seq<seq<Attachment>>)
    requires 1 <= texts
    ensures Flatten(groups[..Carried(sent + 1, texts, groups)])
         == Flatten(groups[..Carried(sent, texts, groups)])
          + GroupAt(sent, texts, groups)
  {
    var k := Carried(sent, texts, groups);
    if Carried(sent + 1, texts, groups) == k + 1 {
      assert groups[..k + 1] == groups[..k] + [groups[k]];
      FlattenAppends(groups[..k], groups[k]);
    }
  }

  lemma PlannedFront(plan: seq<Message>, parts: seq<string>, groups: seq<seq<Attachment>>,
      caption: Caption, keyboard: bool, reply: bool)
    requires 1 <= |parts| && plan != [] && Planned(plan, parts, groups, caption, keyboard, reply)
    ensures var sent := |plan| - 1;
            Planned(plan[..sent], parts, groups, caption, keyboard, reply)
            && plan[sent].attachments == GroupAt(sent, |parts|, groups)
  {
    var front := plan[..|plan| - 1];
    assert forall i :: 0 <= i < |front| ==> front[i] == plan[i];
  }

  lemma {:induction false} PlannedCarries(plan: seq<Message>, parts: seq<string>, groups: seq<seq<Attachment>>,
      caption: Caption, keyboard: bool, reply: bool)
    requires 1 <= |parts| && Planned(plan, parts, groups, caption, keyboard, reply)
    ensures Attached(plan) == Flatten(groups[..Carried(|plan|, |parts|, groups)])
  {
    hide Planned, Flatten, GroupAt;
    if plan == [] {
      NothingCarried(|parts|, groups);
    } else {
      PlannedFront(plan, parts, groups, caption, keyboard, reply);
      PlannedCarries(plan[..|plan| - 1], parts, groups, caption, keyboard, reply);
      CarriesOne(|plan| - 1, |parts|, groups);
    }
  }

  lemma NothingCarried(texts: nat, groups: seq<seq<Attachment>>)
    requires 1 <= texts
    ensures Flatten(groups[..Carried(0, texts, groups)]) == []
  {
  }

  lemma PlanGrows(plan: seq<Message>, message: Message, parts: seq<string>, groups: seq<seq<Attachment>>,
      caption: Caption, keyboard: bool, reply: bool)
    requires 1 <= |parts| && Planned(plan, parts, groups, caption, keyboard, reply)
    requires message == MessageAt(|plan|, parts, groups, caption, keyboard, reply)
    ensures Planned(plan + [message], parts, groups, caption, keyboard, reply)
  {
  }

  method AssemblePlan(parts: seq<string>, groups: seq<seq<Attachment>>, caption: Caption, keyboard: bool, reply: bool)
    returns (plan: seq<Message>)
    requires 1 <= |parts|
    ensures |plan| == |parts| + if groups == [] then 0 else |groups| - 1
    ensures Planned(plan, parts, groups, caption, keyboard, reply)
  {
    var trailing := if groups == [] then [] else groups[1..];
    plan := [];
    for index := 0 to |parts| + |trailing|
      invariant |plan| == index && Planned(plan, parts, groups, caption, keyboard, reply)
    {
      var isText := index < |parts|;
      var group :=
        if isText then (if index == |parts| - 1 && groups != [] then groups[0] else [])
        else trailing[index - |parts|];
      var message := Message(
        if isText then parts[index] else if caption.Caption? then caption.text else "",
        group, keyboard && index == |parts| - 1, reply && index == 0);
      PlanGrows(plan, message, parts, groups, caption, keyboard, reply);
      plan := plan + [message];
    }
  }

  /** What the recipient gets: the text once, every attachment once and in order, the keyboard
    * once on the last text part, the reply link on the first message only. */
  ghost predicate Delivers(plan: seq<Message>, parts: seq<string>, items: seq<Attachment>,
    caption: Caption, keyboard: bool, reply: bool)
  {
    && 1 <= |parts| <= |plan|
    && (forall i :: 0 <= i < |plan| ==> plan[i].text == if i < |parts| then parts[i] else if caption.Caption? then caption.text else "")
    && Attached(plan) == OfKind(items, Image) + OfKind(items, File)
    && (forall i :: 0 <= i < |plan| ==> (plan[i].attachments == [] && i < |parts|) || GoodGroup(plan[i].attachments))
    && (forall i :: 0 <= i < |plan| ==> (plan[i].keyboard <==> keyboard && i == |parts| - 1))
    && (forall i :: 0 <= i < |plan| ==> (plan[i].reply <==> reply && i == 0))
  }

  method PlanMessages(text: string, caption: Caption, items: seq<Attachment>, keyboard: bool, reply: bool)
    returns (plan: seq<Message>, parts: seq<string>)
    requires Splits(text, Prefix(caption))
    ensures WellSplit(parts, Prefix(caption)) && Content(parts, Prefix(caption)) == text
    ensures Delivers(plan, parts, items, caption, keyboard, reply)
    ensures |plan| == |parts| + if GroupCount(items) == 0 then 0 else GroupCount(items) - 1
  {
    parts := SplitText(text, caption);
    var groups := GroupAttachments(items);
    plan := AssemblePlan(parts, groups, caption, keyboard, reply);
    PlannedCarries(plan, parts, groups, caption, keyboard, reply);
    assert groups[..|groups|] == groups;
    PlannedDelivers(plan, parts, groups, items, caption, keyboard, reply);
  }

  lemma PlannedDelivers(plan: seq<Message>, parts: seq<string>, groups: seq<seq<Attachment>>, items: seq<Attachment>,
      caption: Caption, keyboard: bool, reply: bool)
    requires 1 <= |parts| && |plan| == |parts| + if groups == [] then 0 else |groups| - 1
    requires Planned(plan, parts, groups, caption, keyboard, reply) && GoodGroups(groups)
    requires Attached(plan) == OfKind(items, Image) + OfKind(items, File)
    ensures Delivers(plan, parts, items, caption, keyboard, reply)
  {
  }
}
