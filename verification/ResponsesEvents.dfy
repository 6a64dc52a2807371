/** What a run of the Responses stream has written, told from its events alone: the text each part has been given, where
    new text goes, and the order in which tools first appear. */
module ResponsesEvents {
  import opened Outcomes
  import opened ResponsesChat
  import opened ResponsesAgreement

  // ---- The text the events give a part --------------------------------------------------------------------

  /** The item has a part of this field at this index. */
  predicate Lists(item: Item, field: Field, k: nat) {
    match item
    case MessageItem(content) => k < |content| && PartField(content[k]) == field
    case ReasoningItem(summary) => k < |summary| && field == ReasoningField
    case _ => false
  }

  function ListedText(item: Item, field: Field, k: nat): string
    requires Lists(item, field, k)
  {
    if item.MessageItem? then PartText(item.content[k]) else item.summary[k]
  }

  function ItemSays(output: int, item: Item, key: Key, before: string): string {
    if key.TextKey? && key.output == output && Lists(item, key.field, key.index) then
      ListedText(item, key.field, key.index)
    else before
  }

  function ItemsSay(items: seq<Item>, key: Key, before: string): string {
    if key.output < |items| then ItemSays(key.output, items[key.output], key, before) else before
  }

  /** A part's text after an event, given its text before. */
  function SaidBy(e: Event, key: Key, before: string): string {
    match e.kind
    case TextEvent(_, full) =>
      if !IndicesOk(e) || TextKeyOf(e) != key then before else if full then TextValueOf(e) else before + e.delta
    case ItemEvent => ItemSays(e.outputIndex, e.item, key, before)
    case Terminal =>
      if e.response.Some? && e.response.value.output.Some? then ItemsSay(e.response.value.output.value, key, before)
      else before
    case _ => before
  }

  function Said(events: seq<Event>, key: Key): string {
    if events == [] then "" else SaidBy(events[|events| - 1], key, Said(events[..|events| - 1], key))
  }

  lemma PutTextSays(w: Work, key: Key, value: string, full: bool, v: Work, k: Key)
    requires PutText(w, key, value, full) == Ok(v)
    ensures Lookup(v.s.text, k) ==
      if k != key then Lookup(w.s.text, k) else if full then value else Lookup(w.s.text, key) + value
  {
    assert full ==> Lookup(w.s.text, key) + Tail(value, Lookup(w.s.text, key)) == value;
  }

  lemma {:induction false} PutPartsSay(w: Work, output: nat, parts: seq<Part>, v: Work, key: Key)
    requires PutParts(w, output, parts) == Ok(v)
    ensures Lookup(v.s.text, key) == ItemSays(output, MessageItem(parts), key, Lookup(w.s.text, key))
  {
    if parts != [] {
      var n := |parts| - 1;
      var u := PutParts(w, output, parts[..n]).value;
      PutPartsSay(w, output, parts[..n], u, key);
      PutTextSays(u, TextKey(PartField(parts[n]), output, n), PartText(parts[n]), true, v, key);
    }
  }

  lemma {:induction false} PutSummarySays(w: Work, output: nat, summary: seq<string>, v: Work, key: Key)
    requires PutSummary(w, output, summary) == Ok(v)
    ensures Lookup(v.s.text, key) == ItemSays(output, ReasoningItem(summary), key, Lookup(w.s.text, key))
  {
    if summary != [] {
      var n := |summary| - 1;
      var u := PutSummary(w, output, summary[..n]).value;
      PutSummarySays(w, output, summary[..n], u, key);
      PutTextSays(u, TextKey(ReasoningField, output, n), summary[n], true, v, key);
    }
  }

  lemma PutItemSays(w: Work, output: nat, item: Item, v: Work, key: Key)
    requires PutItem(w, output, item) == Ok(v) && !key.ToolKey?
    ensures Lookup(v.s.text, key) == ItemSays(output, item, key, Lookup(w.s.text, key))
  {
    match item
    case MessageItem(content) => PutPartsSay(w, output, content, v, key);
    case ReasoningItem(summary) => PutSummarySays(w, output, summary, v, key);
    case _ =>
  }

  lemma {:induction false} PutItemsSay(w: Work, items: seq<Item>, v: Work, key: Key)
    requires PutItems(w, items) == Ok(v) && !key.ToolKey?
    ensures Lookup(v.s.text, key) == ItemsSay(items, key, Lookup(w.s.text, key))
  {
    if items != [] {
      var n := |items| - 1;
      var u := PutItems(w, items[..n]).value;
      PutItemsSay(w, items[..n], u, key);
      PutItemSays(u, n, items[n], v, key);
    }
  }

  lemma HandleSays(w: Work, e: Event, includeUsage: bool, v: Work, key: Key)
    requires Handle(w, e, includeUsage) == Ok(v) && !key.ToolKey?
    ensures Lookup(v.s.text, key) == SaidBy(e, key, Lookup(w.s.text, key))
  {
    var g := Greet(w, e);
    match e.kind
    case TextEvent(_, full) => PutTextSays(g, TextKeyOf(e), TextValueOf(e), full, v, key);
    case ItemEvent => PutItemSays(g, e.outputIndex, e.item, v, key);
    case Terminal =>
      PutItemsSay(g, e.response.value.output.value, PutItems(g, e.response.value.output.value).value, key);
    case _ =>
  }

  /** In every accepted run, what has been sent for a part is what the events said. */
  lemma {:induction false} SaidIsSent(events: seq<Event>, includeUsage: bool, w: Work, key: Key)
    requires HandleAll(events, includeUsage) == Ok(w) && !key.ToolKey?
    ensures Emitted(w.out, key) == Lookup(w.s.text, key) == Said(events, key)
  {
    RunAgrees(events, includeUsage, w);
    if events != [] {
      var u := HandleAll(events[..|events| - 1], includeUsage).value;
      SaidIsSent(events[..|events| - 1], includeUsage, u, key);
      HandleSays(u, events[|events| - 1], includeUsage, w, key);
    }
  }

  // ---- Where an event's deltas go -------------------------------------------------------------------------

  function IndexIn(key: Key): nat {
    match key case TextKey(_, _, index) => index case RawKey(_, index) => index case ToolKey(_) => 0
  }

  predicate Under(o: nat, i: nat, p: nat, k: nat) {
    o < p || (o == p && i < k)
  }

  predicate Before(a: Key, b: Key) {
    Under(a.output, IndexIn(a), b.output, IndexIn(b))
  }

  /** A delta has text, for a part from position (o, i) on and before (p, k). */
  predicate Within(e: Emission, o: nat, i: nat, p: nat, k: nat) {
    e.Delta? ==> e.text != "" && !Under(e.key.output, IndexIn(e.key), o, i) && Under(e.key.output, IndexIn(e.key), p, k)
  }

  predicate OrderedFrom(out: seq<Emission>, n: nat) {
    forall a, b :: n <= a < b < |out| && out[a].Delta? && out[b].Delta? ==> !Before(out[b].key, out[a].key)
  }

  /** What was added lies between two positions, in order. */
  predicate Spans(out: seq<Emission>, all: seq<Emission>, o: nat, i: nat, p: nat, k: nat) {
    out <= all && OrderedFrom(all, |out|) && forall a :: |out| <= a < |all| ==> Within(all[a], o, i, p, k)
  }

  lemma SpansOn(out: seq<Emission>, mid: seq<Emission>, all: seq<Emission>, o: nat, i: nat, p: nat, k: nat, q: nat,
      l: nat)
    requires Spans(out, mid, o, i, p, k) && Spans(mid, all, p, k, q, l) && !Under(p, k, o, i) && !Under(q, l, p, k)
    ensures Spans(out, all, o, i, q, l)
  {
    forall a | |out| <= a < |all| ensures Within(all[a], o, i, q, l) && (a < |mid| ==> Within(all[a], o, i, p, k)) {
      if a < |mid| { assert all[a] == mid[a] && Within(mid[a], o, i, p, k); }
        else { assert Within(all[a], p, k, q, l); }
    }
    forall a, b | |out| <= a < b < |all| && all[a].Delta? && all[b].Delta? ensures !Before(all[b].key, all[a].key) {
      if b < |mid| { assert all[a] == mid[a] && all[b] == mid[b]; } else { assert Within(all[b], p, k, q, l); }
    }
  }

  lemma GrowSpans(w: Work, key: Key, suffix: string, index: nat, custom: bool)
    ensures Spans(w.out, Grow(w, key, suffix, index, custom).out, key.output, IndexIn(key), key.output,
        IndexIn(key) + 1)
  {
  }

  lemma PutTextSpans(w: Work, key: Key, value: string, full: bool, v: Work)
    requires PutText(w, key, value, full) == Ok(v)
    ensures Spans(w.out, v.out, key.output, IndexIn(key), key.output, IndexIn(key) + 1)
  {
    GrowSpans(w, key, if full then Tail(value, Lookup(w.s.text, key)) else value, 0, false);
  }

  lemma {:induction false} PutPartsSpan(w: Work, output: nat, parts: seq<Part>, v: Work)
    requires PutParts(w, output, parts) == Ok(v)
    ensures Spans(w.out, v.out, output, 0, output, |parts|)
  {
    if parts != [] {
      var n := |parts| - 1;
      var u := PutParts(w, output, parts[..n]).value;
      PutPartsSpan(w, output, parts[..n], u);
      PutTextSpans(u, TextKey(PartField(parts[n]), output, n), PartText(parts[n]), true, v);
      SpansOn(w.out, u.out, v.out, output, 0, output, n, output, n + 1);
    }
  }

  lemma {:induction false} PutSummarySpans(w: Work, output: nat, summary: seq<string>, v: Work)
    requires PutSummary(w, output, summary) == Ok(v)
    ensures Spans(w.out, v.out, output, 0, output, |summary|)
  {
    if summary != [] {
      var n := |summary| - 1;
      var u := PutSummary(w, output, summary[..n]).value;
      PutSummarySpans(w, output, summary[..n], u);
      PutTextSpans(u, TextKey(ReasoningField, output, n), summary[n], true, v);
      SpansOn(w.out, u.out, v.out, output, 0, output, n, output, n + 1);
    }
  }

  lemma PutToolSpans(w: Work, output: nat, tool: Tool, value: string, v: Work)
    requires PutTool(w, output, tool, value) == Ok(v)
    ensures Spans(w.out, v.out, output, 0, output, 1)
  {
    var a := Announce(w, output, tool);
    GrowSpans(a, ToolKey(output), Tail(value, Lookup(a.s.text, ToolKey(output))), IndexOf(a.s, output), tool.custom);
    SpansOn(w.out, a.out, v.out, output, 0, output, 0, output, 1);
  }

  lemma Wider(out: seq<Emission>, all: seq<Emission>, output: nat, k: nat)
    requires Spans(out, all, output, 0, output, k)
    ensures Spans(out, all, output, 0, output + 1, 0)
  {
    forall a | |out| <= a < |all| ensures Within(all[a], output, 0, output + 1, 0) {
      assert Within(all[a], output, 0, output, k);
    }
  }

  lemma PutItemSpans(w: Work, output: nat, item: Item, v: Work)
    requires PutItem(w, output, item) == Ok(v)
    ensures Spans(w.out, v.out, output, 0, output + 1, 0)
  {
    match item
    case ToolItem(_, _, _, _, _) =>
      PutToolSpans(w, output, ToolOf(item), ValueOf(item), v);
      Wider(w.out, v.out, output, 1);
    case MessageItem(content) =>
      PutPartsSpan(w, output, content, v);
      Wider(w.out, v.out, output, |content|);
    case ReasoningItem(summary) =>
      PutSummarySpans(w, output, summary, v);
      Wider(w.out, v.out, output, |summary|);
    case OtherItem =>
  }

  lemma {:induction false} PutItemsSpan(w: Work, items: seq<Item>, v: Work)
    requires PutItems(w, items) == Ok(v)
    ensures Spans(w.out, v.out, 0, 0, |items|, 0)
  {
    if items != [] {
      var n := |items| - 1;
      var u := PutItems(w, items[..n]).value;
      PutItemsSpan(w, items[..n], u);
      PutItemSpans(u, n, items[n], v);
      SpansOn(w.out, u.out, v.out, 0, 0, n, 0, n + 1, 0);
    }
  }

  /** One event's new deltas have text and go through the parts in order. */
  predicate Onward(out: seq<Emission>, all: seq<Emission>) {
    out <= all && OrderedFrom(all, |out|) && forall a :: |out| <= a < |all| && all[a].Delta? ==> all[a].text != ""
  }

  lemma SpansOnward(out: seq<Emission>, all: seq<Emission>, o: nat, i: nat, p: nat, k: nat)
    requires Spans(out, all, o, i, p, k)
    ensures Onward(out, all)
  {
    forall a | |out| <= a < |all| && all[a].Delta? ensures all[a].text != "" {
      assert Within(all[a], o, i, p, k);
    }
  }

  lemma QuietOnward(out: seq<Emission>, mid: seq<Emission>, all: seq<Emission>)
    requires out <= mid <= all && Onward(out, mid) && forall a :: |mid| <= a < |all| ==> !all[a].Delta?
    ensures Onward(out, all)
  {
    forall a | |out| <= a < |mid| ensures all[a] == mid[a] {}
  }

  lemma QuietFirst(out: seq<Emission>, mid: seq<Emission>, all: seq<Emission>)
    requires out <= mid <= all && Onward(mid, all) && forall a :: |out| <= a < |mid| ==> !mid[a].Delta?
    ensures Onward(out, all)
  {
    forall a | |out| <= a < |mid| ensures all[a] == mid[a] {}
  }

  lemma ApplyOnward(w: Work, e: Event, includeUsage: bool, v: Work)
    requires IndicesOk(e) && Apply(w, e, includeUsage) == Ok(v)
    ensures Onward(w.out, v.out)
  {
    match e.kind
    case TextEvent(_, full) =>
      var key := TextKeyOf(e);
      PutTextSpans(w, key, TextValueOf(e), full, v);
      SpansOnward(w.out, v.out, key.output, IndexIn(key), key.output, IndexIn(key) + 1);
    case ItemEvent =>
      PutItemSpans(w, e.outputIndex, e.item, v);
      SpansOnward(w.out, v.out, e.outputIndex, 0, e.outputIndex + 1, 0);
    case InputEvent(_) =>
      PutToolSpans(w, e.outputIndex, w.s.tools[e.outputIndex], InputValueOf(w.s, e), v);
      SpansOnward(w.out, v.out, e.outputIndex, 0, e.outputIndex, 1);
    case Terminal =>
      var items := e.response.value.output.value;
      var u := PutItems(w, items).value;
      PutItemsSpan(w, items, u);
      SpansOnward(w.out, u.out, 0, 0, |items|, 0);
      QuietOnward(w.out, u.out, v.out);
    case OtherKind =>
  }

  lemma HandleOnward(w: Work, e: Event, includeUsage: bool, v: Work)
    requires Handle(w, e, includeUsage) == Ok(v)
    ensures Onward(w.out, v.out)
  {
    ApplyOnward(Greet(w, e), e, includeUsage, v);
    QuietFirst(w.out, Greet(w, e).out, v.out);
  }

  /** Every delta of an accepted run has text. */
  predicate Telling(out: seq<Emission>) {
    forall a :: 0 <= a < |out| && out[a].Delta? ==> out[a].text != ""
  }

  lemma {:induction false} RunTells(events: seq<Event>, includeUsage: bool, w: Work)
    requires HandleAll(events, includeUsage) == Ok(w)
    ensures Telling(w.out)
  {
    if events != [] {
      var u := HandleAll(events[..|events| - 1], includeUsage).value;
      RunTells(events[..|events| - 1], includeUsage, u);
      HandleOnward(u, events[|events| - 1], includeUsage, w);
      forall a | 0 <= a < |u.out| ensures w.out[a] == u.out[a] {}
    }
  }

  // ---- The order in which tools first appear --------------------------------------------------------------

  function AddTool(seen: seq<nat>, output: nat): seq<nat> {
    if output in seen then seen else seen + [output]
  }

  function AddTools(seen: seq<nat>, items: seq<Item>): seq<nat> {
    if items == [] then seen
    else
      var front := AddTools(seen, items[..|items| - 1]);
      if items[|items| - 1].ToolItem? then AddTool(front, |items| - 1) else front
  }

  function SeenBy(e: Event, seen: seq<nat>): seq<nat> {
    match e.kind
    case ItemEvent => if e.item.ToolItem? && e.outputIndex >= 0 then AddTool(seen, e.outputIndex) else seen
    case Terminal =>
      if e.response.Some? && e.response.value.output.Some? then AddTools(seen, e.response.value.output.value) else seen
    case _ => seen
  }

  /** The outputs at which the events have mentioned tools, in order of first mention. */
  function ToolsSeen(events: seq<Event>): seq<nat> {
    if events == [] then [] else SeenBy(events[|events| - 1], ToolsSeen(events[..|events| - 1]))
  }

  /** The outputs of the announced tools, in the order announced. */
  function ToolsOpened(out: seq<Emission>): seq<nat> {
    if out == [] then []
    else ToolsOpened(out[..|out| - 1]) + if out[|out| - 1].Opened? then [out[|out| - 1].output] else []
  }

  lemma OpenedSnoc(out: seq<Emission>, e: Emission)
    ensures ToolsOpened(out + [e]) == ToolsOpened(out) + if e.Opened? then [e.output] else []
  {
    assert (out + [e])[..|out|] == out;
  }

  /** The stored tools are the ones seen, each at its position. */
  ghost predicate Placed(s: State, seen: seq<nat>) {
    && |s.tools| == |seen| && s.tools.Keys == s.toolIndex.Keys
    && (forall o :: o in s.tools <==> o in seen)
    && (forall i :: 0 <= i < |seen| ==> PlacedAt(s, seen, i))
  }

  predicate PlacedAt(s: State, seen: seq<nat>, i: nat)
    requires i < |seen|
  {
    seen[i] in s.toolIndex && s.toolIndex[seen[i]] == i
  }

  ghost predicate Follows(w: Work, seen: seq<nat>) {
    ToolsOpened(w.out) == seen && Placed(w.s, seen)
  }

  lemma GrowFollows(w: Work, key: Key, suffix: string, index: nat, custom: bool, seen: seq<nat>)
    requires Follows(w, seen)
    ensures Follows(Grow(w, key, suffix, index, custom), seen)
  {
    OpenedSnoc(w.out, Delta(key, index, custom, suffix));
    SameTools(w.s, Grow(w, key, suffix, index, custom).s, seen);
  }

  lemma SameTools(s: State, t: State, seen: seq<nat>)
    requires Placed(s, seen) && t.tools == s.tools && t.toolIndex == s.toolIndex
    ensures Placed(t, seen)
  {
    forall i | 0 <= i < |seen| ensures PlacedAt(t, seen, i) {
      assert PlacedAt(s, seen, i);
    }
  }

  lemma AnnouncePlaced(s: State, t: State, output: nat, tool: Tool, seen: seq<nat>)
    requires Placed(s, seen) && output !in s.tools
    requires t.tools == s.tools[output := tool] && t.toolIndex == s.toolIndex[output := |s.tools|]
    ensures Placed(t, seen + [output])
  {
    OneMore(s.tools, output, tool);
    forall i | 0 <= i < |seen + [output]| ensures PlacedAt(t, seen + [output], i) {
      assert i < |seen| ==> PlacedAt(s, seen, i) && seen[i] in seen;
    }
  }

  lemma PutToolFollows(w: Work, output: nat, tool: Tool, value: string, v: Work, seen: seq<nat>)
    requires PutTool(w, output, tool, value) == Ok(v) && Follows(w, seen)
    ensures Follows(v, AddTool(seen, output))
  {
    var a := Announce(w, output, tool);
    if output !in w.s.tools {
      OpenedSnoc(w.out, Opened(output, |w.s.tools|, tool));
      AnnouncePlaced(w.s, a.s, output, tool, seen);
    }
    GrowFollows(a, ToolKey(output), Tail(value, Lookup(a.s.text, ToolKey(output))), IndexOf(a.s, output), tool.custom,
        AddTool(seen, output));
  }

  lemma PutTextFollows(w: Work, key: Key, value: string, full: bool, v: Work, seen: seq<nat>)
    requires PutText(w, key, value, full) == Ok(v) && Follows(w, seen)
    ensures Follows(v, seen)
  {
    GrowFollows(w, key, if full then Tail(value, Lookup(w.s.text, key)) else value, 0, false, seen);
  }

  lemma {:induction false} PutPartsFollow(w: Work, output: nat, parts: seq<Part>, v: Work, seen: seq<nat>)
    requires PutParts(w, output, parts) == Ok(v) && Follows(w, seen)
    ensures Follows(v, seen)
  {
    if parts != [] {
      var n := |parts| - 1;
      var u := PutParts(w, output, parts[..n]).value;
      PutPartsFollow(w, output, parts[..n], u, seen);
      PutTextFollows(u, TextKey(PartField(parts[n]), output, n), PartText(parts[n]), true, v, seen);
    }
  }

  lemma {:induction false} PutSummaryFollows(w: Work, output: nat, summary: seq<string>, v: Work, seen: seq<nat>)
    requires PutSummary(w, output, summary) == Ok(v) && Follows(w, seen)
    ensures Follows(v, seen)
  {
    if summary != [] {
      var n := |summary| - 1;
      var u := PutSummary(w, output, summary[..n]).value;
      PutSummaryFollows(w, output, summary[..n], u, seen);
      PutTextFollows(u, TextKey(ReasoningField, output, n), summary[n], true, v, seen);
    }
  }

  lemma PutItemFollows(w: Work, output: nat, item: Item, v: Work, seen: seq<nat>)
    requires PutItem(w, output, item) == Ok(v) && Follows(w, seen)
    ensures Follows(v, if item.ToolItem? then AddTool(seen, output) else seen)
  {
    match item
    case ToolItem(_, _, _, _, _) => PutToolFollows(w, output, ToolOf(item), ValueOf(item), v, seen);
    case MessageItem(content) => PutPartsFollow(w, output, content, v, seen);
    case ReasoningItem(summary) => PutSummaryFollows(w, output, summary, v, seen);
    case OtherItem =>
  }

  lemma {:induction false} PutItemsFollow(w: Work, items: seq<Item>, v: Work, seen: seq<nat>)
    requires PutItems(w, items) == Ok(v) && Follows(w, seen)
    ensures Follows(v, AddTools(seen, items))
  {
    if items != [] {
      var n := |items| - 1;
      var u := PutItems(w, items[..n]).value;
      PutItemsFollow(w, items[..n], u, seen);
      PutItemFollows(u, n, items[n], v, AddTools(seen, items[..n]));
    }
  }

  lemma PlainFollows(w: Work, s: State, e: Emission, seen: seq<nat>)
    requires Follows(w, seen) && s.tools == w.s.tools && s.toolIndex == w.s.toolIndex && !e.Opened?
    ensures Follows(Work(s, w.out + [e]), seen)
  {
    OpenedSnoc(w.out, e);
    SameTools(w.s, s, seen);
  }

  lemma FinaleFollows(w: Work, r: Response, includeUsage: bool, seen: seq<nat>)
    requires Follows(w, seen)
    ensures Follows(Finale(w, r, includeUsage), seen)
  {
    var finished := Work(w.s, w.out + [Finished(FinishOf(r.status, |w.s.tools| > 0))]);
    PlainFollows(w, w.s, Finished(FinishOf(r.status, |w.s.tools| > 0)), seen);
    if includeUsage && r.usage {
      PlainFollows(finished, w.s, UsageSent, seen);
      PlainFollows(Work(w.s, finished.out + [UsageSent]), w.s, DoneSent, seen);
      assert Finale(w, r, includeUsage).out == finished.out + [UsageSent] + [DoneSent];
    } else {
      PlainFollows(finished, w.s, DoneSent, seen);
      assert Finale(w, r, includeUsage).out == finished.out + [DoneSent];
    }
  }

  lemma AgainSeen(s: State, seen: seq<nat>, o: nat)
    requires Placed(s, seen) && o in s.tools
    ensures AddTool(seen, o) == seen
  {
  }

  lemma ApplyFollows(w: Work, e: Event, includeUsage: bool, v: Work, seen: seq<nat>)
    requires IndicesOk(e) && Apply(w, e, includeUsage) == Ok(v) && Follows(w, seen)
    ensures Follows(v, SeenBy(e, seen))
  {
    match e.kind
    case TextEvent(_, full) => PutTextFollows(w, TextKeyOf(e), TextValueOf(e), full, v, seen);
    case ItemEvent => PutItemFollows(w, e.outputIndex, e.item, v, seen);
    case InputEvent(_) =>
      PutToolFollows(w, e.outputIndex, w.s.tools[e.outputIndex], InputValueOf(w.s, e), v, seen);
      AgainSeen(w.s, seen, e.outputIndex);
    case Terminal =>
      var u := PutItems(w, e.response.value.output.value).value;
      PutItemsFollow(w, e.response.value.output.value, u, seen);
      FinaleFollows(u, e.response.value, includeUsage, AddTools(seen, e.response.value.output.value));
    case OtherKind =>
  }

  lemma GreetFollows(w: Work, e: Event, seen: seq<nat>)
    requires Follows(w, seen)
    ensures Follows(Greet(w, e), seen)
  {
    if w.s.role {
      SameTools(w.s, Greet(w, e).s, seen);
    } else {
      PlainFollows(w, Greet(w, e).s, RoleSent, seen);
    }
  }

  /** In every accepted run the tools are announced in the order the events first mentioned them. */
  lemma {:induction false} ToolsAsSeen(events: seq<Event>, includeUsage: bool, w: Work)
    requires HandleAll(events, includeUsage) == Ok(w)
    ensures Follows(w, ToolsSeen(events))
  {
    if events != [] {
      var front, e := events[..|events| - 1], events[|events| - 1];
      var u := HandleAll(front, includeUsage).value;
      ToolsAsSeen(front, includeUsage, u);
      GreetFollows(u, e, ToolsSeen(front));
      ApplyFollows(Greet(u, e), e, includeUsage, w, ToolsSeen(front));
    }
  }
}
