/** What a terminal event settles: every listed part has been sent exactly, and when the client's message is the
    one-shot message of the terminal output. */
module ResponsesFinal {
  import opened Outcomes
  import opened ChatWire
  import opened ResponsesChat
  import opened ResponsesAgreement

  // ---- Identities are fixed and texts only grow -----------------------------------------------------------

  predicate KeepsTool(s: State, t: State, o: nat) {
    o in s.tools && o in s.toolIndex ==>
      o in t.tools && t.tools[o] == s.tools[o] && o in t.toolIndex && t.toolIndex[o] == s.toolIndex[o]
  }

  ghost predicate Extends(s: State, t: State) {
    (forall o :: KeepsTool(s, t, o)) && (forall key :: Lookup(s.text, key) <= Lookup(t.text, key))
  }

  lemma ExtendsOn(s: State, t: State, u: State)
    requires Extends(s, t) && Extends(t, u)
    ensures Extends(s, u)
  {
    forall o ensures KeepsTool(s, u, o) {
      assert KeepsTool(s, t, o) && KeepsTool(t, u, o);
    }
    forall key ensures Lookup(s.text, key) <= Lookup(u.text, key) {
      assert Lookup(s.text, key) <= Lookup(t.text, key) && Lookup(t.text, key) <= Lookup(u.text, key);
    }
  }

  lemma ExtendsSelf(s: State, t: State)
    requires t.text == s.text && t.tools == s.tools && t.toolIndex == s.toolIndex
    ensures Extends(s, t)
  {
  }

  lemma GrowExtends(w: Work, key: Key, suffix: string, index: nat, custom: bool)
    ensures Extends(w.s, Grow(w, key, suffix, index, custom).s)
  {
  }

  lemma PutTextExtends(w: Work, key: Key, value: string, full: bool, v: Work)
    requires PutText(w, key, value, full) == Ok(v)
    ensures Extends(w.s, v.s)
  {
    GrowExtends(w, key, if full then Tail(value, Lookup(w.s.text, key)) else value, 0, false);
  }

  lemma AnnounceExtends(w: Work, output: nat, tool: Tool)
    ensures Extends(w.s, Announce(w, output, tool).s)
  {
    forall o ensures KeepsTool(w.s, Announce(w, output, tool).s, o) {}
  }

  lemma PutToolExtends(w: Work, output: nat, tool: Tool, value: string, v: Work)
    requires PutTool(w, output, tool, value) == Ok(v)
    ensures Extends(w.s, v.s)
  {
    var a := Announce(w, output, tool);
    AnnounceExtends(w, output, tool);
    GrowExtends(a, ToolKey(output), Tail(value, Lookup(a.s.text, ToolKey(output))), IndexOf(a.s, output), tool.custom);
    ExtendsOn(w.s, a.s, v.s);
  }

  lemma {:induction false} PutPartsExtends(w: Work, output: nat, parts: seq<Part>, v: Work)
    requires PutParts(w, output, parts) == Ok(v)
    ensures Extends(w.s, v.s)
  {
    if parts == [] {
      ExtendsSelf(w.s, v.s);
    } else {
      var n := |parts| - 1;
      var u := PutParts(w, output, parts[..n]).value;
      PutPartsExtends(w, output, parts[..n], u);
      PutTextExtends(u, TextKey(PartField(parts[n]), output, n), PartText(parts[n]), true, v);
      ExtendsOn(w.s, u.s, v.s);
    }
  }

  lemma {:induction false} PutSummaryExtends(w: Work, output: nat, summary: seq<string>, v: Work)
    requires PutSummary(w, output, summary) == Ok(v)
    ensures Extends(w.s, v.s)
  {
    if summary == [] {
      ExtendsSelf(w.s, v.s);
    } else {
      var n := |summary| - 1;
      var u := PutSummary(w, output, summary[..n]).value;
      PutSummaryExtends(w, output, summary[..n], u);
      PutTextExtends(u, TextKey(ReasoningField, output, n), summary[n], true, v);
      ExtendsOn(w.s, u.s, v.s);
    }
  }

  lemma PutItemExtends(w: Work, output: nat, item: Item, v: Work)
    requires PutItem(w, output, item) == Ok(v)
    ensures Extends(w.s, v.s)
  {
    match item
    case ToolItem(_, _, _, _, _) => PutToolExtends(w, output, ToolOf(item), ValueOf(item), v);
    case MessageItem(content) => PutPartsExtends(w, output, content, v);
    case ReasoningItem(summary) => PutSummaryExtends(w, output, summary, v);
    case OtherItem =>
  }

  lemma {:induction false} PutItemsExtends(w: Work, items: seq<Item>, v: Work)
    requires PutItems(w, items) == Ok(v)
    ensures Extends(w.s, v.s)
  {
    if items == [] {
      ExtendsSelf(w.s, v.s);
    } else {
      var u := PutItems(w, items[..|items| - 1]).value;
      PutItemsExtends(w, items[..|items| - 1], u);
      PutItemExtends(u, |items| - 1, items[|items| - 1], v);
      ExtendsOn(w.s, u.s, v.s);
    }
  }

  lemma ApplyExtends(w: Work, e: Event, includeUsage: bool, v: Work)
    requires IndicesOk(e) && Apply(w, e, includeUsage) == Ok(v)
    ensures Extends(w.s, v.s)
  {
    match e.kind
    case TextEvent(_, full) => PutTextExtends(w, TextKeyOf(e), TextValueOf(e), full, v);
    case ItemEvent => PutItemExtends(w, e.outputIndex, e.item, v);
    case InputEvent(_) => PutToolExtends(w, e.outputIndex, w.s.tools[e.outputIndex], InputValueOf(w.s, e), v);
    case Terminal =>
      var u := PutItems(w, e.response.value.output.value).value;
      PutItemsExtends(w, e.response.value.output.value, u);
      ExtendsSelf(u.s, v.s);
      ExtendsOn(w.s, u.s, v.s);
    case OtherKind => ExtendsSelf(w.s, v.s);
  }

  /** No accepted event changes a tool's identity or position, or takes back text. */
  lemma HandleExtends(w: Work, e: Event, includeUsage: bool, v: Work)
    requires Handle(w, e, includeUsage) == Ok(v)
    ensures Extends(w.s, v.s)
  {
    ExtendsSelf(w.s, Greet(w, e).s);
    ApplyExtends(Greet(w, e), e, includeUsage, v);
    ExtendsOn(w.s, Greet(w, e).s, v.s);
  }

  // ---- Listed parts are sent exactly ----------------------------------------------------------------------

  predicate Shown(s: State, output: nat, item: Item) {
    match item
    case MessageItem(content) => forall k :: 0 <= k < |content| ==>
      Lookup(s.text, TextKey(PartField(content[k]), output, k)) == PartText(content[k])
    case ReasoningItem(summary) => forall k :: 0 <= k < |summary| ==>
      Lookup(s.text, TextKey(ReasoningField, output, k)) == summary[k]
    case ToolItem(_, _, _, _, _) =>
      output in s.tools && s.tools[output] == ToolOf(item) && Lookup(s.text, ToolKey(output)) == ValueOf(item)
    case OtherItem => false
  }

  /** Only keys and tools of one output item may differ. */
  ghost predicate OnlyOutput(s: State, t: State, output: nat) {
    && (forall key: Key :: key.output != output ==> Lookup(t.text, key) == Lookup(s.text, key))
    && (forall o :: o != output && o in s.tools ==> o in t.tools && t.tools[o] == s.tools[o])
    && (forall o :: o != output && o in t.tools ==> o in s.tools)
  }

  lemma PutTextSets(w: Work, key: Key, value: string, v: Work)
    requires PutText(w, key, value, true) == Ok(v)
    ensures Lookup(v.s.text, key) == value && v.s.tools == w.s.tools
    ensures forall k :: k != key ==> Lookup(v.s.text, k) == Lookup(w.s.text, k)
    ensures OnlyOutput(w.s, v.s, key.output)
  {
    assert Lookup(w.s.text, key) + Tail(value, Lookup(w.s.text, key)) == value;
  }

  lemma PartsSnoc(u: State, v: State, output: nat, parts: seq<Part>)
    requires parts != [] && Shown(u, output, MessageItem(parts[..|parts| - 1]))
    requires Lookup(v.text, TextKey(PartField(parts[|parts| - 1]), output, |parts| - 1)) == PartText(parts[|parts| - 1])
    requires forall k :: k != TextKey(PartField(parts[|parts| - 1]), output, |parts| - 1) ==>
      Lookup(v.text, k) == Lookup(u.text, k)
    ensures Shown(v, output, MessageItem(parts))
  {
    var n := |parts| - 1;
    forall k | 0 <= k < n ensures Lookup(v.text, TextKey(PartField(parts[k]), output, k)) == PartText(parts[k]) {
      assert parts[..n][k] == parts[k];
    }
  }

  lemma OnlyOutputOn(s: State, t: State, u: State, output: nat)
    requires OnlyOutput(s, t, output) && OnlyOutput(t, u, output)
    ensures OnlyOutput(s, u, output)
  {
  }

  lemma {:induction false} PutPartsShow(w: Work, output: nat, parts: seq<Part>, v: Work)
    requires PutParts(w, output, parts) == Ok(v)
    ensures Shown(v.s, output, MessageItem(parts)) && OnlyOutput(w.s, v.s, output)
  {
    if parts != [] {
      var n := |parts| - 1;
      var u := PutParts(w, output, parts[..n]).value;
      PutPartsShow(w, output, parts[..n], u);
      PutTextSets(u, TextKey(PartField(parts[n]), output, n), PartText(parts[n]), v);
      PartsSnoc(u.s, v.s, output, parts);
      OnlyOutputOn(w.s, u.s, v.s, output);
    }
  }

  lemma {:induction false} PutSummaryShow(w: Work, output: nat, summary: seq<string>, v: Work)
    requires PutSummary(w, output, summary) == Ok(v)
    ensures Shown(v.s, output, ReasoningItem(summary)) && OnlyOutput(w.s, v.s, output)
  {
    if summary != [] {
      var n := |summary| - 1;
      var u := PutSummary(w, output, summary[..n]).value;
      PutSummaryShow(w, output, summary[..n], u);
      PutTextSets(u, TextKey(ReasoningField, output, n), summary[n], v);
      forall k | 0 <= k < n ensures Lookup(v.s.text, TextKey(ReasoningField, output, k)) == summary[k] {
        assert summary[..n][k] == summary[k];
      }
    }
  }

  lemma PutToolShow(w: Work, output: nat, item: Item, v: Work)
    requires item.ToolItem? && PutTool(w, output, ToolOf(item), ValueOf(item)) == Ok(v)
    ensures Shown(v.s, output, item) && OnlyOutput(w.s, v.s, output)
  {
    var previous := Lookup(Announce(w, output, ToolOf(item)).s.text, ToolKey(output));
    assert previous + Tail(ValueOf(item), previous) == ValueOf(item);
  }

  lemma PutItemShow(w: Work, output: nat, item: Item, v: Work)
    requires PutItem(w, output, item) == Ok(v)
    ensures Shown(v.s, output, item) && OnlyOutput(w.s, v.s, output)
  {
    match item
    case ToolItem(_, _, _, _, _) => PutToolShow(w, output, item, v);
    case MessageItem(content) => PutPartsShow(w, output, content, v);
    case ReasoningItem(summary) => PutSummaryShow(w, output, summary, v);
    case OtherItem =>
  }

  lemma StaysShown(s: State, t: State, output: nat, i: nat, item: Item)
    requires Shown(s, i, item) && OnlyOutput(s, t, output) && i != output
    ensures Shown(t, i, item)
  {
  }

  lemma {:induction false} PutItemsShow(w: Work, items: seq<Item>, v: Work)
    requires PutItems(w, items) == Ok(v)
    ensures forall i :: 0 <= i < |items| ==> Shown(v.s, i, items[i])
  {
    if items != [] {
      var n := |items| - 1;
      var u := PutItems(w, items[..n]).value;
      PutItemsShow(w, items[..n], u);
      PutItemShow(u, n, items[n], v);
      forall i | 0 <= i < n ensures Shown(v.s, i, items[i]) {
        assert Shown(u.s, i, items[..n][i]);
        StaysShown(u.s, v.s, n, i, items[i]);
      }
    }
  }

  /** What a listed item's parts have had sent for them. */
  predicate SentExactly(out: seq<Emission>, output: nat, item: Item) {
    match item
    case MessageItem(content) => forall k :: 0 <= k < |content| ==>
      Emitted(out, TextKey(PartField(content[k]), output, k)) == PartText(content[k])
    case ReasoningItem(summary) => forall k :: 0 <= k < |summary| ==>
      Emitted(out, TextKey(ReasoningField, output, k)) == summary[k]
    case ToolItem(_, _, _, _, _) => Emitted(out, ToolKey(output)) == ValueOf(item)
    case OtherItem => false
  }

  lemma ShownIsSent(w: Work, output: nat, item: Item)
    requires TextsAgree(w) && Shown(w.s, output, item)
    ensures SentExactly(w.out, output, item)
  {
    match item
    case MessageItem(content) =>
      forall k | 0 <= k < |content|
        ensures Emitted(w.out, TextKey(PartField(content[k]), output, k)) == PartText(content[k])
      {
        assert Emitted(w.out, TextKey(PartField(content[k]), output, k)) ==
          Lookup(w.s.text, TextKey(PartField(content[k]), output, k));
      }
    case ReasoningItem(summary) =>
      forall k | 0 <= k < |summary| ensures Emitted(w.out, TextKey(ReasoningField, output, k)) == summary[k] {
        assert Emitted(w.out, TextKey(ReasoningField, output, k)) ==
          Lookup(w.s.text, TextKey(ReasoningField, output, k));
      }
    case ToolItem(_, _, _, _, _) => assert Emitted(w.out, ToolKey(output)) == Lookup(w.s.text, ToolKey(output));
    case OtherItem =>
  }

  /** An accepted run that ends with a terminal event. */
  predicate Ends(events: seq<Event>, includeUsage: bool, w: Work, items: seq<Item>, status: Status) {
    && events != [] && HandleAll(events, includeUsage) == Ok(w)
    && var e := events[|events| - 1];
      e.kind == Terminal && e.response.Some?
      && e.response.value.output == Some(items) && e.response.value.status == status
  }

  lemma EndForm(events: seq<Event>, includeUsage: bool, w: Work, items: seq<Item>,
      status: Status) returns (before: Work, listed: Work)
    requires Ends(events, includeUsage, w, items, status)
    ensures HandleAll(events[..|events| - 1], includeUsage) == Ok(before)
    ensures PutItems(Greet(before, events[|events| - 1]), items) == Ok(listed)
    ensures w == Finale(listed, events[|events| - 1].response.value, includeUsage)
  {
    before := HandleAll(events[..|events| - 1], includeUsage).value;
    listed := PutItems(Greet(before, events[|events| - 1]), items).value;
  }

  /** Main result: at the terminal event every part it lists has been sent to the client in exactly its final text, with
      the listed identity for a tool, whatever was streamed before. */
  lemma TerminalIsExact(events: seq<Event>, includeUsage: bool, w: Work, items: seq<Item>, status: Status)
    requires Ends(events, includeUsage, w, items, status)
    ensures forall i :: 0 <= i < |items| ==> Shown(w.s, i, items[i]) && SentExactly(w.out, i, items[i])
  {
    var before, listed := EndForm(events, includeUsage, w, items, status);
    PutItemsShow(Greet(before, events[|events| - 1]), items, listed);
    RunAgrees(events, includeUsage, w);
    forall i | 0 <= i < |items| ensures Shown(w.s, i, items[i]) && SentExactly(w.out, i, items[i]) {
      assert Shown(listed.s, i, items[i]);
      ShownIsSent(w, i, items[i]);
    }
  }

  // ---- The finish reason ----------------------------------------------------------------------------------

  lemma EndingRead(m: Message, finish: Finish)
    ensures Read(m, Wire(Finished(finish))) == m.(finish := Some(finish))
    ensures Read(m, Wire(UsageSent)) == m && Read(m, Wire(DoneSent)) == m
  {
  }

  lemma FinishRead(out: seq<Emission>, all: seq<Emission>, finish: Finish)
    requires all == out + [Finished(finish)]
    ensures Client(all) == Client(out).(finish := Some(finish))
  {
    SentSnoc(out, Finished(finish));
    EndingRead(Client(out), finish);
  }

  lemma MarkRead(out: seq<Emission>, all: seq<Emission>, e: Emission)
    requires (e == UsageSent || e == DoneSent) && all == out + [e]
    ensures Client(all) == Client(out)
  {
    SentSnoc(out, e);
    EndingRead(Client(out), Stop);
  }

  lemma FinaleClient(listed: Work, r: Response, includeUsage: bool)
    ensures Client(Finale(listed, r, includeUsage).out) ==
      Client(listed.out).(finish := Some(FinishOf(r.status, |listed.s.tools| > 0)))
  {
    var finish := FinishOf(r.status, |listed.s.tools| > 0);
    var finished := listed.out + [Finished(finish)];
    var used := if includeUsage && r.usage then finished + [UsageSent] else finished;
    FinishRead(listed.out, finished, finish);
    if includeUsage && r.usage { MarkRead(finished, used, UsageSent); }
    MarkRead(used, used + [DoneSent], DoneSent);
    FinaleForm(listed, r, includeUsage, finished, used);
  }

  lemma {:induction false} ListedTools(items: seq<Item>)
    ensures ItemsTools(items) != [] <==> exists i :: 0 <= i < |items| && items[i].ToolItem?
  {
    if items != [] {
      var n := |items| - 1;
      ListedTools(items[..n]);
      if exists i :: 0 <= i < n && items[..n][i].ToolItem? {
        var i :| 0 <= i < n && items[..n][i].ToolItem?;
        assert items[i].ToolItem?;
      }
      if exists i :: 0 <= i < |items| && items[i].ToolItem? {
        var i :| 0 <= i < |items| && items[i].ToolItem?;
        if i < n { assert items[..n][i].ToolItem?; }
      }
    }
  }

  lemma FinishByTools(events: seq<Event>, includeUsage: bool, w: Work, items: seq<Item>, status: Status)
    requires Ends(events, includeUsage, w, items, status)
    ensures Client(w.out).finish == OneShot(items, status).finish <==>
      (status != Completed || (|w.s.tools| > 0 ==> ItemsTools(items) != []))
  {
    var before, listed := EndForm(events, includeUsage, w, items, status);
    FinaleClient(listed, events[|events| - 1].response.value, includeUsage);
    TerminalIsExact(events, includeUsage, w, items, status);
    ListedTools(items);
    if ItemsTools(items) != [] {
      var i :| 0 <= i < |items| && items[i].ToolItem?;
      assert i in w.s.tools;
    }
  }
}
