/** What every accepted run of the Responses-to-Chat stream keeps, and where it meets the one-shot conversion. */
module ResponsesAgreement {
  import opened Outcomes
  import opened ChatWire
  import opened ResponsesChat

  function Wire(e: Emission): Chunk {
    match e
    case RoleSent => Role
    case Delta(TextKey(ContentField, _, _), _, _, text) => Content(text)
    case Delta(TextKey(RefusalField, _, _), _, _, text) => Refusal(text)
    case Delta(TextKey(ReasoningField, _, _), _, _, text) => Reasoning(text)
    case Delta(RawKey(_, _), _, _, text) => Reasoning(text)
    case Delta(ToolKey(_), index, custom, text) => ToolInput(index, custom, text)
    case Opened(_, index, tool) => ToolStart(index, tool.callId, tool.custom, tool.name)
    case Finished(finish) => End(finish)
    case UsageSent => Usage
    case DoneSent => DoneMark
  }

  /** The message a client has read so far. */
  function Client(out: seq<Emission>): Message {
    if out == [] then EMPTY else Read(Client(out[..|out| - 1]), Wire(out[|out| - 1]))
  }

  function Emitted(out: seq<Emission>, key: Key): string {
    if out == [] then "" else Emitted(out[..|out| - 1], key) + Piece(out[|out| - 1], key)
  }

  function Piece(e: Emission, key: Key): string {
    if e.Delta? && e.key == key then e.text else ""
  }

  function TotalSent(out: seq<Emission>): nat {
    if out == [] then 0 else TotalSent(out[..|out| - 1]) + if out[|out| - 1].Delta? then |out[|out| - 1].text| else 0
  }

  lemma EmittedSnoc(out: seq<Emission>, e: Emission, key: Key)
    ensures Emitted(out + [e], key) == Emitted(out, key) + Piece(e, key)
  {
    assert (out + [e])[..|out|] == out;
  }

  lemma SentSnoc(out: seq<Emission>, e: Emission)
    ensures TotalSent(out + [e]) == TotalSent(out) + if e.Delta? then |e.text| else 0
    ensures Client(out + [e]) == Read(Client(out), Wire(e))
  {
    assert (out + [e])[..|out|] == out;
  }

  // ---- The invariant of a run -----------------------------------------------------------------------------

  /** What was sent for each key is what is stored, and the size is what was sent. */
  ghost predicate TextsAgree(w: Work) {
    (forall key :: Emitted(w.out, key) == Lookup(w.s.text, key)) && w.s.size == TotalSent(w.out) <= MAX_STREAM
  }

  /** Positions are dense and fixed one to one. */
  ghost predicate Dense(s: State) {
    && s.tools.Keys == s.toolIndex.Keys && |s.tools| <= MAX_PARTS
    && (forall o :: o in s.tools ==> s.toolIndex[o] < |s.tools|)
    && (forall o, p :: o in s.tools && p in s.tools && o != p ==> s.toolIndex[o] != s.toolIndex[p])
    && (forall o :: o !in s.tools ==> ToolKey(o) !in s.text)
  }

  function CallOf(s: State, o: nat): ToolCall
    requires o in s.tools
  {
    ToolCall(s.tools[o].callId, s.tools[o].custom, s.tools[o].name, Lookup(s.text, ToolKey(o)))
  }

  predicate HasCall(s: State, tools: seq<ToolCall>, o: nat)
    requires o in s.tools
  {
    o in s.toolIndex && s.toolIndex[o] < |tools| && tools[s.toolIndex[o]] == CallOf(s, o)
  }

  /** The client has exactly the announced tools, each at its position with the input sent so far. */
  ghost predicate ToolsAgree(w: Work) {
    Dense(w.s) && |Client(w.out).tools| == |w.s.tools| && forall o :: o in w.s.tools ==>
      HasCall(w.s, Client(w.out).tools, o)
  }

  ghost predicate Agrees(w: Work) {
    TextsAgree(w) && ToolsAgree(w)
  }

  /** The key's text may be sent as a delta: a tool's only under its own position and kind. */
  predicate Addressed(s: State, key: Key, index: nat, custom: bool) {
    key.ToolKey? ==>
      key.output in s.tools && key.output in s.toolIndex && index == s.toolIndex[key.output]
        && custom == s.tools[key.output].custom
  }

  lemma GrowText(w: Work, key: Key, suffix: string, index: nat, custom: bool, k: Key)
    requires Emitted(w.out, k) == Lookup(w.s.text, k)
    ensures Emitted(Grow(w, key, suffix, index, custom).out, k) == Lookup(Grow(w, key, suffix, index, custom).s.text, k)
  {
    EmittedSnoc(w.out, Delta(key, index, custom, suffix), k);
    assert Lookup(w.s.text, k) + "" == Lookup(w.s.text, k);
  }

  lemma GrowTexts(w: Work, key: Key, suffix: string, index: nat, custom: bool)
    requires TextsAgree(w) && w.s.size + |suffix| <= MAX_STREAM
    ensures TextsAgree(Grow(w, key, suffix, index, custom))
  {
    SentSnoc(w.out, Delta(key, index, custom, suffix));
    forall k
      ensures Emitted(Grow(w, key, suffix, index, custom).out, k) ==
        Lookup(Grow(w, key, suffix, index, custom).s.text, k)
    {
      GrowText(w, key, suffix, index, custom, k);
    }
  }

  lemma GrowDense(s: State, t: State, key: Key)
    requires Dense(s) && t.tools == s.tools && t.toolIndex == s.toolIndex && t.text.Keys == s.text.Keys + {key}
    requires key.ToolKey? ==> key.output in s.tools
    ensures Dense(t)
  {
  }

  /** What a delta does to the tools a client has. */
  lemma DeltaRead(m: Message, key: Key, index: nat, custom: bool, text: string)
    ensures !key.ToolKey? ==> Read(m, Wire(Delta(key, index, custom, text))).tools == m.tools
    ensures key.ToolKey? && index < |m.tools| && m.tools[index].custom == custom ==>
      Read(m, Wire(Delta(key, index, custom, text))).tools
        == m.tools[index := m.tools[index].(input := m.tools[index].input + text)]
  {
  }

  lemma OtherTexts(s: State, t: State, tools: seq<ToolCall>)
    requires t.tools == s.tools && t.toolIndex == s.toolIndex
    requires forall o :: o in s.tools ==>
      HasCall(s, tools, o) && Lookup(t.text, ToolKey(o)) == Lookup(s.text, ToolKey(o))
    ensures forall o :: o in t.tools ==> HasCall(t, tools, o)
  {
    forall o | o in t.tools ensures HasCall(t, tools, o) {
      assert HasCall(s, tools, o);
      assert CallOf(t, o) == CallOf(s, o);
    }
  }

  lemma GrowClient(w: Work, key: Key, suffix: string, index: nat, custom: bool)
    requires ToolsAgree(w) && Addressed(w.s, key, index, custom)
    ensures ToolsAgree(Grow(w, key, suffix, index, custom))
  {
    var v := Grow(w, key, suffix, index, custom);
    GrowDense(w.s, v.s, key);
    SentSnoc(w.out, Delta(key, index, custom, suffix));
    DeltaRead(Client(w.out), key, index, custom, suffix);
    var before, after := Client(w.out).tools, Client(v.out).tools;
    if key.ToolKey? {
      assert HasCall(w.s, before, key.output);
      GrownTool(w.s, v.s, before, after, key.output, suffix);
    } else {
      OtherTexts(w.s, v.s, before);
    }
  }

  lemma GrownTool(s: State, t: State, before: seq<ToolCall>, after: seq<ToolCall>, at: nat, suffix: string)
    requires Dense(s) && at in s.tools && t.tools == s.tools && t.toolIndex == s.toolIndex
    requires t.text == s.text[ToolKey(at) := Lookup(s.text, ToolKey(at)) + suffix]
    requires forall o :: o in s.tools ==> HasCall(s, before, o)
    requires var i := s.toolIndex[at]; i < |before| && (if suffix == "" then after == before
      else after == before[i := before[i].(input := before[i].input + suffix)])
    ensures forall o :: o in t.tools ==> HasCall(t, after, o)
  {
    assert HasCall(s, before, at);
    assert Lookup(s.text, ToolKey(at)) + "" == Lookup(s.text, ToolKey(at));
    forall o | o in t.tools ensures HasCall(t, after, o) {
      assert HasCall(s, before, o);
      if o != at {
        assert s.toolIndex[o] != s.toolIndex[at];
        assert CallOf(t, o) == CallOf(s, o);
      }
    }
  }

  lemma GrowKeeps(w: Work, key: Key, suffix: string, index: nat, custom: bool)
    requires Agrees(w) && Addressed(w.s, key, index, custom) && w.s.size + |suffix| <= MAX_STREAM
    ensures Agrees(Grow(w, key, suffix, index, custom))
  {
    GrowTexts(w, key, suffix, index, custom);
    GrowClient(w, key, suffix, index, custom);
  }

  predicate IsPlain(e: Emission) {
    e == RoleSent || e.Finished? || e == UsageSent || e == DoneSent
  }

  lemma PlainTexts(w: Work, s: State, e: Emission)
    requires TextsAgree(w) && s == w.s.(id := s.id, role := s.role) && !e.Delta?
    ensures TextsAgree(Work(s, w.out + [e]))
  {
    SentSnoc(w.out, e);
    forall k ensures Emitted(w.out + [e], k) == Lookup(s.text, k) {
      EmittedSnoc(w.out, e, k);
      assert Emitted(w.out, k) == Lookup(w.s.text, k);
      assert Lookup(w.s.text, k) + "" == Lookup(w.s.text, k);
    }
  }

  lemma PlainTools(w: Work, s: State, e: Emission)
    requires ToolsAgree(w) && s == w.s.(id := s.id, role := s.role) && IsPlain(e)
    ensures ToolsAgree(Work(s, w.out + [e]))
  {
    SentSnoc(w.out, e);
    PlainRead(Client(w.out), e);
    SameTools(w.s, s, Client(w.out).tools);
  }

  lemma PlainRead(m: Message, e: Emission)
    requires IsPlain(e)
    ensures Read(m, Wire(e)).tools == m.tools
  {
  }

  lemma SameTools(s: State, t: State, tools: seq<ToolCall>)
    requires Dense(s) && t == s.(id := t.id, role := t.role)
    requires forall o :: o in s.tools ==> HasCall(s, tools, o)
    ensures Dense(t) && forall o :: o in t.tools ==> HasCall(t, tools, o)
  {
    OtherTexts(s, t, tools);
  }

  /** Writing a chunk without text changes neither the texts nor the tools. */
  lemma PlainKeeps(w: Work, s: State, e: Emission)
    requires Agrees(w) && s == w.s.(id := s.id, role := s.role) && IsPlain(e)
    ensures Agrees(Work(s, w.out + [e]))
  {
    PlainTexts(w, s, e);
    PlainTools(w, s, e);
  }

  lemma AnnounceTexts(w: Work, output: nat, tool: Tool)
    requires TextsAgree(w)
    ensures TextsAgree(Announce(w, output, tool))
  {
    if output !in w.s.tools {
      PlainTexts(w, w.s, Opened(output, |w.s.tools|, tool));
    }
  }

  lemma OneMore(s: map<nat, Tool>, output: nat, tool: Tool)
    requires output !in s
    ensures |s[output := tool]| == |s| + 1
  {
    assert s[output := tool].Keys == s.Keys + {output};
  }

  lemma AnnounceDense(s: State, t: State, output: nat, tool: Tool)
    requires Dense(s) && output !in s.tools && |s.tools| < MAX_PARTS
    requires t.tools == s.tools[output := tool] && t.toolIndex == s.toolIndex[output := |s.tools|] && t.text == s.text
    ensures Dense(t) && |t.tools| == |s.tools| + 1
  {
    OneMore(s.tools, output, tool);
    assert t.tools.Keys == t.toolIndex.Keys;
  }

  lemma AnnounceCalls(s: State, t: State, output: nat, tool: Tool, before: seq<ToolCall>)
    requires Dense(s) && output !in s.tools && |before| == |s.tools|
    requires t.tools == s.tools[output := tool] && t.toolIndex == s.toolIndex[output := |s.tools|] && t.text == s.text
    requires forall o :: o in s.tools ==> HasCall(s, before, o)
    ensures forall o :: o in t.tools ==> HasCall(t, before + [ToolCall(tool.callId, tool.custom, tool.name, "")], o)
  {
    var after := before + [ToolCall(tool.callId, tool.custom, tool.name, "")];
    forall o | o in t.tools ensures HasCall(t, after, o) {
      if o != output {
        assert HasCall(s, before, o);
        assert CallOf(t, o) == CallOf(s, o);
      }
    }
  }

  lemma OpenedRead(m: Message, output: nat, tool: Tool)
    ensures Read(m, Wire(Opened(output, |m.tools|, tool))).tools ==
      m.tools + [ToolCall(tool.callId, tool.custom, tool.name, "")]
  {
  }

  lemma AnnounceTools(w: Work, output: nat, tool: Tool)
    requires ToolsAgree(w) && (output !in w.s.tools ==> |w.s.tools| < MAX_PARTS)
    ensures ToolsAgree(Announce(w, output, tool))
  {
    if output !in w.s.tools {
      var s, before := Announce(w, output, tool).s, Client(w.out).tools;
      SentSnoc(w.out, Opened(output, |w.s.tools|, tool));
      OpenedRead(Client(w.out), output, tool);
      AnnounceDense(w.s, s, output, tool);
      AnnounceCalls(w.s, s, output, tool, before);
    }
  }

  lemma PutTextKeeps(w: Work, key: Key, value: string, full: bool, v: Work)
    requires Agrees(w) && !key.ToolKey? && PutText(w, key, value, full) == Ok(v)
    ensures Agrees(v)
  {
    var suffix := if full then Tail(value, Lookup(w.s.text, key)) else value;
    GrowKeeps(w, key, suffix, 0, false);
  }

  lemma PutToolKeeps(w: Work, output: nat, tool: Tool, value: string, v: Work)
    requires Agrees(w) && PutTool(w, output, tool, value) == Ok(v)
    ensures Agrees(v)
  {
    AnnounceTexts(w, output, tool);
    AnnounceTools(w, output, tool);
    var a := Announce(w, output, tool);
    assert a.s.tools[output] == tool;
    GrowKeeps(a, ToolKey(output), Tail(value, Lookup(a.s.text, ToolKey(output))), IndexOf(a.s, output), tool.custom);
  }

  lemma {:induction false} PutPartsKeeps(w: Work, output: nat, parts: seq<Part>, v: Work)
    requires Agrees(w) && PutParts(w, output, parts) == Ok(v)
    ensures Agrees(v)
  {
    if parts != [] {
      var n := |parts| - 1;
      var u := PutParts(w, output, parts[..n]).value;
      PutPartsKeeps(w, output, parts[..n], u);
      PutTextKeeps(u, TextKey(PartField(parts[n]), output, n), PartText(parts[n]), true, v);
    }
  }

  lemma {:induction false} PutSummaryKeeps(w: Work, output: nat, summary: seq<string>, v: Work)
    requires Agrees(w) && PutSummary(w, output, summary) == Ok(v)
    ensures Agrees(v)
  {
    if summary != [] {
      var n := |summary| - 1;
      var u := PutSummary(w, output, summary[..n]).value;
      PutSummaryKeeps(w, output, summary[..n], u);
      PutTextKeeps(u, TextKey(ReasoningField, output, n), summary[n], true, v);
    }
  }

  lemma PutItemKeeps(w: Work, output: nat, item: Item, v: Work)
    requires Agrees(w) && PutItem(w, output, item) == Ok(v)
    ensures Agrees(v)
  {
    match item
    case ToolItem(_, _, _, _, _) => PutToolKeeps(w, output, ToolOf(item), ValueOf(item), v);
    case MessageItem(content) => PutPartsKeeps(w, output, content, v);
    case ReasoningItem(summary) => PutSummaryKeeps(w, output, summary, v);
    case OtherItem =>
  }

  lemma {:induction false} PutItemsKeeps(w: Work, items: seq<Item>, v: Work)
    requires Agrees(w) && PutItems(w, items) == Ok(v)
    ensures Agrees(v)
  {
    if items != [] {
      var u := PutItems(w, items[..|items| - 1]).value;
      PutItemsKeeps(w, items[..|items| - 1], u);
      PutItemKeeps(u, |items| - 1, items[|items| - 1], v);
    }
  }

  /** The stream's last marks. */
  lemma LastKeeps(w: Work, usage: bool, used: Work)
    requires Agrees(w) && used == if usage then Work(w.s, w.out + [UsageSent]) else w
    ensures Agrees(Work(w.s, used.out + [DoneSent]))
  {
    if usage { PlainKeeps(w, w.s, UsageSent); }
    PlainKeeps(used, w.s, DoneSent);
  }

  lemma FinaleKeeps(w: Work, r: Response, includeUsage: bool)
    requires Agrees(w)
    ensures Agrees(Finale(w, r, includeUsage))
  {
    var end := Finished(FinishOf(r.status, |w.s.tools| > 0));
    var ended := Work(w.s, w.out + [end]);
    var used := if includeUsage && r.usage then Work(w.s, ended.out + [UsageSent]) else ended;
    PlainKeeps(w, w.s, end);
    LastKeeps(ended, includeUsage && r.usage, used);
    FinaleForm(w, r, includeUsage, ended.out, used.out);
  }

  lemma FinaleForm(w: Work, r: Response, includeUsage: bool, finished: seq<Emission>, used: seq<Emission>)
    requires finished == w.out + [Finished(FinishOf(r.status, |w.s.tools| > 0))]
    requires used == if includeUsage && r.usage then finished + [UsageSent] else finished
    ensures Finale(w, r, includeUsage) == Work(w.s, used + [DoneSent])
  {
  }

  lemma ConcludeKeeps(w: Work, r: Response, includeUsage: bool, v: Work)
    requires Agrees(w) && r.output.Some? && Conclude(w, r, includeUsage) == Ok(v)
    ensures Agrees(v)
  {
    var u := PutItems(w, r.output.value).value;
    PutItemsKeeps(w, r.output.value, u);
    FinaleKeeps(u, r, includeUsage);
  }

  lemma GreetKeeps(w: Work, e: Event)
    requires Agrees(w)
    ensures Agrees(Greet(w, e))
  {
    var s := Greet(w, e).s;
    if !w.s.role {
      PlainKeeps(w, s, RoleSent);
    } else {
      assert Greet(w, e) == Work(s, w.out);
      SameTools(w.s, s, Client(w.out).tools);
    }
  }

  lemma ApplyTextForm(w: Work, e: Event, includeUsage: bool, v: Work)
    requires IndicesOk(e) && e.kind.TextEvent? && Apply(w, e, includeUsage) == Ok(v)
    ensures PutText(w, TextKeyOf(e), TextValueOf(e), e.kind.full) == Ok(v) && !TextKeyOf(e).ToolKey?
  {
  }

  lemma ApplyTextKeeps(w: Work, e: Event, includeUsage: bool, v: Work)
    requires Agrees(w) && IndicesOk(e) && e.kind.TextEvent? && Apply(w, e, includeUsage) == Ok(v)
    ensures Agrees(v)
  {
    ApplyTextForm(w, e, includeUsage, v);
    PutTextKeeps(w, TextKeyOf(e), TextValueOf(e), e.kind.full, v);
  }

  lemma ApplyInputKeeps(w: Work, e: Event, includeUsage: bool, v: Work)
    requires Agrees(w) && IndicesOk(e) && e.kind.InputEvent? && Apply(w, e, includeUsage) == Ok(v)
    ensures Agrees(v)
  {
    PutToolKeeps(w, e.outputIndex, w.s.tools[e.outputIndex], InputValueOf(w.s, e), v);
  }

  lemma ApplyKeeps(w: Work, e: Event, includeUsage: bool, v: Work)
    requires Agrees(w) && IndicesOk(e) && Apply(w, e, includeUsage) == Ok(v)
    ensures Agrees(v)
  {
    match e.kind
    case TextEvent(_, _) => ApplyTextKeeps(w, e, includeUsage, v);
    case ItemEvent => PutItemKeeps(w, e.outputIndex, e.item, v);
    case InputEvent(_) => ApplyInputKeeps(w, e, includeUsage, v);
    case Terminal => ConcludeKeeps(w, e.response.value, includeUsage, v);
    case OtherKind =>
  }

  /** In every accepted run, each key's deltas spell its stored text, the size is the total text sent, and the client
      has exactly the announced tools at dense positions. */
  lemma {:induction false} RunAgrees(events: seq<Event>, includeUsage: bool, w: Work)
    requires HandleAll(events, includeUsage) == Ok(w)
    ensures Agrees(w)
  {
    if events == [] {
      assert Client([]) == EMPTY;
    } else {
      var u := HandleAll(events[..|events| - 1], includeUsage).value;
      RunAgrees(events[..|events| - 1], includeUsage, u);
      GreetKeeps(u, events[|events| - 1]);
      ApplyKeeps(Greet(u, events[|events| - 1]), events[|events| - 1], includeUsage, w);
    }
  }

  // ---- The size is the sum over the stored texts ----------------------------------------------------------

  ghost function Weight(text: map<Key, string>): nat
    decreases |text|
  {
    if |text| == 0 then 0
    else
      var key :| key in text;
      |text[key]| + Weight(text - {key})
  }

  lemma WeightPick(text: map<Key, string>) returns (first: Key)
    requires |text| > 0
    ensures first in text && Weight(text) == |text[first]| + Weight(text - {first})
  {
    first :| first in text && Weight(text) == |text[first]| + Weight(text - {first});
  }

  lemma SmallerText(text: map<Key, string>, key: Key)
    requires key in text
    ensures |text - {key}| == |text| - 1
  {
    assert (text - {key}).Keys == text.Keys - {key};
  }

  /** Any key may be taken out first. */
  lemma {:induction false} WeightAt(text: map<Key, string>, key: Key)
    requires key in text
    ensures Weight(text) == |text[key]| + Weight(text - {key})
    decreases |text|
  {
    SmallerText(text, key);
    var first := WeightPick(text);
    if first != key {
      SmallerText(text, first);
      WeightAt(text - {first}, key);
      WeightAt(text - {key}, first);
      assert text - {first} - {key} == text - {key} - {first};
    }
  }

  lemma WeightSet(text: map<Key, string>, key: Key, value: string)
    ensures Weight(text[key := value]) == Weight(text) - |Lookup(text, key)| + |value|
  {
    WeightAt(text[key := value], key);
    if key in text {
      WeightAt(text, key);
      assert text[key := value] - {key} == text - {key};
    } else {
      assert text[key := value] - {key} == text;
    }
  }

  lemma GrowWeighs(w: Work, key: Key, suffix: string, index: nat, custom: bool)
    requires w.s.size == Weight(w.s.text)
    ensures Grow(w, key, suffix, index, custom).s.size == Weight(Grow(w, key, suffix, index, custom).s.text)
  {
    WeightSet(w.s.text, key, Lookup(w.s.text, key) + suffix);
  }

  lemma {:induction false} PutPartsWeighs(w: Work, output: nat, parts: seq<Part>, v: Work)
    requires w.s.size == Weight(w.s.text) && PutParts(w, output, parts) == Ok(v)
    ensures v.s.size == Weight(v.s.text)
  {
    if parts != [] {
      var n := |parts| - 1;
      var u := PutParts(w, output, parts[..n]).value;
      PutPartsWeighs(w, output, parts[..n], u);
      PutTextWeighs(u, TextKey(PartField(parts[n]), output, n), PartText(parts[n]), true, v);
    }
  }

  lemma {:induction false} PutSummaryWeighs(w: Work, output: nat, summary: seq<string>, v: Work)
    requires w.s.size == Weight(w.s.text) && PutSummary(w, output, summary) == Ok(v)
    ensures v.s.size == Weight(v.s.text)
  {
    if summary != [] {
      var n := |summary| - 1;
      var u := PutSummary(w, output, summary[..n]).value;
      PutSummaryWeighs(w, output, summary[..n], u);
      PutTextWeighs(u, TextKey(ReasoningField, output, n), summary[n], true, v);
    }
  }

  lemma PutTextWeighs(w: Work, key: Key, value: string, full: bool, v: Work)
    requires w.s.size == Weight(w.s.text) && PutText(w, key, value, full) == Ok(v)
    ensures v.s.size == Weight(v.s.text)
  {
    GrowWeighs(w, key, if full then Tail(value, Lookup(w.s.text, key)) else value, 0, false);
  }

  lemma PutToolWeighs(w: Work, output: nat, tool: Tool, value: string, v: Work)
    requires w.s.size == Weight(w.s.text) && PutTool(w, output, tool, value) == Ok(v)
    ensures v.s.size == Weight(v.s.text)
  {
    var a := Announce(w, output, tool);
    GrowWeighs(a, ToolKey(output), Tail(value, Lookup(a.s.text, ToolKey(output))), IndexOf(a.s, output), tool.custom);
  }

  lemma PutItemWeighs(w: Work, output: nat, item: Item, v: Work)
    requires w.s.size == Weight(w.s.text) && PutItem(w, output, item) == Ok(v)
    ensures v.s.size == Weight(v.s.text)
  {
    match item
    case ToolItem(_, _, _, _, _) => PutToolWeighs(w, output, ToolOf(item), ValueOf(item), v);
    case MessageItem(content) => PutPartsWeighs(w, output, content, v);
    case ReasoningItem(summary) => PutSummaryWeighs(w, output, summary, v);
    case OtherItem =>
  }

  lemma {:induction false} PutItemsWeighs(w: Work, items: seq<Item>, v: Work)
    requires w.s.size == Weight(w.s.text) && PutItems(w, items) == Ok(v)
    ensures v.s.size == Weight(v.s.text)
  {
    if items != [] {
      var u := PutItems(w, items[..|items| - 1]).value;
      PutItemsWeighs(w, items[..|items| - 1], u);
      PutItemWeighs(u, |items| - 1, items[|items| - 1], v);
    }
  }

  lemma ApplyWeighs(w: Work, e: Event, includeUsage: bool, v: Work)
    requires w.s.size == Weight(w.s.text) && IndicesOk(e) && Apply(w, e, includeUsage) == Ok(v)
    ensures v.s.size == Weight(v.s.text)
  {
    match e.kind
    case TextEvent(_, full) => PutTextWeighs(w, TextKeyOf(e), TextValueOf(e), full, v);
    case ItemEvent => PutItemWeighs(w, e.outputIndex, e.item, v);
    case InputEvent(_) => PutToolWeighs(w, e.outputIndex, w.s.tools[e.outputIndex], InputValueOf(w.s, e), v);
    case Terminal =>
      var u := PutItems(w, e.response.value.output.value).value;
      PutItemsWeighs(w, e.response.value.output.value, u);
    case OtherKind =>
  }

  /** In every accepted run the counted size is the total length of all stored texts, and within the limit. */
  lemma {:induction false} SizeIsTotal(events: seq<Event>, includeUsage: bool, w: Work)
    requires HandleAll(events, includeUsage) == Ok(w)
    ensures w.s.size == Weight(w.s.text) <= MAX_STREAM
  {
    RunAgrees(events, includeUsage, w);
    if events != [] {
      var u := HandleAll(events[..|events| - 1], includeUsage).value;
      SizeIsTotal(events[..|events| - 1], includeUsage, u);
      ApplyWeighs(Greet(u, events[|events| - 1]), events[|events| - 1], includeUsage, w);
    }
  }
}
