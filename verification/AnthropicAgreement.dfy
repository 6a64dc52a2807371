/** The stream and the one-shot conversion of the same Anthropic message.

    The message is what the events spell out: blocks as they started, with their deltas appended. */
module AnthropicAgreement {
  import opened Outcomes
  import opened ChatWire
  import opened JsonInput
  import opened AnthropicChat
  import opened Sums

  /** A block being spelled out: its text so far, its argument fragments, and whether it has stopped. */
  datatype Part = Part(block: Block, args: string, closed: bool)

  datatype Spelled = Spelled(parts: seq<Part>, stop: StopReason)

  function Spell(m: Spelled, e: Event): Spelled {
    match e
    case BlockStart(_, block) => m.(parts := m.parts + [Part(block, "", false)])
    case BlockStop(index) =>
      if 0 <= index < |m.parts| then m.(parts := m.parts[index := m.parts[index].(closed := true)]) else m
    case BlockDeltaEvent(index, d) =>
      if 0 <= index < |m.parts| then m.(parts := m.parts[index := SpellDelta(m.parts[index], d)]) else m
    case MessageDelta(stop) => if stop == NoReason then m else m.(stop := stop)
    case _ => m
  }

  function SpellDelta(p: Part, d: BlockDelta): Part {
    match d.kind
    case TextDelta => p.(block := p.block.(text := p.block.text + d.text))
    case ThinkingDelta => p.(block := p.block.(thinking := p.block.thinking + d.thinking))
    case SignatureDelta => p.(block := p.block.(signature := p.block.signature + d.signature))
    case InputDelta => p.(args := p.args + d.partial)
    case OtherDelta => p
  }

  function SpellAll(events: seq<Event>): Spelled {
    if events == [] then Spelled([], NoReason) else Spell(SpellAll(events[..|events| - 1]), events[|events| - 1])
  }

  /** The complete block a part stands for. */
  function Complete(p: Part): Block {
    if p.block.kind == ToolBlock && p.args != "" then p.block.(input := p.args) else p.block
  }

  function CompleteAll(parts: seq<Part>): seq<Block> {
    seq(|parts|, i requires 0 <= i < |parts| => Complete(parts[i]))
  }

  // ---- The one-shot conversion ----------------------------------------------------------------------------

  function Effective(b: Block): string {
    WholeInput("", b.input)
  }

  predicate GoodTool(cfg: Config, b: Block) {
    && ToolNamed(b) && cfg.codec.IsObject(Effective(b))
    && (b.name in cfg.custom ==> cfg.codec.InputOf(Effective(b)).Text? || cfg.codec.InputOf(Effective(b)).Null?)
  }

  predicate GoodBlock(cfg: Config, b: Block) {
    b.kind != UnknownBlock && (b.kind == ToolBlock ==> GoodTool(cfg, b))
  }

  function Sizes(blocks: seq<Block>): seq<int> {
    seq(|blocks|, i requires 0 <= i < |blocks| => BlockSize(blocks[i]))
  }

  /** What the one-shot conversion demands of a whole message. */
  predicate Acceptable(cfg: Config, blocks: seq<Block>, stop: StopReason) {
    && |blocks| <= MAX_PARTS
    && (forall i :: 0 <= i < |blocks| ==> GoodBlock(cfg, blocks[i]))
    && (forall i, k :: 0 <= i < k < |blocks| && blocks[i].kind == ToolBlock && blocks[k].kind == ToolBlock ==>
         blocks[i].id != blocks[k].id)
    && Sum(Sizes(blocks)) <= MAX_STREAM
    && MapStop(stop).Some?
  }

  function ToolValue(cfg: Config, b: Block): string {
    if b.name in cfg.custom then cfg.codec.RecordInput(Effective(b)) else Effective(b)
  }

  function Texts(blocks: seq<Block>): string {
    if blocks == [] then "" else Texts(blocks[..|blocks| - 1]) + blocks[|blocks| - 1].text
  }

  function Thoughts(blocks: seq<Block>): string {
    if blocks == [] then "" else Thoughts(blocks[..|blocks| - 1]) + blocks[|blocks| - 1].thinking
  }

  function Calls(cfg: Config, blocks: seq<Block>): seq<ToolCall> {
    if blocks == [] then []
    else
      var b := blocks[|blocks| - 1];
      Calls(cfg, blocks[..|blocks| - 1]) +
      if b.kind == ToolBlock then [ToolCall(b.id, b.name in cfg.custom, b.name, ToolValue(cfg, b))] else []
  }

  /** `response`: every block's text and thinking, every tool with its value, and the finish reason. */
  function OneShot(cfg: Config, blocks: seq<Block>, stop: StopReason): Message {
    Message(Texts(blocks), Thoughts(blocks), "", Calls(cfg, blocks), MapStop(stop))
  }

  // ---- What the stream's client has -----------------------------------------------------------------------

  /** The input chunks a tool part has produced so far. */
  function Sent(cfg: Config, p: Part): string {
    var whole := Effective(Complete(p));
    if p.block.name in cfg.custom then
      if !p.closed then "" else match cfg.codec.InputOf(whole) case Text(value) => value case _ => whole
    else if p.closed then whole else p.args
  }

  function SentTexts(parts: seq<Part>): string {
    if parts == [] then ""
    else
      SentTexts(parts[..|parts| - 1]) +
      if parts[|parts| - 1].block.kind == TextBlock then parts[|parts| - 1].block.text else ""
  }

  function SentThoughts(parts: seq<Part>): string {
    if parts == [] then ""
    else
      SentThoughts(parts[..|parts| - 1]) +
      if parts[|parts| - 1].block.kind == ThinkingBlock then parts[|parts| - 1].block.thinking else ""
  }

  function CallOf(cfg: Config, p: Part): ToolCall {
    ToolCall(p.block.id, p.block.name in cfg.custom, p.block.name, Sent(cfg, p))
  }

  function SentCalls(cfg: Config, parts: seq<Part>): seq<ToolCall> {
    if parts == [] then []
    else
      var p := parts[|parts| - 1];
      SentCalls(cfg, parts[..|parts| - 1]) + if p.block.kind == ToolBlock then [CallOf(cfg, p)] else []
  }

  function ClientHas(cfg: Config, parts: seq<Part>): Message {
    Message(SentTexts(parts), SentThoughts(parts), "", SentCalls(cfg, parts), None)
  }

  /** The stream's record of a block and the spelled part agree. */
  predicate Matches(cfg: Config, l: Live, p: Part) {
    && l.block.kind == p.block.kind && l.block.id == p.block.id && l.block.name == p.block.name
    && l.args == p.args && l.closed == p.closed
    && (!l.closed ==> l.block.input == p.block.input)
    && (l.args != "" && l.block.kind == ToolBlock && !l.closed ==> l.block.input == "" || l.block.input == "{}")
    && l.block.kind != UnknownBlock
    && (l.block.kind == ToolBlock ==> ToolNamed(p.block))
    && (l.block.kind == ToolBlock && l.closed ==> GoodTool(cfg, Complete(p)))
    && (l.block.kind != ToolBlock ==> l.args == "")
  }

  predicate AllMatch(cfg: Config, blocks: seq<Live>, parts: seq<Part>) {
    |blocks| == |parts| && forall i :: 0 <= i < |blocks| ==> Matches(cfg, blocks[i], parts[i])
  }

  predicate IsTool(p: Part) {
    p.block.kind == ToolBlock
  }

  /** Tool identities are distinct, known to the stream, and numbered in order. */
  ghost predicate ToolsAgree(cfg: Config, s: State, parts: seq<Part>)
    requires |s.blocks| == |parts|
  {
    && (forall i, k :: 0 <= i < k < |parts| && IsTool(parts[i]) && IsTool(parts[k]) ==>
         parts[i].block.id != parts[k].block.id)
    && (forall i :: 0 <= i < |parts| && IsTool(parts[i]) ==> parts[i].block.id in s.ids)
    && |s.ids| == |SentCalls(cfg, parts)|
    && (forall i :: 0 <= i < |parts| && IsTool(parts[i]) ==> s.blocks[i].toolIndex == |SentCalls(cfg, parts[..i])|)
  }

  /** At most one block is open, and only the last; none is open once the finish reason is known. */
  predicate OneOpen(s: State) {
    && (forall i :: 0 <= i < |s.blocks| - 1 ==> s.blocks[i].closed)
    && (s.finish.Some? && s.blocks != [] ==> s.blocks[|s.blocks| - 1].closed)
  }

  /** The invariant of a run: records match, sizes are counted, tool indices are dense. */
  ghost predicate Agrees(cfg: Config, s: State, m: Spelled) {
    && AllMatch(cfg, s.blocks, m.parts) && |s.blocks| <= MAX_PARTS
    && OneOpen(s)
    && (!s.started ==> s.blocks == [])
    && Sum(Sizes(CompleteAll(m.parts))) <= s.size <= MAX_STREAM
    && ToolsAgree(cfg, s, m.parts)
    && s.finish == MapStop(m.stop)
    && (s.stopped ==> s.finish.Some?)
  }

  /** What the client has when the stream is in state `s`. */
  function Seen(cfg: Config, s: State, m: Spelled): Message {
    ClientHas(cfg, m.parts).(finish := if s.stopped then s.finish else None)
  }

  lemma SizesAppend(parts: seq<Part>, p: Part)
    ensures Sum(Sizes(CompleteAll(parts + [p]))) == Sum(Sizes(CompleteAll(parts))) + BlockSize(Complete(p))
  {
    assert Sizes(CompleteAll(parts + [p])) == Sizes(CompleteAll(parts)) + [BlockSize(Complete(p))];
    SumAppend(Sizes(CompleteAll(parts)), BlockSize(Complete(p)));
  }

  lemma SizesUpdate(parts: seq<Part>, i: nat, p: Part)
    requires i < |parts|
    ensures Sum(Sizes(CompleteAll(parts[i := p]))) ==
      Sum(Sizes(CompleteAll(parts))) - BlockSize(Complete(parts[i])) + BlockSize(Complete(p))
  {
    assert Sizes(CompleteAll(parts[i := p])) == Sizes(CompleteAll(parts))[i := BlockSize(Complete(p))];
    SumUpdate(Sizes(CompleteAll(parts)), i, BlockSize(Complete(p)));
  }

  lemma SentAppend(cfg: Config, parts: seq<Part>, p: Part)
    ensures ClientHas(cfg, parts + [p]) == Message(
      SentTexts(parts) + (if p.block.kind == TextBlock then p.block.text else ""),
      SentThoughts(parts) + (if p.block.kind == ThinkingBlock then p.block.thinking else ""), "",
      SentCalls(cfg, parts) + (if IsTool(p) then [
        ToolCall(p.block.id, p.block.name in cfg.custom, p.block.name, Sent(cfg, p))] else []), None)
  {
    assert (parts + [p])[..|parts|] == parts;
  }

  lemma StartTools(cfg: Config, s: State, t: State, parts: seq<Part>, b: Block)
    requires |s.blocks| == |parts| && ToolsAgree(cfg, s, parts) && (b.kind == ToolBlock ==> b.id !in s.ids)
    requires t.blocks == s.blocks + [Live(b, "", false, if b.kind == ToolBlock then |s.ids| else 0)]
    requires t.ids == if b.kind == ToolBlock then s.ids + {b.id} else s.ids
    ensures ToolsAgree(cfg, t, parts + [Part(b, "", false)])
  {
    var p := Part(b, "", false);
    SentAppend(cfg, parts, p);
    forall i | 0 <= i <= |parts| ensures (parts + [p])[..i] == parts[..i] {}
    assert parts[..|parts|] == parts;
  }

  lemma StartForm(cfg: Config, s: State, index: int, b: Block)
    requires StartBlock(cfg, s, index, b).Ok?
    ensures s.started && s.finish.None? && (b.kind == ToolBlock ==> ToolNamed(b) && b.id !in s.ids)
      && b.kind != UnknownBlock
    ensures index == |s.blocks| < MAX_PARTS && s.size + BlockSize(b) <= MAX_STREAM
      && (index > 0 ==> s.blocks[index - 1].closed)
    ensures var toolIndex := if b.kind == ToolBlock then |s.ids| else 0;
      StartBlock(cfg, s, index, b).value == (s.(blocks := s.blocks + [Live(b, "", false, toolIndex)],
          size := s.size + BlockSize(b),
        ids := if b.kind == ToolBlock then s.ids + {b.id} else s.ids), StartChunks(cfg, b, toolIndex))
  {
  }

  lemma StartState(cfg: Config, s: State, t: State, m: Spelled, b: Block, l: Live)
    requires Agrees(cfg, s, m) && !s.stopped && s.started && s.finish.None? && |s.blocks| < MAX_PARTS
      && b.kind != UnknownBlock
    requires (b.kind == ToolBlock ==> ToolNamed(b) && b.id !in s.ids) && s.size + BlockSize(b) <= MAX_STREAM
    requires (s.blocks != [] ==> s.blocks[|s.blocks| - 1].closed)
    requires l == Live(b, "", false, if b.kind == ToolBlock then |s.ids| else 0)
    requires t == s.(blocks := s.blocks + [l], size := s.size + BlockSize(b),
        ids := if b.kind == ToolBlock then s.ids + {b.id} else s.ids)
    ensures Agrees(cfg, t, m.(parts := m.parts + [Part(b, "", false)]))
  {
    var p := Part(b, "", false);
    SizesAppend(m.parts, p);
    StartTools(cfg, s, t, m.parts, b);
    MatchesMore(cfg, s.blocks, m.parts, l, p);
  }

  lemma MatchesMore(cfg: Config, blocks: seq<Live>, parts: seq<Part>, l: Live, p: Part)
    requires AllMatch(cfg, blocks, parts) && Matches(cfg, l, p)
    ensures AllMatch(cfg, blocks + [l], parts + [p])
  {
    var b, q := blocks + [l], parts + [p];
    forall i | 0 <= i < |b| ensures Matches(cfg, b[i], q[i]) {
      assert i < |blocks| ==> Matches(cfg, blocks[i], parts[i]);
    }
  }

  lemma StartAgrees(cfg: Config, s: State, m: Spelled, index: int, b: Block)
    requires Agrees(cfg, s, m) && !s.stopped && StartBlock(cfg, s, index, b).Ok?
    ensures var (t, chunks) := StartBlock(cfg, s, index, b).value; var n := Spell(m, BlockStart(index, b));
      Agrees(cfg, t, n) && ReadAll(Seen(cfg, s, m), chunks) == Seen(cfg, t, n)
  {
    StartForm(cfg, s, index, b);
    StartState(cfg, s, StartBlock(cfg, s, index, b).value.0, m, b,
        Live(b, "", false, if b.kind == ToolBlock then |s.ids| else 0));
    StartClient(cfg, s, m, b);
  }

  lemma StartClient(cfg: Config, s: State, m: Spelled, b: Block)
    requires !s.stopped && (b.kind == ToolBlock ==> |s.ids| == |SentCalls(cfg, m.parts)|)
    ensures ReadAll(Seen(cfg, s, m), StartChunks(cfg, b, if b.kind == ToolBlock then |s.ids|
      else 0)) == ClientHas(cfg, m.parts + [Part(b, "", false)])
  {
    var chunks := StartChunks(cfg, b, if b.kind == ToolBlock then |s.ids| else 0);
    SentAppend(cfg, m.parts, Part(b, "", false));
    if chunks == [] {
      assert ReadAll(Seen(cfg, s, m), []) == Seen(cfg, s, m);
    } else {
      ReadOne(Seen(cfg, s, m), chunks[0]);
    }
  }

  /** The open block is the last one. */
  lemma OpenIsLast(s: State, index: int)
    requires OneOpen(s) && 0 <= index < |s.blocks| && !s.blocks[index].closed
    ensures index == |s.blocks| - 1 && s.finish.None?
  {
  }

  lemma LastTools(cfg: Config, s: State, t: State, parts: seq<Part>, l: Live, p: Part)
    requires |s.blocks| == |parts| > 0 && ToolsAgree(cfg, s, parts)
    requires t.blocks == s.blocks[|parts| - 1 := l] && t.ids == s.ids && l.toolIndex == s.blocks[|parts| - 1].toolIndex
    requires p.block.kind == parts[|parts| - 1].block.kind && p.block.id == parts[|parts| - 1].block.id
    ensures ToolsAgree(cfg, t, parts[|parts| - 1 := p])
  {
    var n := |parts| - 1;
    assert parts[..n] + [parts[n]] == parts && parts[..n] + [p] == parts[n := p];
    SentAppend(cfg, parts[..n], parts[n]);
    SentAppend(cfg, parts[..n], p);
    forall i | 0 <= i <= n ensures parts[n := p][..i] == parts[..i] {}
  }

  /** The last part changes: shape first, then what the client sees. */
  lemma LastAgrees(cfg: Config, s: State, t: State, m: Spelled, l: Live, p: Part)
    requires Agrees(cfg, s, m) && s.blocks != [] && s.finish.None? && s.started
    requires t == s.(blocks := s.blocks[|s.blocks| - 1 := l], size := t.size)
    requires Matches(cfg, l, p) && l.toolIndex == s.blocks[|s.blocks| - 1].toolIndex
    requires p.block.kind == m.parts[|m.parts| - 1].block.kind && p.block.id == m.parts[|m.parts| - 1].block.id
    requires BlockSize(Complete(p)) - BlockSize(Complete(m.parts[|m.parts| - 1])) <= t.size - s.size
      && t.size <= MAX_STREAM
    ensures Agrees(cfg, t, m.(parts := m.parts[|m.parts| - 1 := p]))
  {
    SizesUpdate(m.parts, |m.parts| - 1, p);
    LastTools(cfg, s, t, m.parts, l, p);
    LastMatches(cfg, s.blocks, m.parts, l, p, |m.parts| - 1);
    LastGathers(cfg, s, t, m, m.parts[|m.parts| - 1 := p]);
  }

  lemma LastGathers(cfg: Config, s: State, t: State, m: Spelled, parts: seq<Part>)
    requires Agrees(cfg, s, m) && s.finish.None? && s.started && t == s.(blocks := t.blocks, size := t.size)
    requires |t.blocks| == |s.blocks| && forall i :: 0 <= i < |t.blocks| - 1 ==> t.blocks[i] == s.blocks[i]
    requires AllMatch(cfg, t.blocks, parts) && ToolsAgree(cfg, t, parts)
      && Sum(Sizes(CompleteAll(parts))) <= t.size <= MAX_STREAM
    ensures Agrees(cfg, t, m.(parts := parts))
  {
  }

  lemma LastMatches(cfg: Config, blocks: seq<Live>, parts: seq<Part>, l: Live, p: Part, n: nat)
    requires AllMatch(cfg, blocks, parts) && n < |blocks| && Matches(cfg, l, p)
    ensures AllMatch(cfg, blocks[n := l], parts[n := p])
  {
    var b, q := blocks[n := l], parts[n := p];
    forall i | 0 <= i < |b| ensures Matches(cfg, b[i], q[i]) {
      assert i != n ==> Matches(cfg, blocks[i], parts[i]);
    }
  }

  /** The chunks carry exactly what a part gained; `index` is the tool's position. */
  predicate Carries(cfg: Config, q: Part, p: Part, chunks: seq<Chunk>, index: nat) {
    && |chunks| <= 1
    && p.block.kind == q.block.kind && p.block.id == q.block.id && p.block.name == q.block.name
    && match p.block.kind
       case TextBlock =>
         if chunks == [] then p.block.text == q.block.text
         else chunks[0].Content? && p.block.text == q.block.text + chunks[0].text
       case ThinkingBlock => if chunks == [] then p.block.thinking == q.block.thinking
         else chunks[0].Reasoning? && p.block.thinking == q.block.thinking + chunks[0].text
       case ToolBlock => CarriesInput(cfg, q, p, chunks, index)
       case _ => chunks == []
  }

  predicate CarriesInput(cfg: Config, q: Part, p: Part, chunks: seq<Chunk>, index: nat) {
    if chunks == [] then Sent(cfg, p) == Sent(cfg, q)
    else
      && chunks[0].ToolInput? && chunks[0] == ToolInput(index, q.block.name in cfg.custom, chunks[0].text)
      && Sent(cfg, p) == Sent(cfg, q) + chunks[0].text
  }

  lemma LastSeen(cfg: Config, s: State, m: Spelled, p: Part, chunks: seq<Chunk>)
    requires m.parts != [] && !s.stopped
    requires Carries(cfg, m.parts[|m.parts| - 1], p, chunks, |SentCalls(cfg, m.parts[..|m.parts| - 1])|)
    ensures ReadAll(Seen(cfg, s, m), chunks) == Seen(cfg, s, m.(parts := m.parts[|m.parts| - 1 := p]))
  {
    var n := |m.parts| - 1;
    var front := m.parts[..n];
    assert front + [m.parts[n]] == m.parts && front + [p] == m.parts[n := p];
    SentAppend(cfg, front, m.parts[n]);
    SentAppend(cfg, front, p);
    if chunks == [] {
      assert ReadAll(Seen(cfg, s, m), []) == Seen(cfg, s, m);
    } else {
      assert chunks == [chunks[0]];
      ReadOne(Seen(cfg, s, m), chunks[0]);
    }
  }

  /** An accepted stop closes one block and sends what the client still lacks of it. */
  lemma StopForm(cfg: Config, s: State, index: int, q: Part)
    requires StopBlock(cfg, s, index).Ok? && Matches(cfg, s.blocks[index], q)
    ensures var (t, chunks) := StopBlock(cfg, s, index).value; var l := s.blocks[index]; var p := q.(closed := true);
      && t == s.(blocks := s.blocks[index := t.blocks[index]]) && t.blocks[index].toolIndex == l.toolIndex
      && Matches(cfg, t.blocks[index], p) && Carries(cfg, q, p, chunks, l.toolIndex) && Complete(p) == Complete(q)
  {
    var p := q.(closed := true);
    assert Effective(Complete(p)) == WholeInput(q.args, q.block.input) || q.block.kind != ToolBlock;
  }

  lemma StopAgrees(cfg: Config, s: State, m: Spelled, index: int)
    requires Agrees(cfg, s, m) && s.started && !s.stopped && StopBlock(cfg, s, index).Ok?
    ensures var (t, chunks) := StopBlock(cfg, s, index).value; var n := Spell(m, BlockStop(index));
      Agrees(cfg, t, n) && ReadAll(Seen(cfg, s, m), chunks) == Seen(cfg, t, n)
  {
    var (t, chunks) := StopBlock(cfg, s, index).value;
    OpenIsLast(s, index);
    var q := m.parts[index];
    var p := q.(closed := true);
    assert Matches(cfg, s.blocks[index], q);
    StopForm(cfg, s, index, q);
    LastAgrees(cfg, s, t, m, t.blocks[index], p);
    CarriesAt(cfg, q, p, chunks, s.blocks[index].toolIndex, |SentCalls(cfg, m.parts[..|m.parts| - 1])|);
    LastSeen(cfg, s, m, p, chunks);
  }

  /** The delta types a block of this kind takes. */
  predicate Fits(l: Live, d: BlockDelta) {
    match d.kind
    case TextDelta => l.block.kind == TextBlock
    case ThinkingDelta => l.block.kind == ThinkingBlock
    case SignatureDelta => l.block.kind == ThinkingBlock
    case InputDelta => l.block.kind == ToolBlock && (l.args != "" || l.block.input == "" || l.block.input == "{}")
    case OtherDelta => true
  }

  function AfterDelta(l: Live, d: BlockDelta): Live {
    if d.kind == InputDelta then l.(args := l.args + d.partial) else l
  }

  function DeltaChunks(cfg: Config, l: Live, d: BlockDelta): seq<Chunk> {
    match d.kind
    case TextDelta => [Content(d.text)]
    case ThinkingDelta => [Reasoning(d.thinking)]
    case InputDelta => if l.block.name in cfg.custom then [] else [ToolInput(l.toolIndex, false, d.partial)]
    case _ => []
  }

  lemma DeltaOnPart(cfg: Config, l: Live, q: Part, d: BlockDelta)
    requires Matches(cfg, l, q) && !l.closed && Fits(l, d)
    ensures Matches(cfg, AfterDelta(l, d), SpellDelta(q, d))
    ensures Carries(cfg, q, SpellDelta(q, d), DeltaChunks(cfg, l, d), l.toolIndex)
    ensures BlockSize(Complete(SpellDelta(q, d))) - BlockSize(Complete(q)) <= DeltaSize(d)
  {
  }

  /** An accepted delta fits its block and does only what `AfterDelta` and `DeltaChunks` say. */
  lemma DeltaForm(cfg: Config, s: State, index: int, d: BlockDelta)
    requires DeltaBlock(cfg, s, index, d).Ok?
    ensures 0 <= index < |s.blocks| && !s.blocks[index].closed && s.finish.None? && Fits(s.blocks[index], d)
    ensures s.size + DeltaSize(d) <= MAX_STREAM
    ensures DeltaBlock(cfg, s, index, d).value ==
      (s.(size := s.size + DeltaSize(d), blocks := s.blocks[index := AfterDelta(s.blocks[index], d)]),
          DeltaChunks(cfg, s.blocks[index], d))
  {
    assert s.blocks[index := s.blocks[index]] == s.blocks;
  }

  lemma DeltaAgrees(cfg: Config, s: State, m: Spelled, index: int, d: BlockDelta)
    requires Agrees(cfg, s, m) && s.started && !s.stopped && DeltaBlock(cfg, s, index, d).Ok?
    ensures var (t, chunks) := DeltaBlock(cfg, s, index, d).value; var n := Spell(m, BlockDeltaEvent(index, d));
      Agrees(cfg, t, n) && ReadAll(Seen(cfg, s, m), chunks) == Seen(cfg, t, n)
  {
    DeltaForm(cfg, s, index, d);
    OpenIsLast(s, index);
    var l, q := s.blocks[index], m.parts[index];
    assert Matches(cfg, l, q);
    DeltaOnPart(cfg, l, q, d);
    var t := s.(size := s.size + DeltaSize(d), blocks := s.blocks[index := AfterDelta(l, d)]);
    LastAgrees(cfg, s, t, m, AfterDelta(l, d), SpellDelta(q, d));
    DeltaSeen(cfg, s, m, l, d);
  }

  lemma DeltaSeen(cfg: Config, s: State, m: Spelled, l: Live, d: BlockDelta)
    requires Agrees(cfg, s, m) && !s.stopped && m.parts != [] && l == s.blocks[|s.blocks| - 1] && !l.closed
      && Fits(l, d)
    ensures ReadAll(Seen(cfg, s, m), DeltaChunks(cfg, l, d)) ==
      Seen(cfg, s, m.(parts := m.parts[|m.parts| - 1 := SpellDelta(m.parts[|m.parts| - 1], d)]))
  {
    var q := m.parts[|m.parts| - 1];
    assert Matches(cfg, l, q);
    DeltaOnPart(cfg, l, q, d);
    CarriesAt(cfg, q, SpellDelta(q, d), DeltaChunks(cfg, l, d), l.toolIndex,
        |SentCalls(cfg, m.parts[..|m.parts| - 1])|);
    LastSeen(cfg, s, m, SpellDelta(q, d), DeltaChunks(cfg, l, d));
  }

  lemma CarriesAt(cfg: Config, q: Part, p: Part, chunks: seq<Chunk>, i: nat, k: nat)
    requires Carries(cfg, q, p, chunks, i) && (IsTool(q) ==> i == k)
    ensures Carries(cfg, q, p, chunks, k)
  {
  }

  lemma FinishAgrees(cfg: Config, s: State, m: Spelled, reason: StopReason)
    requires Agrees(cfg, s, m) && !s.stopped && SetFinish(s, reason).Ok?
    ensures var (t, chunks) := SetFinish(s, reason).value; var n := Spell(m, MessageDelta(reason));
      Agrees(cfg, t, n) && ReadAll(Seen(cfg, s, m), chunks) == Seen(cfg, t, n)
  {
    FinishForm(s, reason);
    var t := SetFinish(s, reason).value.0;
    if reason != NoReason {
      FinishGathers(cfg, s, t, m, reason);
    }
    FinishUnseen(cfg, s, t, m, Spell(m, MessageDelta(reason)));
  }

  /** A finish reason is not sent before the message stops. */
  lemma FinishUnseen(cfg: Config, s: State, t: State, m: Spelled, n: Spelled)
    requires !s.stopped && !t.stopped && n.parts == m.parts
    ensures ReadAll(Seen(cfg, s, m), []) == Seen(cfg, t, n)
  {
  }

  lemma FinishForm(s: State, reason: StopReason)
    requires SetFinish(s, reason).Ok?
    ensures SetFinish(s, reason).value == (if reason == NoReason then s else s.(finish := MapStop(reason)), [])
    ensures reason != NoReason ==> forall i :: 0 <= i < |s.blocks| ==> s.blocks[i].closed
  {
  }

  lemma FinishGathers(cfg: Config, s: State, t: State, m: Spelled, reason: StopReason)
    requires Agrees(cfg, s, m) && !s.stopped && t == s.(finish := MapStop(reason))
    requires forall i :: 0 <= i < |s.blocks| ==> s.blocks[i].closed
    ensures Agrees(cfg, t, m.(stop := reason))
  {
    SameToolsAgree(cfg, s, t, m.parts);
  }

  lemma SameToolsAgree(cfg: Config, s: State, t: State, parts: seq<Part>)
    requires |s.blocks| == |parts| && ToolsAgree(cfg, s, parts) && t.blocks == s.blocks && t.ids == s.ids
    ensures ToolsAgree(cfg, t, parts)
  {
  }

  lemma EndRead(v: Message, finish: Finish, usage: bool)
    ensures ReadAll(v, [End(finish)] + (if usage then [Usage] else []) + [DoneMark]) == v.(finish := Some(finish))
  {
    ReadOne(v, End(finish));
    var w := v.(finish := Some(finish));
    if usage {
      ReadAllAppend(v, [End(finish)], [Usage]);
      ReadOne(w, Usage);
      ReadAllAppend(v, [End(finish)] + [Usage], [DoneMark]);
    } else {
      assert [End(finish)] + [] + [DoneMark] == [End(finish)] + [DoneMark];
      ReadAllAppend(v, [End(finish)], [DoneMark]);
    }
    ReadOne(w, DoneMark);
  }

  lemma StopMessageAgrees(cfg: Config, s: State, m: Spelled)
    requires Agrees(cfg, s, m) && !s.stopped && Step(cfg, s, MessageStop).Ok?
    ensures var (t, chunks) := Step(cfg, s, MessageStop).value;
      Agrees(cfg, t, m) && ReadAll(Seen(cfg, s, m), chunks) == Seen(cfg, t, m)
  {
    StoppedForm(cfg, s);
    StopKeeps(cfg, s, s.(stopped := true), m);
    EndRead(Seen(cfg, s, m), s.finish.value, cfg.usage);
  }

  lemma StoppedForm(cfg: Config, s: State)
    requires !s.stopped && Step(cfg, s, MessageStop).Ok?
    ensures s.finish.Some? && Step(cfg, s, MessageStop).value ==
      (s.(stopped := true), [End(s.finish.value)] + (if cfg.usage then [Usage] else []) + [DoneMark])
  {
  }

  lemma StopKeeps(cfg: Config, s: State, t: State, m: Spelled)
    requires Agrees(cfg, s, m) && s.finish.Some? && t == s.(stopped := true)
    ensures Agrees(cfg, t, m)
  {
    SameToolsAgree(cfg, s, t, m.parts);
  }

  lemma MessageStartAgrees(cfg: Config, s: State, m: Spelled, e: Event)
    requires Agrees(cfg, s, m) && e.MessageStart? && Step(cfg, s, e).Ok?
    ensures var (t, chunks) := Step(cfg, s, e).value;
      Agrees(cfg, t, m) && ReadAll(Seen(cfg, s, m), chunks) == Seen(cfg, t, m)
  {
    var (t, chunks) := Step(cfg, s, e).value;
    assert ToolsAgree(cfg, t, m.parts);
    var v := Seen(cfg, s, m);
    assert chunks == [Role] + [Content("")];
    ReadAllAppend(v, [Role], [Content("")]);
    ReadOne(v, Role);
    ReadOne(v, Content(""));
  }

  /** Every accepted event keeps the stream, the spelled message and the client in agreement. */
  lemma StepAgrees(cfg: Config, s: State, m: Spelled, e: Event)
    requires Agrees(cfg, s, m) && Step(cfg, s, e).Ok?
    ensures var (t, chunks) := Step(cfg, s, e).value;
      Agrees(cfg, t, Spell(m, e)) && ReadAll(Seen(cfg, s, m), chunks) == Seen(cfg, t, Spell(m, e))
  {
    assert ReadAll(Seen(cfg, s, m), []) == Seen(cfg, s, m);
    match e
    case MessageStart(_, _) => MessageStartAgrees(cfg, s, m, e);
    case BlockStart(index, block) => StartAgrees(cfg, s, m, index, block);
    case BlockStop(index) => StopAgrees(cfg, s, m, index);
    case BlockDeltaEvent(index, d) => DeltaAgrees(cfg, s, m, index, d);
    case MessageDelta(stop) => FinishAgrees(cfg, s, m, stop);
    case MessageStop => StopMessageAgrees(cfg, s, m);
    case _ =>
  }

  lemma {:induction false} StreamAgrees(cfg: Config, events: seq<Event>)
    requires Stream(cfg, FRESH, events).Ok?
    ensures var (t, chunks) := Stream(cfg, FRESH, events).value;
      Agrees(cfg, t, SpellAll(events)) && ReadAll(EMPTY, chunks) == Seen(cfg, t, SpellAll(events))
  {
    if events == [] {
      assert ReadAll(EMPTY, []) == EMPTY;
      assert SentCalls(cfg, []) == [] && ClientHas(cfg, []) == EMPTY;
      assert Sum(Sizes(CompleteAll([]))) == 0;
    } else {
      var front := events[..|events| - 1];
      StreamAgrees(cfg, front);
      var (t, chunks) := Stream(cfg, FRESH, front).value;
      StepAgrees(cfg, t, SpellAll(front), events[|events| - 1]);
      ReadAllAppend(EMPTY, chunks, Step(cfg, t, events[|events| - 1]).value.1);
    }
  }

  // ---- Where the two conversions part ---------------------------------------------------------------------

  /** A field of the block that only the one-shot conversion reads is empty, and a custom tool's object has a string as
      its last member "input" that no later spelling of the name overrides. */
  predicate Clean(cfg: Config, b: Block) {
    UnmixedBlock(b) && CleanTool(cfg, b)
  }

  predicate UnmixedBlock(b: Block) {
    (b.kind != TextBlock ==> b.text == "") && (b.kind != ThinkingBlock ==> b.thinking == "")
  }

  predicate CleanTool(cfg: Config, b: Block) {
    b.kind == ToolBlock && b.name in cfg.custom ==> cfg.codec.ReadsAlike(Effective(b))
  }

  predicate AllClosed(cfg: Config, parts: seq<Part>) {
    forall i :: 0 <= i < |parts| ==> parts[i].closed && (IsTool(parts[i]) ==> GoodTool(cfg, Complete(parts[i])))
  }

  predicate AllClean(cfg: Config, parts: seq<Part>) {
    forall i :: 0 <= i < |parts| ==> Clean(cfg, Complete(parts[i]))
  }

  lemma CompleteSplit(parts: seq<Part>, p: Part)
    ensures CompleteAll(parts + [p]) == CompleteAll(parts) + [Complete(p)]
    ensures CompleteAll(parts + [p])[..|parts|] == CompleteAll(parts)
  {
  }

  /** Two concatenations of parts no longer on the left are equal only part by part. */
  lemma BothEqual<T>(a: seq<T>, b: seq<T>, x: seq<T>, y: seq<T>)
    requires |a| <= |b| && |x| <= |y|
    ensures a + x == b + y <==> a == b && x == y
  {
    if a + x == b + y {
      assert |a| == |b| && |x| == |y|;
      assert a == (a + x)[..|a|] && x == (a + x)[|a|..];
      assert b == (b + y)[..|b|] && y == (b + y)[|b|..];
    }
  }

  predicate NoStrayText(parts: seq<Part>) {
    forall i :: 0 <= i < |parts| && parts[i].block.kind != TextBlock ==> parts[i].block.text == ""
  }

  predicate NoStrayThinking(parts: seq<Part>) {
    forall i :: 0 <= i < |parts| && parts[i].block.kind != ThinkingBlock ==> parts[i].block.thinking == ""
  }

  /** The one-shot text is at least as long, and longer exactly when a block carries stray text. */
  lemma {:induction false} TextsDiffer(parts: seq<Part>)
    ensures |SentTexts(parts)| <= |Texts(CompleteAll(parts))|
    ensures SentTexts(parts) == Texts(CompleteAll(parts)) <==> NoStrayText(parts)
  {
    if parts != [] {
      var front, last := parts[..|parts| - 1], parts[|parts| - 1];
      assert parts == front + [last];
      TextsDiffer(front);
      CompleteSplit(front, last);
      BothEqual(SentTexts(front), Texts(CompleteAll(front)),
          if last.block.kind == TextBlock then last.block.text else "", last.block.text);
    }
  }

  lemma {:induction false} ThoughtsDiffer(parts: seq<Part>)
    ensures |SentThoughts(parts)| <= |Thoughts(CompleteAll(parts))|
    ensures SentThoughts(parts) == Thoughts(CompleteAll(parts)) <==> NoStrayThinking(parts)
  {
    if parts != [] {
      var front, last := parts[..|parts| - 1], parts[|parts| - 1];
      assert parts == front + [last];
      ThoughtsDiffer(front);
      CompleteSplit(front, last);
      var sent := if last.block.kind == ThinkingBlock then last.block.thinking else "";
      BothEqual(SentThoughts(front), Thoughts(CompleteAll(front)), sent, last.block.thinking);
    }
  }

  predicate CleanTools(cfg: Config, parts: seq<Part>) {
    forall i :: 0 <= i < |parts| ==> CleanTool(cfg, Complete(parts[i]))
  }

  lemma ToolDiffers(cfg: Config, p: Part)
    requires IsTool(p) && p.closed && GoodTool(cfg, Complete(p))
    ensures CleanTool(cfg, Complete(p)) ==> Sent(cfg, p) == ToolValue(cfg, Complete(p))
    ensures cfg.codec.Lawful() && Sent(cfg, p) == ToolValue(cfg, Complete(p)) ==> CleanTool(cfg, Complete(p))
  {
    var whole := Effective(Complete(p));
    ReadingsAgree(cfg.codec.members(whole).value);
    if cfg.codec.Lawful() {
      NeverItself(cfg.codec, whole);
    }
  }

  lemma CallDiffers(cfg: Config, front: seq<Part>, last: Part, lawful: bool)
    requires IsTool(last) && last.closed && GoodTool(cfg, Complete(last)) && lawful == cfg.codec.Lawful()
    requires |SentCalls(cfg, front)| == |Calls(cfg, CompleteAll(front))|
    requires CleanTools(cfg, front) ==> SentCalls(cfg, front) == Calls(cfg, CompleteAll(front))
    requires lawful && SentCalls(cfg, front) == Calls(cfg, CompleteAll(front)) ==> CleanTools(cfg, front)
    ensures var clean := CleanTools(cfg, front) && CleanTool(cfg, Complete(last));
      && (clean ==> SentCalls(cfg, front + [last]) == Calls(cfg, CompleteAll(front + [last])))
      && (lawful && SentCalls(cfg, front + [last]) == Calls(cfg, CompleteAll(front + [last])) ==> clean)
    ensures |SentCalls(cfg, front + [last])| == |Calls(cfg, CompleteAll(front + [last]))|
  {
    ToolDiffers(cfg, last);
    SentAppend(cfg, front, last);
    CompleteSplit(front, last);
    var mine := ToolCall(last.block.id, last.block.name in cfg.custom, last.block.name, Sent(cfg, last));
    var whole := ToolCall(last.block.id, last.block.name in cfg.custom, last.block.name,
        ToolValue(cfg, Complete(last)));
    BothEqual(SentCalls(cfg, front), Calls(cfg, CompleteAll(front)), [mine], [whole]);
    assert [mine] == [whole] <==> Sent(cfg, last) == ToolValue(cfg, Complete(last));
  }

  lemma {:induction false} CallsDiffer(cfg: Config, parts: seq<Part>, lawful: bool)
    requires AllClosed(cfg, parts) && lawful == cfg.codec.Lawful()
    ensures |SentCalls(cfg, parts)| == |Calls(cfg, CompleteAll(parts))|
    ensures CleanTools(cfg, parts) ==> SentCalls(cfg, parts) == Calls(cfg, CompleteAll(parts))
    ensures lawful && SentCalls(cfg, parts) == Calls(cfg, CompleteAll(parts)) ==> CleanTools(cfg, parts)
  {
    if parts != [] {
      var front, last := parts[..|parts| - 1], parts[|parts| - 1];
      assert parts == front + [last];
      CallsDiffer(cfg, front, lawful);
      CleanSnoc(cfg, front, last);
      if IsTool(last) {
        CallDiffers(cfg, front, last, lawful);
      } else {
        CompleteSplit(front, last);
        assert SentCalls(cfg, parts) == SentCalls(cfg, front)
          && Calls(cfg, CompleteAll(parts)) == Calls(cfg, CompleteAll(front));
      }
    }
  }

  lemma CleanSnoc(cfg: Config, front: seq<Part>, last: Part)
    ensures CleanTools(cfg, front + [last]) <==> CleanTools(cfg, front) && CleanTool(cfg, Complete(last))
  {
    var parts := front + [last];
    assert parts[|front|] == last;
    forall i | 0 <= i < |front| ensures front[i] == parts[i] {}
  }

  predicate EachGood(cfg: Config, blocks: seq<Block>) {
    forall i :: 0 <= i < |blocks| ==> GoodBlock(cfg, blocks[i])
  }

  lemma ClosedAreGood(cfg: Config, blocks: seq<Live>, parts: seq<Part>)
    requires AllMatch(cfg, blocks, parts) && forall i :: 0 <= i < |blocks| ==> blocks[i].closed
    ensures AllClosed(cfg, parts) && EachGood(cfg, CompleteAll(parts))
  {
    forall i | 0 <= i < |parts|
      ensures parts[i].closed && GoodBlock(cfg, Complete(parts[i]))
      ensures IsTool(parts[i]) ==> GoodTool(cfg, Complete(parts[i]))
    {
      assert Matches(cfg, blocks[i], parts[i]);
    }
  }

  lemma EndedIsClosed(cfg: Config, s: State, m: Spelled)
    requires Agrees(cfg, s, m) && s.finish.Some?
    ensures forall i :: 0 <= i < |s.blocks| ==> s.blocks[i].closed
  {
  }

  lemma EndedIsAcceptable(cfg: Config, s: State, m: Spelled)
    requires Agrees(cfg, s, m) && s.finish.Some? && EachGood(cfg, CompleteAll(m.parts))
    ensures Acceptable(cfg, CompleteAll(m.parts), m.stop)
  {
    var blocks := CompleteAll(m.parts);
    forall i | 0 <= i < |blocks| ensures blocks[i].kind == m.parts[i].block.kind
    && blocks[i].id == m.parts[i].block.id {}
  }

  /** A stream that reached its end stands for a message the one-shot conversion accepts. */
  lemma StreamIsAcceptable(cfg: Config, events: seq<Event>)
    requires Stream(cfg, FRESH, events).Ok? && Stream(cfg, FRESH, events).value.0.stopped
    ensures var m := SpellAll(events); Acceptable(cfg, CompleteAll(m.parts), m.stop) && AllClosed(cfg, m.parts)
  {
    StreamAgrees(cfg, events);
    StoppedIsAcceptable(cfg, Stream(cfg, FRESH, events).value.0, SpellAll(events));
  }

  lemma StoppedIsAcceptable(cfg: Config, s: State, m: Spelled)
    requires Agrees(cfg, s, m) && s.stopped
    ensures Acceptable(cfg, CompleteAll(m.parts), m.stop) && AllClosed(cfg, m.parts)
  {
    EndedIsClosed(cfg, s, m);
    ClosedAreGood(cfg, s.blocks, m.parts);
    EndedIsAcceptable(cfg, s, m);
  }

  /** No block carries text of another kind. */
  predicate Unmixed(parts: seq<Part>) {
    NoStrayText(parts) && NoStrayThinking(parts)
  }

  lemma StreamMeetsBy(cfg: Config, events: seq<Event>)
    requires Stream(cfg, FRESH, events).Ok? && Stream(cfg, FRESH, events).value.0.stopped
    ensures var m := SpellAll(events);
      ReadAll(EMPTY, Stream(cfg, FRESH, events).value.1) == OneShot(cfg, CompleteAll(m.parts), m.stop) <==>
        Unmixed(m.parts) && SentCalls(cfg, m.parts) == Calls(cfg, CompleteAll(m.parts))
  {
    StreamAgrees(cfg, events);
    TextsDiffer(SpellAll(events).parts);
    ThoughtsDiffer(SpellAll(events).parts);
  }

  lemma CleanForm(cfg: Config, parts: seq<Part>)
    ensures AllClean(cfg, parts) <==> Unmixed(parts) && CleanTools(cfg, parts)
  {
    forall i | 0 <= i < |parts|
      ensures Clean(cfg, Complete(parts[i])) <==> UnmixedBlock(parts[i].block) && CleanTool(cfg, Complete(parts[i])) {}
  }

  /** Stream and one-shot conversion give the client the same message exactly when every block is clean. */
  lemma StreamMeetsOneShot(cfg: Config, events: seq<Event>)
    requires Stream(cfg, FRESH, events).Ok? && Stream(cfg, FRESH, events).value.0.stopped && cfg.codec.Lawful()
    ensures var m := SpellAll(events); Acceptable(cfg, CompleteAll(m.parts), m.stop)
    ensures var m := SpellAll(events);
      (ReadAll(EMPTY, Stream(cfg, FRESH, events).value.1) == OneShot(cfg, CompleteAll(m.parts), m.stop))
        <==> AllClean(cfg, m.parts)
  {
    StreamIsAcceptable(cfg, events);
    StreamMeetsBy(cfg, events);
    CallsDiffer(cfg, SpellAll(events).parts, true);
    CleanForm(cfg, SpellAll(events).parts);
  }

  /** That clean blocks suffice holds of any reading of JSON texts. */
  lemma CleanMeetsOneShot(cfg: Config, events: seq<Event>)
    requires Stream(cfg, FRESH, events).Ok? && Stream(cfg, FRESH, events).value.0.stopped
      && AllClean(cfg, SpellAll(events).parts)
    ensures ReadAll(EMPTY, Stream(cfg, FRESH, events).value.1) ==
      OneShot(cfg, CompleteAll(SpellAll(events).parts), SpellAll(events).stop)
  {
    StreamIsAcceptable(cfg, events);
    StreamMeetsBy(cfg, events);
    CallsDiffer(cfg, SpellAll(events).parts, cfg.codec.Lawful());
    CleanForm(cfg, SpellAll(events).parts);
  }

  /** In every state a stream reaches, no two blocks are open. */
  lemma AtMostOneOpen(cfg: Config, events: seq<Event>, i: nat, k: nat)
    requires Stream(cfg, FRESH, events).Ok? && i < k < |Stream(cfg, FRESH, events).value.0.blocks|
    ensures Stream(cfg, FRESH, events).value.0.blocks[i].closed
  {
    StreamAgrees(cfg, events);
  }
}
