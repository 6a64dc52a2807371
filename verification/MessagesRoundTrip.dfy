/** Chat to Messages and back: the Chat converter accepts the emitter's trace and rebuilds the upstream's answer. */
module MessagesRoundTrip {
  import opened Outcomes
  import opened ChatWire
  import opened ChatParts
  import opened JsonInput
  import opened MessagesChat
  import opened MessagesLegal
  import opened AnthropicPlay
  import opened Sequences
  import opened Sums
  import A = AnthropicChat
  import G = AnthropicAgreement

  // ---- Each part is sent exactly --------------------------------------------------------------------------

  /** Everything sent for one part. */
  function Emitted(log: seq<Piece>, i: nat): string {
    if log == [] then ""
    else Emitted(log[..|log| - 1], i) + if log[|log| - 1].part == i then log[|log| - 1].text else ""
  }

  /** Everything sent as one kind. */
  function LogText(log: seq<Piece>, kind: A.DeltaKind): string {
    if log == [] then ""
    else LogText(log[..|log| - 1], kind) + if log[|log| - 1].kind == kind then log[|log| - 1].text else ""
  }

  predicate PieceFits(x: Piece, parts: seq<ChatPart>, n: nat) {
    x.part < n && x.part < |parts| && parts[x.part].kind != ToolPart && x.kind == KindOf(parts[x.part])
  }

  predicate SentPart(e: Emitter, parts: seq<ChatPart>, log: seq<Piece>, i: nat)
    requires i < |e.sent|
  {
    i < |parts| && e.sent[i] <= |parts[i].text| && Emitted(log, i) == parts[i].text[..e.sent[i]]
  }

  /** The first `n` parts are sent in full, and what was sent of the others is a prefix. */
  predicate SentUpTo(e: Emitter, parts: seq<ChatPart>, n: nat, log: seq<Piece>) {
    && n <= |e.sent|
    && (forall i :: 0 <= i < |e.sent| ==> SentPart(e, parts, log, i))
    && (forall i :: 0 <= i < n ==> i < |parts| && e.sent[i] == |parts[i].text|)
    && (forall k :: 0 <= k < |log| ==> PieceFits(log[k], parts, |e.sent|))
  }

  lemma EmittedSnoc(log: seq<Piece>, x: Piece, i: nat)
    ensures Emitted(log + [x], i) == Emitted(log, i) + if x.part == i then x.text else ""
  {
    assert (log + [x])[..|log|] == log;
  }

  lemma {:induction false} EmittedNone(log: seq<Piece>, i: nat)
    requires forall k :: 0 <= k < |log| ==> log[k].part != i
    ensures Emitted(log, i) == ""
  {
    if log != [] {
      EmittedNone(log[..|log| - 1], i);
    }
  }

  lemma RegisterSends(e: Emitter, parts: seq<ChatPart>, n: nat, log: seq<Piece>)
    requires n < |parts| && SentUpTo(e, parts, n, log)
    ensures SentUpTo(Register(e, n), parts, n, log) && n < |Register(e, n).sent|
  {
    var f := Register(e, n);
    if n == |e.sent| {
      EmittedNone(log, n);
    }
    forall i | 0 <= i < |f.sent| ensures SentPart(f, parts, log, i) {
      if i < |e.sent| {
        assert SentPart(e, parts, log, i);
      }
    }
    forall k | 0 <= k < |log| ensures PieceFits(log[k], parts, |f.sent|) {
      assert PieceFits(log[k], parts, |e.sent|);
    }
  }

  lemma PieceSends(f: Emitter, g: Emitter, parts: seq<ChatPart>, n: nat, log: seq<Piece>, x: Piece)
    requires n < |parts| && n < |f.sent| && SentUpTo(f, parts, n, log) && parts[n].kind != ToolPart
    requires g.sent == f.sent[n := |parts[n].text|] && x == Piece(n, KindOf(parts[n]), Suffix(parts[n].text, f.sent[n]))
    ensures SentUpTo(g, parts, n + 1, log + [x])
  {
    var all := log + [x];
    assert SentPart(f, parts, log, n);
    assert parts[n].text[..f.sent[n]] + x.text == parts[n].text;
    forall i | 0 <= i < |g.sent| ensures SentPart(g, parts, all, i) {
      EmittedSnoc(log, x, i);
      assert SentPart(f, parts, log, i);
    }
    forall k | 0 <= k < |all| ensures PieceFits(all[k], parts, |g.sent|) {
      if k < |log| {
        assert PieceFits(log[k], parts, |f.sent|);
      }
    }
  }

  lemma EmitPartForm(e: Emitter, n: nat, p: ChatPart)
    requires n <= |e.sent|
    ensures !Unsent(e, n, p) ==> EmitPart(e, n, p).0 == Register(e, n) && PieceOf(e, n, p) == []
    ensures Unsent(e, n, p) ==>
      n < |Register(e, n).sent| && EmitPart(e, n, p).0.sent == Register(e, n).sent[n := |p.text|]
    ensures Unsent(e, n, p) ==> p.kind != ToolPart && PieceOf(e, n, p) == [Piece(n, KindOf(p),
        Suffix(p.text, Register(e, n).sent[n]))]
  {
  }

  lemma NothingSends(e: Emitter, f: Emitter, parts: seq<ChatPart>, n: nat, log: seq<Piece>)
    requires n < |parts| && n <= |e.sent| && f == Register(e, n) && SentUpTo(f, parts, n, log) && n < |f.sent|
    requires PartOk(parts[n]) && !Unsent(e, n, parts[n])
    ensures SentUpTo(f, parts, n + 1, log + [])
  {
    assert log + [] == log;
    assert SentPart(f, parts, log, n);
  }

  lemma EmitPartSends(e: Emitter, parts: seq<ChatPart>, n: nat, log: seq<Piece>)
    requires n < |parts| && SentUpTo(e, parts, n, log) && PartOk(parts[n])
    ensures SentUpTo(EmitPart(e, n, parts[n]).0, parts, n + 1, log + PieceOf(e, n, parts[n]))
  {
    RegisterSends(e, parts, n, log);
    EmitPartForm(e, n, parts[n]);
    if !Unsent(e, n, parts[n]) {
      NothingSends(e, Register(e, n), parts, n, log);
    } else {
      PieceSends(Register(e, n), EmitPart(e, n, parts[n]).0, parts, n, log, PieceOf(e, n, parts[n])[0]);
    }
  }

  lemma {:induction false} EmitPartsSend(e: Emitter, parts: seq<ChatPart>, n: nat, log: seq<Piece>)
    requires n <= |parts| && SentUpTo(e, parts, 0, log)
    requires forall i :: 0 <= i < |parts| ==> PartOk(parts[i])
    ensures SentUpTo(EmitParts(e, parts[..n]).0, parts, n, log + PiecesOf(e, parts[..n]))
  {
    if n == 0 {
      assert log + [] == log;
    } else {
      assert parts[..n][..n - 1] == parts[..n - 1];
      EmitPartsSend(e, parts, n - 1, log);
      var pieces := PiecesOf(e, parts[..n - 1]);
      var f := EmitParts(e, parts[..n - 1]).0;
      EmitPartSends(f, parts, n - 1, log + pieces);
      Regroup(log, pieces, PieceOf(f, n - 1, parts[n - 1]));
    }
  }

  /** What was sent stays a prefix as the parts grow. */
  lemma SentGrows(e: Emitter, earlier: seq<ChatPart>, parts: seq<ChatPart>, log: seq<Piece>, f: Emitter)
    requires SentUpTo(e, earlier, |earlier|, log) && Grows(earlier, parts) && f == e.(started := true)
    ensures SentUpTo(f, parts, 0, log)
  {
    forall i | 0 <= i < |f.sent| ensures SentPart(f, parts, log, i) {
      assert SentPart(e, earlier, log, i) && GrowsPart(earlier[i], parts[i]);
    }
    forall k | 0 <= k < |log| ensures PieceFits(log[k], parts, |f.sent|) {
      assert PieceFits(log[k], earlier, |e.sent|);
      assert GrowsPart(earlier[log[k].part], parts[log[k].part]);
    }
  }

  predicate PartsOk(parts: seq<ChatPart>) {
    forall i :: 0 <= i < |parts| ==> PartOk(parts[i])
  }

  /** What an upstream shows: well formed parts that only grow. */
  ghost predicate Growing(h: History) {
    && (forall k :: 0 <= k < |h| ==> PartsOk(h[k]))
    && (forall i, k :: 0 <= i < k < |h| ==> Grows(h[i], h[k]))
  }

  function LastParts(h: History): seq<ChatPart> {
    if h == [] then [] else h[|h| - 1]
  }

  /** After every frame, every part's text has been sent exactly. */
  lemma {:induction false} EverythingSent(h: History)
    requires Growing(h)
    ensures SentUpTo(EmitterAfter(h), LastParts(h), |LastParts(h)|, Log(h))
  {
    if h != [] {
      var front, parts := h[..|h| - 1], h[|h| - 1];
      EverythingSent(front);
      var e := EmitterAfter(front);
      if front != [] {
        assert Grows(h[|front| - 1], h[|front|]);
      }
      SentGrows(e, LastParts(front), parts, Log(front), e.(started := true));
      EmitPartsSend(e.(started := true), parts, |parts|, Log(front));
      assert parts[..|parts|] == parts;
    }
  }

  /** What was sent for each part is its text. */
  lemma EachPartSent(h: History, i: nat)
    requires Growing(h) && i < |LastParts(h)|
    ensures Emitted(Log(h), i) == LastParts(h)[i].text
  {
    EverythingSent(h);
    assert SentPart(EmitterAfter(h), LastParts(h), Log(h), i);
  }

  // ---- Sizes ----------------------------------------------------------------------------------------------

  function TextTotal(log: seq<Piece>): nat {
    if log == [] then 0 else TextTotal(log[..|log| - 1]) + |log[|log| - 1].text|
  }

  function SentLengths(log: seq<Piece>, n: nat): seq<int> {
    seq(n, i requires 0 <= i < n => |Emitted(log, i)|)
  }

  /** The total sent is the sum of what was sent for each part. */
  lemma {:induction false} TotalByPart(log: seq<Piece>, n: nat)
    requires forall k :: 0 <= k < |log| ==> log[k].part < n
    ensures Sum(SentLengths(log, n)) == TextTotal(log)
  {
    if log == [] {
      SumZero(SentLengths(log, n));
    } else {
      var front, x := log[..|log| - 1], log[|log| - 1];
      TotalByPart(front, n);
      SumUpdate(SentLengths(front, n), x.part, |Emitted(log, x.part)|);
      assert SentLengths(log, n) == SentLengths(front, n)[x.part := |Emitted(log, x.part)|];
    }
  }

  function ToolCost(parts: seq<ChatPart>): nat {
    if parts == [] then 0
    else
      ToolCost(parts[..|parts| - 1]) +
      if parts[|parts| - 1].kind == ToolPart then 2 + |RawInput(parts[|parts| - 1])| else 0
  }

  function TextSizes(parts: seq<ChatPart>): seq<int> {
    seq(|parts|, i requires 0 <= i < |parts| => |parts[i].text|)
  }

  lemma {:induction false} CostWithinWeight(codec: Codec, parts: seq<ChatPart>)
    requires AllCallable(codec, parts)
    requires forall i :: 0 <= i < |parts| && parts[i].kind == ToolPart ==> parts[i].arguments != ""
    ensures Sum(TextSizes(parts)) + ToolCost(parts) <= Sum(Weights(parts))
  {
    if parts != [] {
      var front, p := parts[..|parts| - 1], parts[|parts| - 1];
      assert parts == front + [p];
      CostWithinWeight(codec, front);
      WeightsAppend(front, p);
      assert TextSizes(parts) == TextSizes(front) + [|p.text|];
      SumAppend(TextSizes(front), |p.text|);
      assert p.kind == ToolPart ==> Callable(codec, p);
    }
  }

  lemma TotalIsTexts(h: History)
    requires Growing(h)
    ensures TextTotal(Log(h)) == Sum(TextSizes(LastParts(h)))
  {
    EverythingSent(h);
    var log, parts := Log(h), LastParts(h);
    forall k | 0 <= k < |log| ensures log[k].part < |parts| {
      assert PieceFits(log[k], parts, |EmitterAfter(h).sent|);
    }
    TotalByPart(log, |parts|);
    forall i | 0 <= i < |parts| ensures |Emitted(log, i)| == |parts[i].text| {
      EachPartSent(h, i);
    }
    assert SentLengths(log, |parts|) == TextSizes(parts);
  }

  // ---- Acceptance -----------------------------------------------------------------------------------------

  predicate Fragments(deltas: seq<A.BlockDelta>, kind: A.DeltaKind) {
    forall i :: 0 <= i < |deltas| ==> deltas[i] == Fragment(kind,
        if kind == A.ThinkingDelta then deltas[i].thinking else deltas[i].text)
  }

  predicate TextPlay(p: Play, kind: A.DeltaKind) {
    (kind == A.TextDelta || kind == A.ThinkingDelta) && p.start == EmptyBlock(kind) && Fragments(p.deltas, kind)
  }

  predicate TextKinds(log: seq<Piece>) {
    forall k :: 0 <= k < |log| ==> log[k].kind == A.TextDelta || log[k].kind == A.ThinkingDelta
  }

  lemma PlayCostSnoc(p: Play, d: A.BlockDelta)
    ensures Cost(p.(deltas := p.deltas + [d])) == Cost(p) + A.DeltaSize(d)
  {
    assert DeltaSizes(p.deltas + [d]) == DeltaSizes(p.deltas) + [A.DeltaSize(d)];
    SumAppend(DeltaSizes(p.deltas), A.DeltaSize(d));
  }

  lemma CostOfOne(b: A.Block, d: A.BlockDelta)
    ensures Cost(Play(b, [d])) == A.BlockSize(b) + A.DeltaSize(d)
  {
    PlayCostSnoc(Play(b, []), d);
    assert [] + [d] == [d];
    assert DeltaSizes([]) == [];
  }

  /** Grouped pieces make text and thinking blocks only, costing what was sent. */
  lemma {:induction false} GroupIsText(log: seq<Piece>)
    requires TextKinds(log)
    ensures forall i :: 0 <= i < |Group(log)| ==>
      TextPlay(Group(log)[i], A.TextDelta) || TextPlay(Group(log)[i], A.ThinkingDelta)
    ensures Group(log) != [] ==> log != [] && TextPlay(Group(log)[|Group(log)| - 1], log[|log| - 1].kind)
    ensures Sum(Costs(Group(log))) == TextTotal(log)
  {
    if log == [] {
      assert Costs([]) == [];
    } else {
      var front, x := log[..|log| - 1], log[|log| - 1];
      assert log == front + [x];
      GroupIsText(front);
      GroupSnoc(front, x);
      ExtendedIsText(Group(front), x, LastKind(front) == Some(x.kind));
    }
  }

  lemma ExtendedIsText(plays: seq<Play>, x: Piece, same: bool)
    requires x.kind == A.TextDelta || x.kind == A.ThinkingDelta
    requires forall i :: 0 <= i < |plays| ==> TextPlay(plays[i], A.TextDelta) || TextPlay(plays[i], A.ThinkingDelta)
    requires same && plays != [] ==> TextPlay(plays[|plays| - 1], x.kind)
    ensures var all := Extended(plays, x, same);
      && (forall i :: 0 <= i < |all| ==> TextPlay(all[i], A.TextDelta) || TextPlay(all[i], A.ThinkingDelta))
      && TextPlay(all[|all| - 1], x.kind) && Sum(Costs(all)) == Sum(Costs(plays)) + |x.text|
  {
    var d := Fragment(x.kind, x.text);
    if same && plays != [] {
      var n := |plays| - 1;
      var q := plays[n].(deltas := plays[n].deltas + [d]);
      PlayCostSnoc(plays[n], d);
      assert Costs(plays[n := q]) == Costs(plays)[n := Cost(q)];
      SumUpdate(Costs(plays), n, Cost(q));
      assert TextPlay(q, x.kind);
    } else {
      var q := Play(EmptyBlock(x.kind), [d]);
      CostOfOne(EmptyBlock(x.kind), d);
      CostsAppend(plays, q);
      assert TextPlay(q, x.kind);
    }
  }

  lemma TextPlayable(cfg: A.Config, p: Play, kind: A.DeltaKind)
    requires TextPlay(p, kind)
    ensures Playable(cfg, p) && p.start.kind != A.ToolBlock
  {
    forall i | 0 <= i < |p.deltas| ensures FitsKind(p.start, p.deltas[i]) {
      assert p.deltas[i] == Fragment(kind, if kind == A.ThinkingDelta then p.deltas[i].thinking else p.deltas[i].text);
    }
  }

  lemma ToolArgs(p: ChatPart)
    ensures Args(ToolPlay(p).deltas) == RawInput(p) && Cost(ToolPlay(p)) == 2 + |RawInput(p)|
  {
    var d := ToolPlay(p).deltas[0];
    CostOfOne(ToolPlay(p).start, d);
    assert [d][..0] == [];
    assert Args([]) == "";
    assert Args([d]) == "" + RawInput(p);
  }

  lemma ToolPlayable(cfg: A.Config, p: ChatPart)
    requires cfg.custom == {} && PartOk(p) && p.kind == ToolPart && Callable(cfg.codec, p)
    ensures Playable(cfg, ToolPlay(p)) && Cost(ToolPlay(p)) == 2 + |RawInput(p)|
  {
    ToolArgs(p);
    var start := ToolPlay(p).start;
    var whole := start.(input := A.WholeInput(RawInput(p), "{}"));
    assert G.Effective(whole) == RawInput(p);
    assert A.ToolNamed(whole) && G.GoodTool(cfg, whole);
    assert FitsKind(start, ToolPlay(p).deltas[0]);
  }

  predicate CallIdIn(parts: seq<ChatPart>, id: string) {
    exists i :: 0 <= i < |parts| && parts[i].kind == ToolPart && parts[i].callId == id
  }

  predicate WithinLimits(count: nat, size: int) {
    count <= MAX_PARTS && size <= MAX_STREAM
  }

  predicate EachPlayable(cfg: A.Config, plays: seq<Play>) {
    forall i :: 0 <= i < |plays| ==> Playable(cfg, plays[i])
  }

  predicate NoTools(plays: seq<Play>) {
    forall i :: 0 <= i < |plays| ==> plays[i].start.kind != A.ToolBlock
  }

  predicate DistinctIds(plays: seq<Play>) {
    forall i, k :: 0 <= i < k < |plays| ==> plays[i].start.id != plays[k].start.id
  }

  /** The tools' blocks are well formed and cost their inputs. */
  lemma {:induction false} ToolsPlayable(cfg: A.Config, parts: seq<ChatPart>)
    requires cfg.custom == {} && AllCallable(cfg.codec, parts) && PartsOk(parts)
    ensures EachPlayable(cfg, ToolPlays(parts))
  {
    if parts != [] {
      var front, p := parts[..|parts| - 1], parts[|parts| - 1];
      ToolsPlayable(cfg, front);
      if p.kind == ToolPart {
        assert Callable(cfg.codec, p);
        ToolPlayable(cfg, p);
      }
    }
  }

  lemma {:induction false} ToolsCost(parts: seq<ChatPart>)
    ensures Sum(Costs(ToolPlays(parts))) == ToolCost(parts)
  {
    if parts == [] {
      assert Costs([]) == [];
    } else {
      var front, p := parts[..|parts| - 1], parts[|parts| - 1];
      ToolsCost(front);
      if p.kind == ToolPart {
        ToolArgs(p);
        CostsAppend(ToolPlays(front), ToolPlay(p));
      } else {
        assert ToolPlays(parts) == ToolPlays(front);
      }
    }
  }

  lemma {:induction false} ToolsDistinct(codec: Codec, parts: seq<ChatPart>)
    requires AllCallable(codec, parts) && DistinctCalls(parts)
    ensures DistinctIds(ToolPlays(parts))
    ensures forall i :: 0 <= i < |ToolPlays(parts)| ==> CallIdIn(parts, ToolPlays(parts)[i].start.id)
  {
    if parts != [] {
      var front, p := parts[..|parts| - 1], parts[|parts| - 1];
      ToolsDistinct(codec, front);
      assert parts == front + [p];
      CallIdStays(front, p);
      if p.kind == ToolPart {
        assert Callable(codec, p);
        NewCallId(parts);
        ToolDistinct(ToolPlays(front), p, front, parts);
      } else {
        assert ToolPlays(parts) == ToolPlays(front);
      }
    }
  }

  lemma CallIdStays(front: seq<ChatPart>, p: ChatPart)
    ensures forall id :: CallIdIn(front, id) ==> CallIdIn(front + [p], id)
    ensures p.kind == ToolPart ==> CallIdIn(front + [p], p.callId)
  {
    var parts := front + [p];
    assert parts[|front|] == p;
    forall id | CallIdIn(front, id) ensures CallIdIn(parts, id) {
      var i :| 0 <= i < |front| && front[i].kind == ToolPart && front[i].callId == id;
      assert parts[i] == front[i];
    }
  }

  lemma ToolDistinct(plays: seq<Play>, p: ChatPart, front: seq<ChatPart>, parts: seq<ChatPart>)
    requires DistinctIds(plays) && forall i :: 0 <= i < |plays| ==> CallIdIn(front, plays[i].start.id)
    requires !CallIdIn(front, p.callId) && CallIdIn(parts, p.callId)
    requires forall id :: CallIdIn(front, id) ==> CallIdIn(parts, id)
    ensures DistinctIds(plays + [ToolPlay(p)])
    ensures forall i :: 0 <= i < |plays| + 1 ==> CallIdIn(parts, (plays + [ToolPlay(p)])[i].start.id)
  {
  }

  lemma {:induction false} CostsConcat(a: seq<Play>, b: seq<Play>)
    ensures Sum(Costs(a + b)) == Sum(Costs(a)) + Sum(Costs(b))
  {
    if b == [] {
      assert a + b == a && Costs([]) == [];
    } else {
      var front, p := b[..|b| - 1], b[|b| - 1];
      CostsConcat(a, front);
      Regroup(a, front, [p]);
      assert b == front + [p];
      CostsAppend(a + front, p);
      CostsAppend(front, p);
    }
  }

  lemma TogetherPlayable(cfg: A.Config, texts: seq<Play>, tools: seq<Play>)
    requires EachPlayable(cfg, texts) && EachPlayable(cfg, tools) && NoTools(texts) && DistinctIds(tools)
    ensures AllPlayable(cfg, texts + tools) <==> WithinLimits(|texts| + |tools|, Sum(Costs(texts + tools)))
  {
    var all := texts + tools;
    forall i, k | 0 <= i < k < |all| && all[i].start.kind == A.ToolBlock && all[k].start.kind == A.ToolBlock
      ensures all[i].start.id != all[k].start.id
    {
      assert all[i] == tools[i - |texts|] && all[k] == tools[k - |texts|];
    }
  }

  lemma NewCallId(parts: seq<ChatPart>)
    requires parts != [] && DistinctCalls(parts) && parts[|parts| - 1].callId != ""
    ensures !CallIdIn(parts[..|parts| - 1], parts[|parts| - 1].callId)
  {
    var n := |parts| - 1;
    forall i | 0 <= i < n ensures parts[..n][i].callId != parts[n].callId {
      assert parts[i].callId != "" ==> parts[i].callId != parts[n].callId;
    }
  }

  lemma GroupPlayable(cfg: A.Config, log: seq<Piece>)
    requires TextKinds(log)
    ensures EachPlayable(cfg, Group(log)) && NoTools(Group(log)) && Sum(Costs(Group(log))) == TextTotal(log)
  {
    GroupIsText(log);
    forall i | 0 <= i < |Group(log)| ensures Playable(cfg, Group(log)[i]) && Group(log)[i].start.kind != A.ToolBlock {
      TextPlayable(cfg, Group(log)[i], if TextPlay(Group(log)[i], A.TextDelta) then A.TextDelta else A.ThinkingDelta);
    }
  }

  lemma LogKinds(h: History)
    requires Growing(h)
    ensures TextKinds(Log(h))
  {
    EverythingSent(h);
    forall k | 0 <= k < |Log(h)| ensures Log(h)[k].kind == A.TextDelta || Log(h)[k].kind == A.ThinkingDelta {
      assert PieceFits(Log(h)[k], LastParts(h), |EmitterAfter(h).sent|);
    }
  }

  /** Pieces of text and thinking, and callable tools with distinct identities. */
  predicate Tellable(cfg: A.Config, log: seq<Piece>, parts: seq<ChatPart>) {
    cfg.custom == {} && TextKinds(log) && AllCallable(cfg.codec, parts) && DistinctCalls(parts) && PartsOk(parts)
  }

  lemma TextBlocks(cfg: A.Config, log: seq<Piece>, texts: seq<Play>)
    requires TextKinds(log) && texts == Group(log)
    ensures EachPlayable(cfg, texts) && NoTools(texts) && Sum(Costs(texts)) == TextTotal(log)
  {
    GroupPlayable(cfg, log);
  }

  lemma ToolBlocks(cfg: A.Config, parts: seq<ChatPart>, tools: seq<Play>)
    requires cfg.custom == {} && AllCallable(cfg.codec, parts) && DistinctCalls(parts) && PartsOk(parts)
      && tools == ToolPlays(parts)
    ensures EachPlayable(cfg, tools) && DistinctIds(tools) && Sum(Costs(tools)) == ToolCost(parts)
      && |tools| == ToolCount(parts)
  {
    ToolsPlayable(cfg, parts);
    ToolsDistinct(cfg.codec, parts);
    ToolsCost(parts);
    ToolPlaysCount(parts);
  }

  lemma TogetherAccepted(cfg: A.Config, id: string, texts: seq<Play>, tools: seq<Play>, reason: A.StopReason,
      trace: seq<Event>, count: nat, size: int)
    requires EachPlayable(cfg, texts) && EachPlayable(cfg, tools) && NoTools(texts) && DistinctIds(tools)
    requires GoodId(id) && A.MapStop(reason).Some? && trace == Whole(id, texts + tools, reason)
    requires count == |texts| + |tools| && size == Sum(Costs(texts + tools))
    ensures A.Accepts(cfg, trace) <==> WithinLimits(count, size)
  {
    TogetherPlayable(cfg, texts, tools);
    WholePlays(cfg, id, texts + tools, reason);
  }

  lemma {:induction false} ToolPlaysCount(parts: seq<ChatPart>)
    ensures |ToolPlays(parts)| == ToolCount(parts)
  {
    if parts != [] {
      ToolPlaysCount(parts[..|parts| - 1]);
    }
  }

  lemma TogetherSums(cfg: A.Config, log: seq<Piece>, parts: seq<ChatPart>, texts: seq<Play>, tools: seq<Play>)
    requires Tellable(cfg, log, parts) && texts == Group(log) && tools == ToolPlays(parts)
    ensures EachPlayable(cfg, texts) && EachPlayable(cfg, tools) && NoTools(texts) && DistinctIds(tools)
    ensures |tools| == ToolCount(parts) && Sum(Costs(texts + tools)) == TextTotal(log) + ToolCost(parts)
  {
    TextBlocks(cfg, log, texts);
    ToolBlocks(cfg, parts, tools);
    CostsConcat(texts, tools);
  }

  /** A trace of grouped pieces and callable tools is accepted exactly within the limits. */
  lemma TraceAccepted(cfg: A.Config, id: string, log: seq<Piece>, parts: seq<ChatPart>, texts: seq<Play>,
      tools: seq<Play>, reason: A.StopReason, trace: seq<Event>, count: nat, size: int)
    requires Tellable(cfg, log, parts) && GoodId(id) && A.MapStop(reason).Some?
    requires texts == Group(log) && tools == ToolPlays(parts) && trace == Whole(id, texts + tools, reason)
    requires count == |texts| + ToolCount(parts) && size == TextTotal(log) + ToolCost(parts)
    ensures A.Accepts(cfg, trace) <==> WithinLimits(count, size)
  {
    TogetherSums(cfg, log, parts, texts, tools);
    TogetherAccepted(cfg, id, texts, tools, reason, trace, count, size);
  }

  /** The trace of a finished run. */
  function Trace(id: string, h: History, reason: A.StopReason): seq<Event> {
    EventsOf(id, h) + Closing(EmitterAfter(h).(started := true), LastParts(h), reason)
  }

  /** What holds of a run that `finish` accepts. */
  ghost predicate Runnable(codec: Codec, id: string, h: History, reason: A.StopReason) {
    && h != [] && Growing(h) && AllCallable(codec, LastParts(h)) && DistinctCalls(LastParts(h))
    && GoodId(id) && A.MapStop(reason).Some?
  }

  lemma TraceForm(id: string, h: History, texts: seq<Play>, tools: seq<Play>, reason: A.StopReason, trace: seq<Event>)
    requires h != [] && trace == Trace(id, h, reason) && texts == Group(Log(h)) && tools == ToolPlays(LastParts(h))
    ensures trace == Whole(id, texts + tools, reason)
  {
    TraceIsWhole(id, h, LastParts(h), reason);
  }

  lemma RunnableTells(cfg: A.Config, id: string, h: History, log: seq<Piece>, parts: seq<ChatPart>,
      reason: A.StopReason)
    requires cfg.custom == {} && Runnable(cfg.codec, id, h, reason) && log == Log(h) && parts == LastParts(h)
    ensures Tellable(cfg, log, parts) && GoodId(id) && A.MapStop(reason).Some?
  {
    LogKinds(h);
  }

  /** The native stream converter accepts a finished trace exactly when its blocks number at most 4096 and its size is
      within the stream limit; identities, order and tool inputs are never the reason for a refusal. */
  lemma NativeAccepts(cfg: A.Config, id: string, h: History, log: seq<Piece>, parts: seq<ChatPart>, texts: seq<Play>,
      tools: seq<Play>, reason: A.StopReason, trace: seq<Event>, count: nat, size: int)
    requires cfg.custom == {} && Runnable(cfg.codec, id, h, reason) && trace == Trace(id, h, reason)
    requires log == Log(h) && parts == LastParts(h) && texts == Group(log) && tools == ToolPlays(parts)
    requires count == |texts| + ToolCount(parts) && size == TextTotal(log) + ToolCost(parts)
    ensures A.Accepts(cfg, trace) <==> WithinLimits(count, size)
  {
    TraceForm(id, h, texts, tools, reason, trace);
    RunnableTells(cfg, id, h, log, parts, reason);
    TraceAccepted(cfg, id, log, parts, texts, tools, reason, trace, count, size);
  }

  /** Where every tool has arguments, an upstream within the size limit never makes the trace too long. */
  lemma SizeSuffices(codec: Codec, u: Upstream, h: History)
    requires WellFormed(u) && Growing(h) && LastParts(h) == u.parts && AllCallable(codec, u.parts)
    requires forall i :: 0 <= i < |u.parts| && u.parts[i].kind == ToolPart ==> u.parts[i].arguments != ""
    ensures TextTotal(Log(h)) + ToolCost(u.parts) <= MAX_STREAM
  {
    TotalIsTexts(h);
    CostWithinWeight(codec, u.parts);
  }

  // ---- What the client of the second conversion has -------------------------------------------------------

  function CallsOf(parts: seq<ChatPart>): seq<ToolCall> {
    if parts == [] then []
    else
      var p := parts[|parts| - 1];
      CallsOf(parts[..|parts| - 1]) +
      if p.kind == ToolPart then [ToolCall(p.callId, false, p.name, RawInput(p))] else []
  }

  lemma PlayedSnoc(plays: seq<Play>, p: Play)
    ensures PlayedAll(plays + [p]) == PlayedAll(plays) + [Played(p)]
  {
  }

  lemma PlayedDelta(p: Play, d: A.BlockDelta)
    ensures Played(p.(deltas := p.deltas + [d])) == G.SpellDelta(Played(p), d)
  {
    assert (p.deltas + [d])[..|p.deltas|] == p.deltas;
  }

  lemma PlayedFirst(b: A.Block, d: A.BlockDelta)
    ensures Played(Play(b, [d])) == G.SpellDelta(G.Part(b, "", true), d)
  {
    assert [] + [d] == [d];
    PlayedDelta(Play(b, []), d);
  }

  lemma {:induction false} PlayedKind(p: Play)
    ensures Played(p).block.kind == p.start.kind
  {
    SpellingKind(G.Part(p.start, "", false), p.deltas);
  }

  lemma {:induction false} SpellingKind(b: G.Part, deltas: seq<A.BlockDelta>)
    ensures Spelling(b, deltas).block.kind == b.block.kind
  {
    if deltas != [] {
      SpellingKind(b, deltas[..|deltas| - 1]);
    }
  }

  predicate Gains(cfg: A.Config, before: seq<G.Part>, after: seq<G.Part>, x: Piece) {
    && G.SentTexts(after) == G.SentTexts(before) + (if x.kind == A.TextDelta then x.text else "")
    && G.SentThoughts(after) == G.SentThoughts(before) + (if x.kind == A.ThinkingDelta then x.text else "")
    && G.SentCalls(cfg, after) == G.SentCalls(cfg, before)
  }

  /** A fragment more in the last block. */
  lemma LastGains(cfg: A.Config, front: seq<Play>, q: Play, x: Piece)
    requires TextPlay(q, x.kind)
    ensures Gains(cfg, PlayedAll(front + [q]),
        PlayedAll(front + [q.(deltas := q.deltas + [Fragment(x.kind, x.text)])]), x)
  {
    var d := Fragment(x.kind, x.text);
    PlayedSnoc(front, q);
    PlayedSnoc(front, q.(deltas := q.deltas + [d]));
    PlayedDelta(q, d);
    PlayedKind(q);
    G.SentAppend(cfg, PlayedAll(front), Played(q));
    G.SentAppend(cfg, PlayedAll(front), G.SpellDelta(Played(q), d));
  }

  /** Adding a piece to the blocks adds its text to what the client has. */
  lemma ExtendedGains(cfg: A.Config, plays: seq<Play>, x: Piece, same: bool)
    requires x.kind == A.TextDelta || x.kind == A.ThinkingDelta
    requires same && plays != [] ==> TextPlay(plays[|plays| - 1], x.kind)
    ensures Gains(cfg, PlayedAll(plays), PlayedAll(Extended(plays, x, same)), x)
  {
    var d := Fragment(x.kind, x.text);
    if same && plays != [] {
      var n := |plays| - 1;
      assert plays == plays[..n] + [plays[n]];
      assert Extended(plays, x, same) == plays[..n] + [plays[n].(deltas := plays[n].deltas + [d])];
      LastGains(cfg, plays[..n], plays[n], x);
    } else {
      PlayedSnoc(plays, Play(EmptyBlock(x.kind), [d]));
      PlayedFirst(EmptyBlock(x.kind), d);
      G.SentAppend(cfg, PlayedAll(plays), Played(Play(EmptyBlock(x.kind), [d])));
    }
  }

  lemma {:induction false} GroupTells(cfg: A.Config, log: seq<Piece>)
    requires TextKinds(log)
    ensures G.ClientHas(cfg, PlayedAll(Group(log))) ==
      Message(LogText(log, A.TextDelta), LogText(log, A.ThinkingDelta), "", [], None)
  {
    if log == [] {
      assert PlayedAll([]) == [];
    } else {
      var front, x := log[..|log| - 1], log[|log| - 1];
      assert log == front + [x];
      GroupTells(cfg, front);
      GroupIsText(front);
      GroupSnoc(front, x);
      ExtendedGains(cfg, Group(front), x, LastKind(front) == Some(x.kind));
    }
  }

  lemma ToolTells(cfg: A.Config, p: ChatPart)
    requires cfg.custom == {}
    ensures Played(ToolPlay(p)).block.kind == A.ToolBlock && Played(ToolPlay(p)).block.id == p.callId
    ensures Played(ToolPlay(p)).block.name == p.name
    ensures G.Sent(cfg, Played(ToolPlay(p))) == RawInput(p)
  {
    PlayedFirst(ToolPlay(p).start, ToolPlay(p).deltas[0]);
    assert ToolPlay(p) == Play(ToolPlay(p).start, [ToolPlay(p).deltas[0]]);
  }

  lemma {:induction false} ToolsTell(cfg: A.Config, plays: seq<Play>, parts: seq<ChatPart>)
    requires cfg.custom == {}
    ensures var c := G.ClientHas(cfg, PlayedAll(plays));
      G.ClientHas(cfg, PlayedAll(plays + ToolPlays(parts))) == c.(tools := c.tools + CallsOf(parts))
  {
    if parts == [] {
      assert plays + [] == plays;
    } else {
      var front, p := parts[..|parts| - 1], parts[|parts| - 1];
      ToolsTell(cfg, plays, front);
      if p.kind == ToolPart {
        Regroup(plays, ToolPlays(front), [ToolPlay(p)]);
        PlayedSnoc(plays + ToolPlays(front), ToolPlay(p));
        ToolTells(cfg, p);
        G.SentAppend(cfg, PlayedAll(plays + ToolPlays(front)), Played(ToolPlay(p)));
        Regroup(G.ClientHas(cfg, PlayedAll(plays)).tools, CallsOf(front),
            [ToolCall(p.callId, false, p.name, RawInput(p))]);
      } else {
        assert ToolPlays(parts) == ToolPlays(front) && CallsOf(parts) == CallsOf(front);
      }
    }
  }

  /** What an accepted trace gives the client: the text and thinking in the order they were sent, every tool with its
      whole input, and the finish reason. */
  lemma ClientReads(cfg: A.Config, id: string, h: History, reason: A.StopReason, trace: seq<Event>)
    requires cfg.custom == {} && Runnable(cfg.codec, id, h, reason) && trace == Trace(id, h, reason)
    requires A.Accepts(cfg, trace)
    ensures ReadAll(EMPTY, A.Output(cfg, trace)) ==
      Message(LogText(Log(h), A.TextDelta), LogText(Log(h), A.ThinkingDelta), "", CallsOf(LastParts(h)),
          A.MapStop(reason))
  {
    var plays := Group(Log(h)) + ToolPlays(LastParts(h));
    TraceIsWhole(id, h, LastParts(h), reason);
    WholeReads(cfg, id, plays, reason, trace);
    LogKinds(h);
    GroupTells(cfg, Log(h));
    ToolsTell(cfg, Group(Log(h)), LastParts(h));
    assert [] + CallsOf(LastParts(h)) == CallsOf(LastParts(h));
  }

  lemma WholeReads(cfg: A.Config, id: string, plays: seq<Play>, reason: A.StopReason, trace: seq<Event>)
    requires trace == Whole(id, plays, reason) && A.Accepts(cfg, trace)
    ensures ReadAll(EMPTY, A.Output(cfg, trace)) == G.ClientHas(cfg, PlayedAll(plays)).(finish := A.MapStop(reason))
  {
    WholePlays(cfg, id, plays, reason);
    WholeSpells(id, plays, reason);
    G.StreamAgrees(cfg, trace);
  }

  // ---- Text by part ---------------------------------------------------------------------------------------

  /** The text of the part of a kind, empty where there is none. */
  function SlotText(parts: seq<ChatPart>, kind: PartKind): string {
    if parts == [] then ""
    else SlotText(parts[..|parts| - 1], kind) + if parts[|parts| - 1].kind == kind then parts[|parts| - 1].text else ""
  }

  predicate OnePart(parts: seq<ChatPart>, kind: PartKind) {
    forall i, k :: 0 <= i < k < |parts| && parts[i].kind == kind ==> parts[k].kind != kind
  }

  predicate Absent(parts: seq<ChatPart>, kind: PartKind) {
    forall i :: 0 <= i < |parts| ==> parts[i].kind != kind
  }

  lemma {:induction false} SlotAbsent(parts: seq<ChatPart>, kind: PartKind)
    requires Absent(parts, kind)
    ensures SlotText(parts, kind) == ""
  {
    if parts != [] {
      SlotAbsent(parts[..|parts| - 1], kind);
    }
  }

  lemma {:induction false} SlotAt(parts: seq<ChatPart>, kind: PartKind, i: nat)
    requires OnePart(parts, kind) && i < |parts| && parts[i].kind == kind
    ensures SlotText(parts, kind) == parts[i].text
  {
    var front, p := parts[..|parts| - 1], parts[|parts| - 1];
    if i < |front| {
      assert parts[i].kind == kind ==> parts[|front|].kind != kind;
      SlotAt(front, kind, i);
    } else {
      SlotAbsent(front, kind);
    }
  }

  /** The only part told as a kind supplies all of that kind's text. */
  lemma {:induction false} OnlySource(log: seq<Piece>, kind: A.DeltaKind, i: nat)
    requires forall k :: 0 <= k < |log| ==> (log[k].kind == kind <==> log[k].part == i)
    ensures LogText(log, kind) == Emitted(log, i)
  {
    if log != [] {
      OnlySource(log[..|log| - 1], kind, i);
    }
  }

  lemma {:induction false} NoSource(log: seq<Piece>, kind: A.DeltaKind)
    requires forall k :: 0 <= k < |log| ==> log[k].kind != kind
    ensures LogText(log, kind) == ""
  {
    if log != [] {
      NoSource(log[..|log| - 1], kind);
    }
  }

  predicate ToldAs(p: ChatPart, kind: A.DeltaKind) {
    p.kind != ToolPart && KindOf(p) == kind
  }

  /** Where at most one part is told as a kind, the text sent as that kind is that part's text. */
  lemma KindText(h: History, kind: A.DeltaKind, slot: PartKind)
    requires Growing(h) && slot != ToolPart && OnePart(LastParts(h), slot)
    requires forall i :: 0 <= i < |LastParts(h)| ==> (ToldAs(LastParts(h)[i], kind) <==> LastParts(h)[i].kind == slot)
    ensures LogText(Log(h), kind) == SlotText(LastParts(h), slot)
  {
    var log, parts := Log(h), LastParts(h);
    EverythingSent(h);
    forall k | 0 <= k < |log|
      ensures log[k].part < |parts| && (log[k].kind == kind <==> parts[log[k].part].kind == slot)
    {
      assert PieceFits(log[k], parts, |EmitterAfter(h).sent|);
      assert ToldAs(parts[log[k].part], log[k].kind);
    }
    if i :| 0 <= i < |parts| && parts[i].kind == slot {
      forall k | 0 <= k < |log| ensures log[k].kind == kind <==> log[k].part == i {
        SamePart(parts, slot, i, log[k].part);
      }
      OnlySource(log, kind, i);
      EachPartSent(h, i);
      SlotAt(parts, slot, i);
    } else {
      NoSource(log, kind);
      SlotAbsent(parts, slot);
    }
  }

  lemma SamePart(parts: seq<ChatPart>, slot: PartKind, i: nat, k: nat)
    requires OnePart(parts, slot) && i < |parts| && k < |parts| && parts[i].kind == slot
    ensures parts[k].kind == slot <==> k == i
  {
  }

  predicate OneOfEach(parts: seq<ChatPart>) {
    OnePart(parts, ReasoningPart) && OnePart(parts, MessagePart) && OnePart(parts, RefusalPart)
  }

  lemma ReasoningBack(h: History, parts: seq<ChatPart>)
    requires Growing(h) && parts == LastParts(h) && OneOfEach(parts)
    ensures LogText(Log(h), A.ThinkingDelta) == SlotText(parts, ReasoningPart)
  {
    KindText(h, A.ThinkingDelta, ReasoningPart);
  }

  lemma ContentBack(h: History, parts: seq<ChatPart>)
    requires Growing(h) && parts == LastParts(h) && OneOfEach(parts)
    ensures Absent(parts, RefusalPart) ==> LogText(Log(h), A.TextDelta) == SlotText(parts, MessagePart)
    ensures Absent(parts, MessagePart) ==> LogText(Log(h), A.TextDelta) == SlotText(parts, RefusalPart)
  {
    if Absent(parts, RefusalPart) {
      KindText(h, A.TextDelta, MessagePart);
    }
    if Absent(parts, MessagePart) {
      KindText(h, A.TextDelta, RefusalPart);
    }
  }

  /** The stop reason maps back to the finish reason, except that a plain stop after tool calls becomes `tool_calls`. */
  lemma FinishBack(finish: Finish, hasTools: bool)
    ensures A.MapStop(Reason(finish, hasTools)) == Some(if finish == Stop && hasTools then ToolCalls else finish)
  {
  }

  /** The client's message is what the upstream sent. */
  predicate SaysTheSame(m: Message, parts: seq<ChatPart>, finish: Finish) {
    && m.reasoning == SlotText(parts, ReasoningPart)
    && (Absent(parts, RefusalPart) ==> m.content == SlotText(parts, MessagePart))
    && (Absent(parts, MessagePart) ==> m.content == SlotText(parts, RefusalPart))
    && m.refusal == "" && m.tools == CallsOf(parts)
    && m.finish == Some(if finish == Stop && ToolCount(parts) > 0 then ToolCalls else finish)
  }

  /** Round trip: the Chat client reads back the upstream's reasoning, its text where it refused nothing (or its refusal
      as text where it said nothing else), its tools, and its finish reason. */
  lemma RoundTrip(cfg: A.Config, id: string, h: History, finish: Finish, trace: seq<Event>)
    requires cfg.custom == {} && Runnable(cfg.codec, id, h, Reason(finish, ToolCount(LastParts(h)) > 0))
      && OneOfEach(LastParts(h))
    requires trace == Trace(id, h, Reason(finish, ToolCount(LastParts(h)) > 0))
    requires A.Accepts(cfg, trace)
    ensures SaysTheSame(ReadAll(EMPTY, A.Output(cfg, trace)), LastParts(h), finish)
  {
    ClientReads(cfg, id, h, Reason(finish, ToolCount(LastParts(h)) > 0), trace);
    FinishBack(finish, ToolCount(LastParts(h)) > 0);
    ReasoningBack(h, LastParts(h));
    ContentBack(h, LastParts(h));
  }
}
