/** What a Messages trace tells, as a matter of the Chat frames alone: the text in the order it is told, how many blocks
    that takes, and an answer the native converter refuses for its number of blocks. */
module MessagesBlocks {
  import opened Outcomes
  import opened ChatWire
  import opened ChatParts
  import opened JsonInput
  import opened MessagesChat
  import opened MessagesLegal
  import opened MessagesRoundTrip
  import opened MessagesRun
  import opened AnthropicPlay
  import A = AnthropicChat

  datatype Utterance = Utterance(kind: A.DeltaKind, text: string)

  function Voice(kind: PartKind): A.DeltaKind {
    if kind == ReasoningPart then A.ThinkingDelta else A.TextDelta
  }

  /** The text kinds in the order in which they first appear. */
  function Appear(order: seq<PartKind>, kind: PartKind, text: string): seq<PartKind> {
    if text == "" || kind in order then order else order + [kind]
  }

  function OrderWith(order: seq<PartKind>, f: Frame): seq<PartKind> {
    if !f.Choice? then order
    else Appear(Appear(Appear(order, ReasoningPart, Thought(f)), MessagePart, f.content), RefusalPart, f.refusal)
  }

  function Order(frames: seq<Frame>): seq<PartKind> {
    if frames == [] then [] else OrderWith(Order(frames[..|frames| - 1]), frames[|frames| - 1])
  }

  /** What a frame says, kinds that appeared earlier first. */
  function Spoken(order: seq<PartKind>, f: Frame): seq<Utterance> {
    if order == [] then []
    else
      var kind := order[|order| - 1];
      Spoken(order[..|order| - 1], f) + if Said(f, kind) == "" then [] else [Utterance(Voice(kind), Said(f, kind))]
  }

  function SpokenAll(frames: seq<Frame>): seq<Utterance> {
    if frames == [] then [] else SpokenAll(frames[..|frames| - 1]) + Spoken(Order(frames), frames[|frames| - 1])
  }

  /** How often the kind of what is said changes, the first time included. */
  function Turns(said: seq<Utterance>): nat {
    if said == [] then 0
    else
      var front, last := said[..|said| - 1], said[|said| - 1];
      Turns(front) + if front != [] && front[|front| - 1].kind == last.kind then 0 else 1
  }

  function TextOf(said: seq<Utterance>, kind: A.DeltaKind): string {
    if said == [] then ""
    else TextOf(said[..|said| - 1], kind) + if said[|said| - 1].kind == kind then said[|said| - 1].text else ""
  }

  function Bare(log: seq<Piece>): seq<Utterance> {
    if log == [] then [] else Bare(log[..|log| - 1]) + [Utterance(log[|log| - 1].kind, log[|log| - 1].text)]
  }

  lemma {:induction false} BareAppend(a: seq<Piece>, b: seq<Piece>)
    ensures Bare(a + b) == Bare(a) + Bare(b)
  {
    if b == [] {
      assert a + b == a;
    } else {
      assert (a + b)[..|a + b| - 1] == a + b[..|b| - 1];
      BareAppend(a, b[..|b| - 1]);
    }
  }

  /** Blocks are turns. */
  lemma {:induction false} GroupTurns(log: seq<Piece>)
    ensures |Group(log)| == Turns(Bare(log)) && |Bare(log)| == |log|
    ensures log != [] ==> Bare(log)[|log| - 1].kind == log[|log| - 1].kind
  {
    if log != [] {
      var front := log[..|log| - 1];
      GroupTurns(front);
      assert Bare(log)[..|front|] == Bare(front);
      if front != [] { GroupNonempty(front); }
    }
  }

  lemma {:induction false} BareText(log: seq<Piece>, kind: A.DeltaKind)
    ensures LogText(log, kind) == TextOf(Bare(log), kind)
  {
    if log != [] {
      BareText(log[..|log| - 1], kind);
      assert Bare(log)[..|Bare(log)| - 1] == Bare(log[..|log| - 1]);
    }
  }

  // ---- The parts appear in the order the frames name their kinds ------------------------------------------

  function TextOrder(parts: seq<ChatPart>): seq<PartKind> {
    if parts == [] then []
    else TextOrder(parts[..|parts| - 1]) + if parts[|parts| - 1].kind == ToolPart then [] else [parts[|parts| - 1].kind]
  }

  lemma {:induction false} OrderUpdate(parts: seq<ChatPart>, i: nat, q: ChatPart)
    requires i < |parts| && q.kind == parts[i].kind
    ensures TextOrder(parts[i := q]) == TextOrder(parts)
  {
    var n := |parts| - 1;
    if i < n {
      assert parts[i := q][..n] == parts[..n][i := q];
      OrderUpdate(parts[..n], i, q);
    } else {
      assert parts[i := q][..n] == parts[..n];
    }
  }

  lemma {:induction false} OrderHas(parts: seq<ChatPart>, kind: PartKind)
    ensures kind in TextOrder(parts) <==> kind != ToolPart && !Absent(parts, kind)
  {
    if parts != [] {
      var n := |parts| - 1;
      OrderHas(parts[..n], kind);
      assert Absent(parts, kind) <==> Absent(parts[..n], kind) && parts[n].kind != kind;
    }
  }

  lemma AppendOrder(u: Upstream, kind: PartKind, value: string)
    requires Shaped(u) && kind != ToolPart
    ensures TextOrder(AppendText(u, kind, value).parts) == Appear(TextOrder(u.parts), kind, value)
  {
    OrderHas(u.parts, kind);
    if value != "" {
      if kind in u.slots {
        var i := u.slots[kind];
        assert u.parts[i].kind == kind;
        OrderUpdate(u.parts, i, u.parts[i].(text := u.parts[i].text + value));
      } else {
        assert Absent(u.parts, kind);
        assert (u.parts + [ChatPart(kind, value, "", "", "")])[..|u.parts|] == u.parts;
      }
    }
  }

  lemma TextsOrder(u: Upstream, f: Frame)
    requires Shaped(u) && f.Choice?
    ensures TextOrder(Texts(u, f).parts) == OrderWith(TextOrder(u.parts), f)
  {
    TextsShaped(u, f);
    var a := AppendText(u, ReasoningPart, Thought(f));
    AppendOrder(u, ReasoningPart, Thought(f));
    AppendOrder(a, MessagePart, f.content);
    AppendOrder(AppendText(a, MessagePart, f.content), RefusalPart, f.refusal);
  }

  lemma AddCallOrder(u: Upstream, index: int, call: CallDelta)
    requires Shaped(u) && AddCall(u, index, call).Ok?
    ensures TextOrder(AddCall(u, index, call).value.parts) == TextOrder(u.parts)
  {
    LocatedShaped(u, index);
    var l := Located(u, index);
    if index !in u.tools {
      assert (u.parts + [ChatPart(ToolPart, "", "", "", "")])[..|u.parts|] == u.parts;
    }
    OrderUpdate(l.parts, l.tools[index], AddCall(u, index, call).value.parts[l.tools[index]]);
  }

  lemma {:induction false} AddCallsOrder(u: Upstream, calls: seq<CallDelta>)
    requires Shaped(u) && AddCalls(u, calls, true).Ok?
    ensures Shaped(AddCalls(u, calls, true).value)
      && TextOrder(AddCalls(u, calls, true).value.parts) == TextOrder(u.parts)
  {
    if calls != [] {
      var v, last := AddCalls(u, calls[..|calls| - 1], true).value, calls[|calls| - 1];
      AddCallsOrder(u, calls[..|calls| - 1]);
      AddCallOrder(v, last.index, last);
      CallShaped(v, last.index, last);
    }
  }

  lemma ObserveOrder(u: Upstream, f: Frame, v: Upstream)
    requires WellFormed(u) && Observe(u, f, true) == Ok(v)
    ensures TextOrder(v.parts) == OrderWith(TextOrder(u.parts), f)
  {
    ObserveForm(u, f, v);
    if f.Choice? {
      BeforeShaped(u, f);
      TextsOrder(Named(u, f), f);
      AddCallsOrder(BeforeCalls(u, f), f.calls);
    }
  }

  lemma {:induction false} PartsInOrder(frames: seq<Frame>, u: Upstream)
    requires UpAfter(frames) == Ok(u)
    ensures TextOrder(u.parts) == Order(frames)
  {
    if frames != [] {
      var v := UpLast(frames, u);
      PartsInOrder(frames[..|frames| - 1], v);
      ObserveOrder(v, frames[|frames| - 1], u);
    }
  }

  // ---- What one frame sends -------------------------------------------------------------------------------

  function SentOf(e: Emitter, i: nat): nat {
    if i < |e.sent| then e.sent[i] else 0
  }

  /** What the emitter has not sent of a text part is what the frame said of its kind. */
  predicate Gains(e: Emitter, f: Frame, i: nat, p: ChatPart) {
    p.kind != ToolPart ==> SentOf(e, i) <= |p.text| && p.text[SentOf(e, i)..] == Said(f, p.kind)
  }

  lemma {:induction false} LaterUnsent(e: Emitter, parts: seq<ChatPart>, i: nat)
    requires |parts| <= i
    ensures SentOf(EmitParts(e, parts).0, i) == SentOf(e, i)
    ensures |EmitParts(e, parts).0.sent| == if |parts| > |e.sent| then |parts| else |e.sent|
  {
    if parts != [] {
      var n := |parts| - 1;
      LaterUnsent(e, parts[..n], i);
      LaterUnsent(e, parts[..n], n);
      EmitPartForm(EmitParts(e, parts[..n]).0, n, parts[n]);
    }
  }

  lemma PieceSpoken(e: Emitter, f: Frame, i: nat, p: ChatPart)
    requires i <= |e.sent| && Gains(e, f, i, p)
    ensures Bare(PieceOf(e, i, p)) ==
      if p.kind == ToolPart || Said(f, p.kind) == "" then [] else [Utterance(Voice(p.kind), Said(f, p.kind))]
  {
    if Unsent(e, i, p) {
      var x := PieceOf(e, i, p)[0];
      assert PieceOf(e, i, p) == [x] && [x][..0] == [];
      assert Bare([x]) == Bare([]) + [Utterance(x.kind, x.text)];
    }
  }

  lemma SpokenNext(order: seq<PartKind>, f: Frame, kind: PartKind)
    ensures Spoken(order + [kind], f) ==
      Spoken(order, f) + if Said(f, kind) == "" then [] else [Utterance(Voice(kind), Said(f, kind))]
  {
    assert (order + [kind])[..|order|] == order;
  }

  lemma PieceAdds(e: Emitter, f: Frame, n: nat, p: ChatPart, order: seq<PartKind>, pieces: seq<Piece>)
    requires n <= |e.sent| && Gains(e, f, n, p) && Bare(pieces) == Spoken(order, f)
    ensures Bare(pieces + PieceOf(e, n, p)) == Spoken(order + (if p.kind == ToolPart then [] else [p.kind]), f)
  {
    PieceSpoken(e, f, n, p);
    BareAppend(pieces, PieceOf(e, n, p));
    if p.kind == ToolPart {
      assert order + [] == order && Bare(pieces) + [] == Bare(pieces);
    } else {
      SpokenNext(order, f, p.kind);
    }
  }

  lemma {:induction false} PiecesSpoken(e: Emitter, f: Frame, parts: seq<ChatPart>)
    requires forall i :: 0 <= i < |parts| ==> Gains(e, f, i, parts[i])
    ensures Bare(PiecesOf(e, parts)) == Spoken(TextOrder(parts), f)
  {
    if parts != [] {
      var n := |parts| - 1;
      var front, p := parts[..n], parts[n];
      forall i | 0 <= i < n ensures Gains(e, f, i, front[i]) {
        assert Gains(e, f, i, parts[i]);
      }
      PiecesSpoken(e, f, front);
      LaterUnsent(e, front, n);
      LaterGains(e, EmitParts(e, front).0, f, n, p);
      PieceAdds(EmitParts(e, front).0, f, n, p, TextOrder(front), PiecesOf(e, front));
      PiecesForm(e, parts, EmitParts(e, front).0);
    }
  }

  lemma LaterGains(e: Emitter, g: Emitter, f: Frame, n: nat, p: ChatPart)
    requires Gains(e, f, n, p) && SentOf(g, n) == SentOf(e, n)
    ensures Gains(g, f, n, p)
  {
  }

  lemma PiecesForm(e: Emitter, parts: seq<ChatPart>, g: Emitter)
    requires parts != [] && g == EmitParts(e, parts[..|parts| - 1]).0
    ensures PiecesOf(e, parts) == PiecesOf(e, parts[..|parts| - 1]) + PieceOf(g, |parts| - 1, parts[|parts| - 1])
    ensures TextOrder(parts) ==
      TextOrder(parts[..|parts| - 1]) + if parts[|parts| - 1].kind == ToolPart then [] else [parts[|parts| - 1].kind]
  {
  }

  lemma TextGains(v: seq<ChatPart>, u: seq<ChatPart>, i: nat, said: string)
    requires Grows(v, u) && i < |u| && u[i].kind != ToolPart && OnePart(u, u[i].kind) && OnePart(v, u[i].kind)
    requires SlotText(u, u[i].kind) == SlotText(v, u[i].kind) + said
    ensures var from := if i < |v| then |v[i].text| else 0; from <= |u[i].text| && u[i].text[from..] == said
  {
    SlotAt(u, u[i].kind, i);
    if i < |v| {
      assert GrowsPart(v[i], u[i]);
      SlotAt(v, u[i].kind, i);
    } else {
      forall k | 0 <= k < |v| ensures v[k].kind != u[i].kind {
        assert GrowsPart(v[k], u[k]);
      }
      SlotAbsent(v, u[i].kind);
      assert "" + said == said && u[i].text[0..] == u[i].text;
    }
  }

  predicate AllSent(e: Emitter, parts: seq<ChatPart>) {
    |e.sent| == |parts| && forall i :: 0 <= i < |parts| ==> e.sent[i] == |parts[i].text|
  }

  lemma FrameGains(e: Emitter, v: Upstream, f: Frame, u: Upstream)
    requires WellFormed(v) && Observe(v, f, true) == Ok(u) && AllSent(e, v.parts)
    ensures forall i :: 0 <= i < |u.parts| ==> Gains(e, f, i, u.parts[i])
  {
    ObserveKeeps(v, f, true);
    forall i | 0 <= i < |u.parts| ensures Gains(e, f, i, u.parts[i]) {
      var kind := u.parts[i].kind;
      if kind != ToolPart {
        KindOnce(u, kind);
        KindOnce(v, kind);
        ObserveSays(v, f, u, kind);
        TextGains(v.parts, u.parts, i, Said(f, kind));
      }
    }
  }

  lemma EverySent(h: History, e: Emitter)
    requires Growing(h) && e.sent == EmitterAfter(h).sent
    ensures AllSent(e, LastParts(h))
  {
    EverythingSent(h);
    var n := |e.sent|;
    if n > 0 { assert SentPart(EmitterAfter(h), LastParts(h), Log(h), n - 1); }
  }

  /** Main result: what a run tells is what its frames say, frame by frame, kinds that appeared earlier first. */
  lemma {:induction false} RunSpeaks(frames: seq<Frame>, u: Upstream)
    requires UpAfter(frames) == Ok(u)
    ensures Bare(Log(HistoryOf(frames))) == SpokenAll(frames)
  {
    if frames != [] {
      var front, f := frames[..|frames| - 1], frames[|frames| - 1];
      var v := UpLast(frames, u);
      RunSpeaks(front, v);
      HistoryGrows(front, v);
      var h := HistoryOf(front);
      var e := EmitterAfter(h).(started := true);
      EverySent(h, e);
      FrameGains(e, v, f, u);
      PiecesSpoken(e, f, u.parts);
      PartsInOrder(frames, u);
      LogSnoc(h, u.parts);
      BareAppend(Log(h), PiecesOf(e, u.parts));
    }
  }

  lemma LogSnoc(h: History, parts: seq<ChatPart>)
    ensures Log(h + [parts]) == Log(h) + PiecesOf(EmitterAfter(h).(started := true), parts)
  {
    assert (h + [parts])[..|h|] == h;
  }

  /** A run's text blocks number its turns. */
  lemma BlocksAreTurns(frames: seq<Frame>, u: Upstream)
    requires UpAfter(frames) == Ok(u)
    ensures |Group(Log(HistoryOf(frames)))| == Turns(SpokenAll(frames))
  {
    RunSpeaks(frames, u);
    GroupTurns(Log(HistoryOf(frames)));
  }

  /** Whatever an answer holds, a refusal beside text included, the client reads back what the frames said, in the order
      they were told. */
  lemma EveryRunReadsAsSaid(cfg: A.Config, id: string, frames: seq<Frame>, b: Bridge, events: seq<Event>,
      ending: Ending, trace: seq<Event>)
    requires cfg.custom == {} && Complete(cfg.codec, id, frames, b, events, ending) && GoodId(id)
      && trace == events + ending.events
    requires A.Accepts(cfg, trace)
    ensures var m := ReadAll(EMPTY, A.Output(cfg, trace));
      m.content == TextOf(SpokenAll(frames), A.TextDelta) && m.reasoning == TextOf(SpokenAll(frames), A.ThinkingDelta)
  {
    var h := HistoryOf(frames);
    EveryRunIsRunnable(cfg, id, frames, h, b, events, ending);
    ClientReads(cfg, id, h, ending.reason, trace);
    RunIsHistory(id, frames, b, events);
    RunSpeaks(frames, b.up);
    BareText(Log(h), A.TextDelta);
    BareText(Log(h), A.ThinkingDelta);
  }

  // ---- An answer with too many blocks ---------------------------------------------------------------------

  function Say(reasoning: string, content: string, finish: FinishField): Frame {
    Choice("", 0, content, reasoning, "", "", [], finish)
  }

  function FrameOf(n: nat): Frame {
    if n % 2 == 1 then Say("r", "", NoFinishField) else Say("", "c", NoFinishField)
  }

  /** Reasoning and text by turns, one character a frame. */
  function Alternating(n: nat): seq<Frame> {
    if n == 0 then []
    else Alternating(n - 1) + [FrameOf(n)]
  }

  function Answer(n: nat): seq<Frame> {
    Alternating(n) + [Say("", "", Known(Stop))]
  }

  /** Where the upstream is after `n` of those frames. */
  predicate Alternated(u: Upstream, n: nat) {
    && u.id == "" && u.size == n && u.tools == map[] && u.finish == None
    && |u.parts| == (if n > 2 then 2 else n)
    && (n >= 1 ==> ReasoningPart in u.slots && u.slots[ReasoningPart] < |u.parts|)
    && (n >= 2 ==> MessagePart in u.slots && u.slots[MessagePart] < |u.parts|)
    && (forall i :: 0 <= i < |u.parts| ==> u.parts[i].kind != ToolPart)
    && (n == 0 ==> u == EMPTY_UPSTREAM) && (n == 1 ==> MessagePart !in u.slots)
  }

  lemma SayStep(u: Upstream, f: Frame, n: nat)
    requires Alternated(u, n) && n < MAX_STREAM && f == FrameOf(n + 1)
    ensures Observe(u, f, true).Ok? && Alternated(Observe(u, f, true).value, n + 1)
  {
    assert |"r"| == 1 && |"c"| == 1;
  }

  lemma UpSnoc(frames: seq<Frame>, f: Frame)
    ensures UpAfter(frames + [f]) == match UpAfter(frames) case Err(e) => Err(e) case Ok(u) => Observe(u, f, true)
  {
    assert (frames + [f])[..|frames|] == frames;
  }

  predicate Reached(frames: seq<Frame>, n: nat) {
    UpAfter(frames).Ok? && Alternated(UpAfter(frames).value, n)
  }

  lemma ReachedNext(frames: seq<Frame>, f: Frame, n: nat)
    requires Reached(frames, n) && n < MAX_STREAM && f == FrameOf(n + 1)
    ensures Reached(frames + [f], n + 1)
  {
    SayStep(UpAfter(frames).value, f, n);
    UpSnoc(frames, f);
  }

  lemma {:induction false} AlternatingAccepted(n: nat)
    requires n <= MAX_STREAM
    ensures Reached(Alternating(n), n)
  {
    if n > 0 {
      AlternatingAccepted(n - 1);
      ReachedNext(Alternating(n - 1), FrameOf(n), n - 1);
    }
  }

  lemma {:induction false} TellsWhatIsObserved(id: string, frames: seq<Frame>)
    requires UpAfter(frames).Ok?
    ensures TellAll(id, frames, true).Ok? && TellAll(id, frames, true).value.0.up == UpAfter(frames).value
  {
    if frames != [] {
      TellsWhatIsObserved(id, frames[..|frames| - 1]);
    }
  }

  function OrderOf(n: nat): seq<PartKind> {
    if n == 0 then [] else if n == 1 then [ReasoningPart] else [ReasoningPart, MessagePart]
  }

  function UtteranceOf(n: nat): Utterance {
    if n % 2 == 1 then Utterance(A.ThinkingDelta, "r") else Utterance(A.TextDelta, "c")
  }

  lemma SpokenSnoc(frames: seq<Frame>, f: Frame, order: seq<PartKind>)
    requires order == OrderWith(Order(frames), f)
    ensures Order(frames + [f]) == order && SpokenAll(frames + [f]) == SpokenAll(frames) + Spoken(order, f)
  {
    assert (frames + [f])[..|frames|] == frames;
  }

  lemma TurnsSnoc(said: seq<Utterance>, x: Utterance)
    ensures Turns(said + [x]) == Turns(said) + if said != [] && said[|said| - 1].kind == x.kind then 0 else 1
  {
    assert (said + [x])[..|said|] == said;
  }

  predicate TakesTurns(said: seq<Utterance>, n: nat) {
    Turns(said) == n == |said| && (n > 0 ==> said[n - 1] == UtteranceOf(n))
  }

  predicate Speaks(frames: seq<Frame>, n: nat) {
    Order(frames) == OrderOf(n) && TakesTurns(SpokenAll(frames), n)
  }

  lemma TakesNext(said: seq<Utterance>, n: nat)
    requires n > 0 && TakesTurns(said, n - 1)
    ensures TakesTurns(said + [UtteranceOf(n)], n)
  {
    TurnsSnoc(said, UtteranceOf(n));
    if n > 1 {
      assert UtteranceOf(n).kind != UtteranceOf(n - 1).kind;
    }
  }

  lemma SpeaksNext(frames: seq<Frame>, f: Frame, n: nat, order: seq<PartKind>, x: Utterance)
    requires n > 0 && Speaks(frames, n - 1) && f == FrameOf(n) && order == OrderOf(n) && x == UtteranceOf(n)
    ensures Speaks(frames + [f], n)
  {
    OneUtterance(f, n);
    SpokenSnoc(frames, f, order);
    TakesNext(SpokenAll(frames), n);
  }

  lemma {:induction false} AlternatingTurns(n: nat)
    ensures Speaks(Alternating(n), n)
  {
    if n > 0 {
      AlternatingTurns(n - 1);
      SpeaksNext(Alternating(n - 1), FrameOf(n), n, OrderOf(n), UtteranceOf(n));
    }
  }

  lemma OneUtterance(f: Frame, n: nat)
    requires n > 0 && f == FrameOf(n)
    ensures OrderWith(OrderOf(n - 1), f) == OrderOf(n) && Spoken(OrderOf(n), f) == [UtteranceOf(n)]
  {
    UtteranceOrder(f, n);
    SpokenFirst(f);
    SpokenBoth(f);
    assert [] + [UtteranceOf(n)] == [UtteranceOf(n)];
  }

  lemma UtteranceOrder(f: Frame, n: nat)
    requires n > 0 && f == FrameOf(n)
    ensures OrderWith(OrderOf(n - 1), f) == OrderOf(n)
  {
    assert [ReasoningPart] + [MessagePart] == [ReasoningPart, MessagePart];
  }

  lemma SpokenFirst(f: Frame)
    requires f.Choice?
    ensures Spoken([ReasoningPart], f) == if Thought(f) == "" then [] else [Utterance(A.ThinkingDelta, Thought(f))]
  {
    var none: seq<PartKind> := [];
    assert none + [ReasoningPart] == [ReasoningPart];
    SpokenNext(none, f, ReasoningPart);
  }

  lemma SpokenBoth(f: Frame)
    requires f.Choice?
    ensures Spoken([ReasoningPart, MessagePart], f) ==
      Spoken([ReasoningPart], f) + if f.content == "" then [] else [Utterance(A.TextDelta, f.content)]
  {
    assert [ReasoningPart] + [MessagePart] == [ReasoningPart, MessagePart];
    SpokenNext([ReasoningPart], f, MessagePart);
  }

  lemma LastSilent(frames: seq<Frame>, last: Frame, order: seq<PartKind>)
    requires order == OrderWith(Order(frames), last) && forall kind :: Said(last, kind) == ""
    ensures SpokenAll(frames + [last]) == SpokenAll(frames)
  {
    SpokenSnoc(frames, last, order);
    NothingSpoken(order, last);
  }

  lemma AnswerTurns(n: nat, frames: seq<Frame>, said: seq<Utterance>)
    requires frames == Alternating(n) && said == SpokenAll(frames)
    ensures SpokenAll(Answer(n)) == said && Turns(said) == n
  {
    AlternatingTurns(n);
    LastSilent(frames, Say("", "", Known(Stop)), OrderWith(Order(frames), Say("", "", Known(Stop))));
  }

  lemma {:induction false} NothingSpoken(order: seq<PartKind>, f: Frame)
    requires forall kind :: Said(f, kind) == ""
    ensures Spoken(order, f) == []
  {
    if order != [] {
      NothingSpoken(order[..|order| - 1], f);
    }
  }

  lemma AnswerEnds(codec: Codec, id: string, n: nat) returns (b: Bridge, events: seq<Event>, ending: Ending)
    requires n <= MAX_STREAM
    ensures Complete(codec, id, Answer(n), b, events, ending)
    ensures UpAfter(Answer(n)) == Ok(b.up) && forall i :: 0 <= i < |b.up.parts| ==> b.up.parts[i].kind != ToolPart
  {
    AlternatingAccepted(n);
    UpSnoc(Alternating(n), Say("", "", Known(Stop)));
    TellsWhatIsObserved(id, Answer(n));
    b, events := TellAll(id, Answer(n), true).value.0, TellAll(id, Answer(n), true).value.1;
    ending := FinishBridge(codec, b).value;
  }

  lemma {:induction false} NoToolCost(parts: seq<ChatPart>)
    requires forall i :: 0 <= i < |parts| ==> parts[i].kind != ToolPart
    ensures ToolCount(parts) == 0
  {
    if parts != [] {
      NoToolCost(parts[..|parts| - 1]);
    }
  }

  lemma TextsOnlySize(cfg: A.Config, id: string, frames: seq<Frame>, b: Bridge, events: seq<Event>, ending: Ending,
      log: seq<Piece>)
    requires GoodId(id) && Complete(cfg.codec, id, frames, b, events, ending) && log == Log(HistoryOf(frames))
    requires forall i :: 0 <= i < |b.up.parts| ==> b.up.parts[i].kind != ToolPart
    ensures TextTotal(log) + ToolCost(b.up.parts) <= MAX_STREAM && ToolCount(b.up.parts) == 0
  {
    SizeNeverRefuses(cfg, id, frames, HistoryOf(frames), b, events, ending);
    NoToolCost(b.up.parts);
  }

  lemma TextsOnlyAccepted(cfg: A.Config, id: string, log: seq<Piece>, parts: seq<ChatPart>, texts: seq<Play>,
      tools: seq<Play>, reason: A.StopReason, trace: seq<Event>)
    requires Tellable(cfg, log, parts) && GoodId(id) && A.MapStop(reason).Some?
    requires texts == Group(log) && tools == ToolPlays(parts) && trace == Whole(id, texts + tools, reason)
    requires TextTotal(log) + ToolCost(parts) <= MAX_STREAM && ToolCount(parts) == 0
    ensures A.Accepts(cfg, trace) <==> |texts| <= MAX_PARTS
  {
    var count, size := |texts| + ToolCount(parts), TextTotal(log) + ToolCost(parts);
    TraceAccepted(cfg, id, log, parts, texts, tools, reason, trace, count, size);
    OnlyTheCount(A.Accepts(cfg, trace), |texts|, ToolCount(parts), TextTotal(log) + ToolCost(parts));
  }

  lemma TextsOnlyRun(cfg: A.Config, id: string, h: History, log: seq<Piece>, parts: seq<ChatPart>, texts: seq<Play>,
      reason: A.StopReason, trace: seq<Event>)
    requires cfg.custom == {} && Runnable(cfg.codec, id, h, reason) && trace == Trace(id, h, reason)
    requires log == Log(h) && parts == LastParts(h) && texts == Group(log)
    requires TextTotal(log) + ToolCost(parts) <= MAX_STREAM && ToolCount(parts) == 0
    ensures A.Accepts(cfg, trace) <==> |texts| <= MAX_PARTS
  {
    TraceForm(id, h, texts, ToolPlays(parts), reason, trace);
    RunnableTells(cfg, id, h, log, parts, reason);
    TextsOnlyAccepted(cfg, id, log, parts, texts, ToolPlays(parts), reason, trace);
  }

  lemma OnlyTheCount(accepted: bool, texts: nat, tools: nat, size: int)
    requires (accepted <==> WithinLimits(texts + tools, size)) && tools == 0 && size <= MAX_STREAM
    ensures accepted <==> texts <= MAX_PARTS
  {
  }

  /** Main result: an answer that alternates `n` times between reasoning and text is told in full as `n` blocks, and the
      native converter accepts the trace if and only if they are at most 4096. */
  lemma AlternationLimit(cfg: A.Config, id: string, n: nat, frames: seq<Frame>) returns (b: Bridge,
      events: seq<Event>, ending: Ending)
    requires cfg.custom == {} && GoodId(id) && n <= MAX_STREAM && frames == Answer(n)
    ensures Complete(cfg.codec, id, frames, b, events, ending)
    ensures |Group(Log(HistoryOf(frames)))| == n
    ensures A.Accepts(cfg, events + ending.events) <==> n <= MAX_PARTS
  {
    b, events, ending := AnswerEnds(cfg.codec, id, n);
    BlocksAreTurns(frames, b.up);
    AnswerTurns(n, Alternating(n), SpokenAll(Alternating(n)));
    var h := HistoryOf(frames);
    TextsOnlySize(cfg, id, frames, b, events, ending, Log(h));
    EveryRunIsRunnable(cfg, id, frames, h, b, events, ending);
    TextsOnlyRun(cfg, id, h, Log(h), b.up.parts, Group(Log(h)), ending.reason, events + ending.events);
  }
}
