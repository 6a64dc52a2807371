/** Whole runs of the bridge: a Chat stream told as Messages and read back as Chat says what the Chat frames said. */
module MessagesRun {
  import opened Outcomes
  import opened ChatWire
  import opened ChatParts
  import opened JsonInput
  import opened MessagesChat
  import opened MessagesLegal
  import opened MessagesRoundTrip
  import opened AnthropicPlay
  import opened Sequences
  import A = AnthropicChat

  function UpAfter(frames: seq<Frame>): Result<Upstream, ChatError> {
    if frames == [] then Ok(EMPTY_UPSTREAM)
    else match UpAfter(frames[..|frames| - 1])
      case Err(e) => Err(e)
      case Ok(u) => Observe(u, frames[|frames| - 1], true)
  }

  function PartsAfter(frames: seq<Frame>): seq<ChatPart> {
    match UpAfter(frames) case Ok(u) => u.parts case Err(_) => []
  }

  function HistoryOf(frames: seq<Frame>): History {
    if frames == [] then [] else HistoryOf(frames[..|frames| - 1]) + [PartsAfter(frames)]
  }

  lemma FrameIsEmission(id: string, b: Bridge, frame: Frame)
    requires Tell(id, b, frame, true).Ok?
    ensures Observe(b.up, frame, true).Ok?
    ensures var up := Observe(b.up, frame, true).value; var e := b.em.(started := true);
      Tell(id, b, frame, true).value == (Bridge(up, EmitParts(e, up.parts).0), (if b.em.started then []
        else [A.MessageStart(id, false)]) + EmitParts(e, up.parts).1)
  {
  }

  lemma {:induction false} EmitterStarted(e: Emitter, parts: seq<ChatPart>)
    ensures EmitParts(e, parts).0.started == e.started
  {
    if parts != [] {
      EmitterStarted(e, parts[..|parts| - 1]);
    }
  }

  /** A run's emitter and events are those of its part history. */
  lemma {:induction false} RunIsHistory(id: string, frames: seq<Frame>, b: Bridge, events: seq<Event>)
    requires TellAll(id, frames, true) == Ok((b, events))
    ensures UpAfter(frames) == Ok(b.up) && b.em == EmitterAfter(HistoryOf(frames))
      && events == EventsOf(id, HistoryOf(frames))
    ensures |HistoryOf(frames)| == |frames| && (b.em.started <==> frames != [])
  {
    if frames != [] {
      var front, frame := frames[..|frames| - 1], frames[|frames| - 1];
      var (c, before) := TellAll(id, front, true).value;
      RunIsHistory(id, front, c, before);
      FrameIsEmission(id, c, frame);
      EmitterStarted(c.em.(started := true), b.up.parts);
      HistoryStep(id, frames, b.up.parts);
    }
  }

  lemma HistoryStep(id: string, frames: seq<Frame>, parts: seq<ChatPart>)
    requires frames != [] && |HistoryOf(frames[..|frames| - 1])| == |frames| - 1 && PartsAfter(frames) == parts
    ensures var front := HistoryOf(frames[..|frames| - 1]); var e := EmitterAfter(front).(started := true);
      && EmitterAfter(HistoryOf(frames)) == EmitParts(e, parts).0 && |HistoryOf(frames)| == |frames|
      && EventsOf(id, HistoryOf(frames)) == EventsOf(id, front) +
        ((if |frames| > 1 then [] else [A.MessageStart(id, false)]) + EmitParts(e, parts).1)
  {
    var front := HistoryOf(frames[..|frames| - 1]);
    assert (front + [parts])[..|front|] == front;
  }

  lemma {:induction false} UpWellFormed(frames: seq<Frame>)
    requires UpAfter(frames).Ok?
    ensures WellFormed(UpAfter(frames).value)
  {
    if frames == [] {
      assert Weights([]) == [];
    } else {
      UpWellFormed(frames[..|frames| - 1]);
      ObserveKeeps(UpAfter(frames[..|frames| - 1]).value, frames[|frames| - 1], true);
    }
  }

  lemma UpLast(frames: seq<Frame>, u: Upstream) returns (v: Upstream)
    requires frames != [] && UpAfter(frames) == Ok(u)
    ensures UpAfter(frames[..|frames| - 1]) == Ok(v) && WellFormed(v) && Observe(v, frames[|frames| - 1], true) == Ok(u)
    ensures HistoryOf(frames) == HistoryOf(frames[..|frames| - 1]) + [u.parts]
  {
    v := UpAfter(frames[..|frames| - 1]).value;
    UpWellFormed(frames[..|frames| - 1]);
  }

  lemma NextGrows(h: History, v: Upstream, f: Frame, u: Upstream)
    requires Growing(h) && LastParts(h) == v.parts && WellFormed(v) && Observe(v, f, true) == Ok(u)
    ensures Growing(h + [u.parts]) && LastParts(h + [u.parts]) == u.parts
  {
    ObserveKeeps(v, f, true);
    GrowingSnoc(h, u.parts);
  }

  /** The history of an accepted run only grows. */
  lemma {:induction false} HistoryGrows(frames: seq<Frame>, u: Upstream)
    requires UpAfter(frames) == Ok(u)
    ensures Growing(HistoryOf(frames)) && LastParts(HistoryOf(frames)) == u.parts && |HistoryOf(frames)| == |frames|
  {
    if frames != [] {
      var v := UpLast(frames, u);
      HistoryGrows(frames[..|frames| - 1], v);
      NextGrows(HistoryOf(frames[..|frames| - 1]), v, frames[|frames| - 1], u);
    }
  }

  lemma GrowingSnoc(h: History, parts: seq<ChatPart>)
    requires Growing(h) && PartsOk(parts) && (h != [] ==> Grows(LastParts(h), parts))
    ensures Growing(h + [parts])
  {
    var all := h + [parts];
    forall i, k | 0 <= i < k < |all| ensures Grows(all[i], all[k]) {
      if k < |h| {
        assert Grows(h[i], h[k]);
      } else if i < |h| - 1 {
        GrowsOn(h[i], LastParts(h), parts);
      }
    }
  }

  lemma KindOnce(u: Upstream, kind: PartKind)
    requires Shaped(u) && kind != ToolPart
    ensures OnePart(u.parts, kind)
  {
  }

  /** A complete run: every frame accepted, and `finish` accepted at the end. */
  predicate Complete(codec: Codec, id: string, frames: seq<Frame>, b: Bridge, events: seq<Event>, ending: Ending) {
    frames != [] && TellAll(id, frames, true) == Ok((b, events)) && FinishBridge(codec, b) == Ok(ending)
  }

  lemma EndForm(codec: Codec, b: Bridge, ending: Ending)
    requires FinishBridge(codec, b) == Ok(ending)
    ensures b.up.finish.Some? && AllCallable(codec, b.up.parts)
    ensures ending.reason == Reason(b.up.finish.value, ToolCount(b.up.parts) > 0)
    ensures ending.events == Closing(b.em, b.up.parts, ending.reason)
    ensures ending.content == ResultBlocks(b.up.parts)
  {
  }

  /** Every complete run meets the terms of `NativeAccepts`, `ClientReads` and `RoundTrip`: its parts only grow, its
      trace is that of its part history, and its tools are callable and distinct. */
  lemma EveryRunIsRunnable(cfg: A.Config, id: string, frames: seq<Frame>, h: History, b: Bridge, events: seq<Event>,
      ending: Ending)
    requires Complete(cfg.codec, id, frames, b, events, ending) && GoodId(id) && h == HistoryOf(frames)
    ensures b.up.finish.Some? && ending.reason == Reason(b.up.finish.value, ToolCount(b.up.parts) > 0)
    ensures Runnable(cfg.codec, id, h, ending.reason) && LastParts(h) == b.up.parts
    ensures events + ending.events == Trace(id, h, ending.reason)
  {
    RunIsHistory(id, frames, b, events);
    HistoryGrows(frames, b.up);
    UpWellFormed(frames);
    EndForm(cfg.codec, b, ending);
    FinishBack(b.up.finish.value, ToolCount(b.up.parts) > 0);
  }

  lemma RunShape(id: string, frames: seq<Frame>, b: Bridge, events: seq<Event>)
    requires TellAll(id, frames, true) == Ok((b, events))
    ensures WellFormed(b.up) && OneOfEach(b.up.parts)
  {
    RunIsHistory(id, frames, b, events);
    UpWellFormed(frames);
    KindOnce(b.up, ReasoningPart);
    KindOnce(b.up, MessagePart);
    KindOnce(b.up, RefusalPart);
  }

  /** Main result: where its trace is accepted by the native converter, the client reads back the upstream's answer. */
  lemma EveryRunRoundTrips(cfg: A.Config, id: string, frames: seq<Frame>, b: Bridge, events: seq<Event>,
      ending: Ending, trace: seq<Event>)
    requires cfg.custom == {} && Complete(cfg.codec, id, frames, b, events, ending) && GoodId(id)
      && trace == events + ending.events
    requires A.Accepts(cfg, trace)
    ensures b.up.finish.Some? && SaysTheSame(ReadAll(EMPTY, A.Output(cfg, trace)), b.up.parts, b.up.finish.value)
  {
    var h := HistoryOf(frames);
    EveryRunIsRunnable(cfg, id, frames, h, b, events, ending);
    RunShape(id, frames, b, events);
    RoundTrip(cfg, id, h, b.up.finish.value, trace);
  }

  /** The native converter never refuses for size a run whose tools all have arguments. */
  lemma SizeNeverRefuses(cfg: A.Config, id: string, frames: seq<Frame>, h: History, b: Bridge, events: seq<Event>,
      ending: Ending)
    requires Complete(cfg.codec, id, frames, b, events, ending) && GoodId(id) && h == HistoryOf(frames)
    requires forall i :: 0 <= i < |b.up.parts| && b.up.parts[i].kind == ToolPart ==> b.up.parts[i].arguments != ""
    ensures TextTotal(Log(h)) + ToolCost(b.up.parts) <= MAX_STREAM
  {
    EveryRunIsRunnable(cfg, id, frames, h, b, events, ending);
    RunShape(id, frames, b, events);
    SizeSuffices(cfg.codec, b.up, h);
  }

  // ---- The parts are what the frames said -----------------------------------------------------------------

  function Said(f: Frame, kind: PartKind): string {
    if !f.Choice? then ""
    else match kind
      case ReasoningPart => Thought(f)
      case MessagePart => f.content
      case RefusalPart => f.refusal
      case ToolPart => ""
  }

  function SaidAll(frames: seq<Frame>, kind: PartKind): string {
    if frames == [] then "" else SaidAll(frames[..|frames| - 1], kind) + Said(frames[|frames| - 1], kind)
  }

  lemma {:induction false} SlotUpdate(parts: seq<ChatPart>, i: nat, q: ChatPart, kind: PartKind)
    requires i < |parts| && q.kind == parts[i].kind && OnePart(parts, kind) && parts[i].text <= q.text
    ensures OnePart(parts[i := q], kind)
    ensures SlotText(parts[i := q], kind) ==
      SlotText(parts, kind) + if q.kind == kind then q.text[|parts[i].text|..] else ""
  {
    var all := parts[i := q];
    assert OnePart(all, kind);
    if q.kind == kind {
      SlotAt(all, kind, i);
      SlotAt(parts, kind, i);
      assert q.text == parts[i].text + q.text[|parts[i].text|..];
    } else if i == |parts| - 1 {
      assert all[..i] == parts[..i];
    } else {
      assert all[..|parts| - 1] == parts[..|parts| - 1][i := q];
      SlotUpdate(parts[..|parts| - 1], i, q, kind);
      assert SlotText(parts[..|parts| - 1], kind) + "" == SlotText(parts[..|parts| - 1], kind);
    }
  }

  lemma SlotSnoc(parts: seq<ChatPart>, q: ChatPart, kind: PartKind)
    ensures SlotText(parts + [q], kind) == SlotText(parts, kind) + if q.kind == kind then q.text else ""
  {
    assert (parts + [q])[..|parts|] == parts;
  }

  lemma AppendSays(u: Upstream, kind: PartKind, value: string, of: PartKind)
    requires Shaped(u) && kind != ToolPart && of != ToolPart
    ensures SlotText(AppendText(u, kind, value).parts, of) == SlotText(u.parts, of) + if of == kind then value else ""
  {
    if value == "" {
      assert SlotText(u.parts, of) + "" == SlotText(u.parts, of);
    } else if kind in u.slots {
      var i := u.slots[kind];
      KindOnce(u, of);
      SlotUpdate(u.parts, i, u.parts[i].(text := u.parts[i].text + value), of);
      assert (u.parts[i].text + value)[|u.parts[i].text|..] == value;
    } else {
      SlotSnoc(u.parts, ChatPart(kind, value, "", "", ""), of);
    }
  }

  lemma LocatedSays(u: Upstream, index: int, of: PartKind)
    requires of != ToolPart
    ensures SlotText(Located(u, index).parts, of) == SlotText(u.parts, of)
  {
    SlotSnoc(u.parts, ChatPart(ToolPart, "", "", "", ""), of);
    assert SlotText(u.parts, of) + "" == SlotText(u.parts, of);
  }

  lemma AddCallSays(u: Upstream, index: int, call: CallDelta, of: PartKind)
    requires Shaped(u) && of != ToolPart && AddCall(u, index, call).Ok?
    ensures SlotText(AddCall(u, index, call).value.parts, of) == SlotText(u.parts, of)
  {
    var q := AddedCall(u, index, call);
    LocatedSays(u, index, of);
    CallSays(Located(u, index), Located(u, index).tools[index], q, of);
  }

  /** A fragment changes only its tool's part, which has no text. */
  lemma AddedCall(u: Upstream, index: int, call: CallDelta) returns (q: ChatPart)
    requires Shaped(u) && AddCall(u, index, call).Ok?
    ensures var l := Located(u, index);
      && Shaped(l) && index in l.tools && l.tools[index] < |l.parts|
      && q.kind == l.parts[l.tools[index]].kind == ToolPart && q.text == l.parts[l.tools[index]].text
      && AddCall(u, index, call).value.parts == l.parts[l.tools[index] := q]
  {
    LocatedShaped(u, index);
    q := AddCall(u, index, call).value.parts[Located(u, index).tools[index]];
  }

  lemma CallSays(l: Upstream, at: nat, q: ChatPart, of: PartKind)
    requires Shaped(l) && of != ToolPart && at < |l.parts| && q.kind == l.parts[at].kind == ToolPart
      && q.text == l.parts[at].text
    ensures SlotText(l.parts[at := q], of) == SlotText(l.parts, of)
  {
    KindOnce(l, of);
    SlotUpdate(l.parts, at, q, of);
    NoText(SlotText(l.parts, of));
  }

  lemma {:induction false} AddCallsSay(u: Upstream, calls: seq<CallDelta>, of: PartKind)
    requires Shaped(u) && of != ToolPart && AddCalls(u, calls, true).Ok?
    ensures Shaped(AddCalls(u, calls, true).value)
      && SlotText(AddCalls(u, calls, true).value.parts, of) == SlotText(u.parts, of)
  {
    if calls != [] {
      AddCallsSay(u, calls[..|calls| - 1], of);
      AddCallSays(AddCalls(u, calls[..|calls| - 1], true).value, calls[|calls| - 1].index, calls[|calls| - 1], of);
      CallShaped(AddCalls(u, calls[..|calls| - 1], true).value, calls[|calls| - 1].index, calls[|calls| - 1]);
    }
  }

  lemma TextsShaped(u: Upstream, f: Frame)
    requires Shaped(u) && f.Choice?
    ensures Shaped(AppendText(u, ReasoningPart, Thought(f)))
    ensures Shaped(AppendText(AppendText(u, ReasoningPart, Thought(f)), MessagePart, f.content))
    ensures Shaped(Texts(u, f))
  {
    AppendShaped(u, ReasoningPart, Thought(f));
    AppendShaped(AppendText(u, ReasoningPart, Thought(f)), MessagePart, f.content);
    AppendShaped(AppendText(AppendText(u, ReasoningPart, Thought(f)), MessagePart, f.content), RefusalPart, f.refusal);
  }

  lemma TextsSay(u: Upstream, f: Frame, of: PartKind)
    requires Shaped(u) && f.Choice? && of != ToolPart
    ensures SlotText(Texts(u, f).parts, of) == SlotText(u.parts, of) + Said(f, of)
  {
    TextsShaped(u, f);
    var a := AppendText(u, ReasoningPart, Thought(f));
    AppendSays(u, ReasoningPart, Thought(f), of);
    var b := AppendText(a, MessagePart, f.content);
    AppendSays(a, MessagePart, f.content, of);
    AppendSays(b, RefusalPart, f.refusal, of);
    NoText(SlotText(u.parts, of));
    NoText(SlotText(u.parts, of) + Said(f, of));
  }

  lemma NoText(text: string)
    ensures text + "" == text
  {
  }

  /** The upstream just before a frame's calls are added. */
  function BeforeCalls(u: Upstream, f: Frame): Upstream
    requires f.Choice?
  {
    Texts(Named(u, f), f).(size := u.size + TextSize(f) + CallTotal(f.calls))
  }

  function Named(u: Upstream, f: Frame): Upstream
    requires f.Choice?
  {
    if f.id != "" then u.(id := f.id) else u
  }

  lemma AdmitForm(u: Upstream, f: Frame, base: Upstream, added: Result<Upstream, ChatError>, v: Upstream)
    requires f.Choice? && Admit(u, f, true) == Ok(v)
      && base == Texts(u, f).(size := u.size + TextSize(f) + CallTotal(f.calls))
    requires added == AddCalls(base, f.calls, true)
    ensures added.Ok? && SetFinishField(added.value, f.finish) == Ok(v)
  {
  }

  lemma FinishFieldKeeps(u: Upstream, field: FinishField, v: Upstream)
    requires SetFinishField(u, field) == Ok(v)
    ensures v.parts == u.parts && v.tools == u.tools
  {
  }

  lemma ObserveForm(u: Upstream, f: Frame, v: Upstream)
    requires Observe(u, f, true) == Ok(v)
    ensures !f.Choice? ==> v.parts == u.parts && v.tools == u.tools
    ensures f.Choice? ==> AddCalls(BeforeCalls(u, f), f.calls, true).Ok?
    ensures f.Choice? ==> v.parts == AddCalls(BeforeCalls(u, f), f.calls, true).value.parts
    ensures f.Choice? ==> v.tools == AddCalls(BeforeCalls(u, f), f.calls, true).value.tools
  {
    if f.Choice? {
      AdmitForm(Named(u, f), f, BeforeCalls(u, f), AddCalls(BeforeCalls(u, f), f.calls, true), v);
      FinishFieldKeeps(AddCalls(BeforeCalls(u, f), f.calls, true).value, f.finish, v);
    }
  }

  lemma BeforeShaped(u: Upstream, f: Frame)
    requires Shaped(u) && f.Choice?
    ensures Shaped(Named(u, f)) && Shaped(BeforeCalls(u, f))
  {
    TextsShaped(Named(u, f), f);
  }

  lemma ObserveSays(u: Upstream, f: Frame, v: Upstream, of: PartKind)
    requires WellFormed(u) && of != ToolPart && Observe(u, f, true) == Ok(v)
    ensures SlotText(v.parts, of) == SlotText(u.parts, of) + Said(f, of)
  {
    ObserveForm(u, f, v);
    if f.Choice? {
      BeforeShaped(u, f);
      TextsSay(Named(u, f), f, of);
      AddCallsSay(BeforeCalls(u, f), f.calls, of);
    } else {
      assert SlotText(u.parts, of) + "" == SlotText(u.parts, of);
    }
  }

  lemma PartsStep(frames: seq<Frame>, v: Upstream, u: Upstream, of: PartKind)
    requires frames != [] && WellFormed(v) && of != ToolPart && Observe(v, frames[|frames| - 1], true) == Ok(u)
    requires SlotText(v.parts, of) == SaidAll(frames[..|frames| - 1], of)
    ensures SlotText(u.parts, of) == SaidAll(frames, of)
  {
    ObserveSays(v, frames[|frames| - 1], u, of);
  }

  /** Each text part holds exactly what the frames said of its kind, in order. */
  lemma {:induction false} PartsSay(frames: seq<Frame>, u: Upstream, of: PartKind)
    requires UpAfter(frames) == Ok(u) && of != ToolPart
    ensures SlotText(u.parts, of) == SaidAll(frames, of)
  {
    if frames != [] {
      var v := UpLast(frames, u);
      PartsSay(frames[..|frames| - 1], v, of);
      PartsStep(frames, v, u, of);
    }
  }

  function CallText(calls: seq<CallDelta>, index: int): string {
    if calls == [] then ""
    else
      CallText(calls[..|calls| - 1], index) +
      if calls[|calls| - 1].index == index then calls[|calls| - 1].arguments else ""
  }

  function FrameCalls(f: Frame): seq<CallDelta> {
    if f.Choice? then f.calls else []
  }

  function CallTextAll(frames: seq<Frame>, index: int): string {
    if frames == [] then ""
    else CallTextAll(frames[..|frames| - 1], index) + CallText(FrameCalls(frames[|frames| - 1]), index)
  }

  function ArgumentsOf(u: Upstream, index: int): string {
    if index in u.tools && u.tools[index] < |u.parts| then u.parts[u.tools[index]].arguments else ""
  }

  lemma AddCallArguments(u: Upstream, at: int, call: CallDelta, index: int)
    requires Shaped(u) && AddCall(u, at, call).Ok?
    ensures ArgumentsOf(AddCall(u, at, call).value, index) ==
      ArgumentsOf(u, index) + if at == index then call.arguments else ""
  {
    LocatedShaped(u, at);
    var l, v := Located(u, at), AddCall(u, at, call).value;
    assert ArgumentsOf(l, index) == ArgumentsOf(u, index);
    assert v.tools == l.tools && v.parts == l.parts[l.tools[at] := v.parts[l.tools[at]]];
    assert index in l.tools && index != at ==> l.tools[index] != l.tools[at];
    assert ArgumentsOf(l, index) + "" == ArgumentsOf(l, index);
  }

  lemma {:induction false} AddCallsArguments(u: Upstream, calls: seq<CallDelta>, index: int)
    requires Shaped(u) && AddCalls(u, calls, true).Ok?
    ensures Shaped(AddCalls(u, calls, true).value)
    ensures ArgumentsOf(AddCalls(u, calls, true).value, index) == ArgumentsOf(u, index) + CallText(calls, index)
  {
    if calls == [] {
      assert ArgumentsOf(u, index) + "" == ArgumentsOf(u, index);
    } else {
      var v, last := AddCalls(u, calls[..|calls| - 1], true).value, calls[|calls| - 1];
      AddCallsArguments(u, calls[..|calls| - 1], index);
      AddCallArguments(v, last.index, last, index);
      CallShaped(v, last.index, last);
      Regroup(ArgumentsOf(u, index), CallText(calls[..|calls| - 1], index),
          if last.index == index then last.arguments else "");
    }
  }

  lemma AppendArguments(u: Upstream, kind: PartKind, value: string, index: int)
    requires Shaped(u) && kind != ToolPart
    ensures ArgumentsOf(AppendText(u, kind, value), index) == ArgumentsOf(u, index)
  {
    if index in u.tools && kind in u.slots {
      assert u.parts[u.tools[index]].kind == ToolPart && u.parts[u.slots[kind]].kind == kind;
    }
  }

  lemma ObserveArguments(u: Upstream, f: Frame, v: Upstream, index: int)
    requires WellFormed(u) && Observe(u, f, true) == Ok(v)
    ensures ArgumentsOf(v, index) == ArgumentsOf(u, index) + CallText(FrameCalls(f), index)
  {
    ObserveForm(u, f, v);
    if f.Choice? {
      BeforeShaped(u, f);
      TextsArguments(Named(u, f), f, index);
      AddCallsArguments(BeforeCalls(u, f), f.calls, index);
    } else {
      assert ArgumentsOf(u, index) + "" == ArgumentsOf(u, index);
    }
  }

  lemma TextsArguments(u: Upstream, f: Frame, index: int)
    requires Shaped(u) && f.Choice?
    ensures ArgumentsOf(Texts(u, f), index) == ArgumentsOf(u, index)
  {
    TextsShaped(u, f);
    var a := AppendText(u, ReasoningPart, Thought(f));
    AppendArguments(u, ReasoningPart, Thought(f), index);
    var b := AppendText(a, MessagePart, f.content);
    AppendArguments(a, MessagePart, f.content, index);
    AppendArguments(b, RefusalPart, f.refusal, index);
  }

  lemma ToolsStep(frames: seq<Frame>, v: Upstream, u: Upstream, index: int)
    requires frames != [] && WellFormed(v) && Observe(v, frames[|frames| - 1], true) == Ok(u)
    requires ArgumentsOf(v, index) == CallTextAll(frames[..|frames| - 1], index)
    ensures ArgumentsOf(u, index) == CallTextAll(frames, index)
  {
    ObserveArguments(v, frames[|frames| - 1], u, index);
  }

  /** Each tool's arguments are its fragments in order, however the frames interleave the tools. */
  lemma {:induction false} ToolsSay(frames: seq<Frame>, u: Upstream, index: int)
    requires UpAfter(frames) == Ok(u)
    ensures ArgumentsOf(u, index) == CallTextAll(frames, index)
  {
    if frames != [] {
      var v := UpLast(frames, u);
      ToolsSay(frames[..|frames| - 1], v, index);
      ToolsStep(frames, v, u, index);
    }
  }
}
