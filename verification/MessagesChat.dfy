/** A Chat answer told as Anthropic Messages events: text and thinking as they come, tools at the end. */
module MessagesChat {
  import opened Outcomes
  import opened ChatWire
  import opened ChatParts
  import opened JsonInput
  import A = AnthropicChat

  type Event = A.Event

  /** What the emitter remembers: how much of each part it has sent, and the block it has open. */
  datatype Emitter = Emitter(started: bool, sent: seq<nat>, active: Option<A.DeltaKind>, activeIndex: nat,
      nextIndex: nat)

  datatype Bridge = Bridge(up: Upstream, em: Emitter)

  const START := Bridge(EMPTY_UPSTREAM, Emitter(false, [], None, 0, 0))

  datatype MessagesError = UpstreamError(cause: ChatError) | Unfinished | BadToolCall

  function KindOf(p: ChatPart): A.DeltaKind {
    if p.kind == ReasoningPart then A.ThinkingDelta else A.TextDelta
  }

  function EmptyBlock(kind: A.DeltaKind): A.Block {
    A.Block(if kind == A.ThinkingDelta then A.ThinkingBlock else A.TextBlock, "", "", "", "", "", "", "")
  }

  function Fragment(kind: A.DeltaKind, text: string): A.BlockDelta {
    if kind == A.ThinkingDelta then A.BlockDelta(A.ThinkingDelta, "", text, "", "")
    else A.BlockDelta(A.TextDelta, text, "", "", "")
  }

  function Suffix(text: string, from: nat): string {
    if from <= |text| then text[from..] else ""
  }

  /** A part is told when it is no tool and has text not yet sent. */
  predicate Unsent(e: Emitter, i: nat, p: ChatPart) {
    p.kind != ToolPart && |p.text| != if i < |e.sent| then e.sent[i] else 0
  }

  function Register(e: Emitter, i: nat): Emitter {
    if i >= |e.sent| then e.(sent := e.sent + [0]) else e
  }

  function EmitPart(e: Emitter, i: nat, p: ChatPart): (Emitter, seq<Event>) {
    var f := Register(e, i);
    if !Unsent(e, i, p) || i >= |f.sent| then (f, [])
    else
      var kind := KindOf(p);
      var delta := Fragment(kind, Suffix(p.text, f.sent[i]));
      if f.active == Some(kind) then (f.(sent := f.sent[i := |p.text|]), [A.BlockDeltaEvent(f.activeIndex, delta)])
      else
        (f.(sent := f.sent[i := |p.text|], active := Some(kind), activeIndex := f.nextIndex,
            nextIndex := f.nextIndex + 1),
         (if f.active.Some? then [A.BlockStop(f.activeIndex)] else [])
         + [A.BlockStart(f.nextIndex, EmptyBlock(kind)), A.BlockDeltaEvent(f.nextIndex, delta)])
  }

  function EmitParts(e: Emitter, parts: seq<ChatPart>): (Emitter, seq<Event>) {
    if parts == [] then (e, [])
    else
      var (f, events) := EmitParts(e, parts[..|parts| - 1]);
      var (g, more) := EmitPart(f, |parts| - 1, parts[|parts| - 1]);
      (g, events + more)
  }

  /** `observe`. */
  function Tell(id: string, b: Bridge, frame: Frame, stream: bool): Result<(Bridge, seq<Event>), MessagesError> {
    match Observe(b.up, frame, stream)
    case Err(e) => Err(UpstreamError(e))
    case Ok(up) =>
      if !stream then Ok((b.(up := up), []))
      else
        var (em, events) := EmitParts(b.em.(started := true), up.parts);
        Ok((Bridge(up, em), (if b.em.started then [] else [A.MessageStart(id, false)]) + events))
  }

  function TellAll(id: string, frames: seq<Frame>, stream: bool): Result<(Bridge, seq<Event>), MessagesError> {
    if frames == [] then Ok((START, []))
    else match TellAll(id, frames[..|frames| - 1], stream)
      case Err(e) => Err(e)
      case Ok((b, events)) =>
        match Tell(id, b, frames[|frames| - 1], stream)
        case Err(e) => Err(e)
        case Ok((c, more)) => Ok((c, events + more))
  }

  function RawInput(p: ChatPart): string {
    if p.arguments == "" then "{}" else p.arguments
  }

  predicate Callable(codec: Codec, p: ChatPart) {
    p.callId != "" && p.name != "" && codec.IsObject(RawInput(p))
  }

  predicate AllCallable(codec: Codec, parts: seq<ChatPart>) {
    forall i :: 0 <= i < |parts| && parts[i].kind == ToolPart ==> Callable(codec, parts[i])
  }

  function ToolEvents(p: ChatPart, index: nat): seq<Event> {
    [A.BlockStart(index, A.Block(A.ToolBlock, p.callId, p.name, "", "", "", "", "{}")),
     A.BlockDeltaEvent(index, A.BlockDelta(A.InputDelta, "", "", "", RawInput(p))),
     A.BlockStop(index)]
  }

  /** The tools in order, numbered from `index`. */
  function ToolTail(parts: seq<ChatPart>, index: nat): seq<Event> {
    if parts == [] then []
    else
      var p := parts[|parts| - 1];
      var front := parts[..|parts| - 1];
      ToolTail(front, index) + if p.kind == ToolPart then ToolEvents(p, index + ToolCount(front)) else []
  }

  function ToolCount(parts: seq<ChatPart>): nat {
    if parts == [] then 0 else ToolCount(parts[..|parts| - 1]) + if parts[|parts| - 1].kind == ToolPart then 1 else 0
  }

  function Reason(finish: Finish, hasTools: bool): A.StopReason {
    if finish == ContentFilter then A.RefusalStop
    else if finish == Length then A.MaxTokens
    else if hasTools || finish == ToolCalls then A.ToolUse
    else A.EndTurn
  }

  function ResultBlock(p: ChatPart): A.Block {
    match p.kind
    case ReasoningPart => A.Block(A.ThinkingBlock, "", "", "", p.text, "", "", "")
    case ToolPart => A.Block(A.ToolBlock, p.callId, p.name, "", "", "", "", RawInput(p))
    case _ => A.Block(A.TextBlock, "", "", p.text, "", "", "", "")
  }

  function ResultBlocks(parts: seq<ChatPart>): seq<A.Block> {
    seq(|parts|, i requires 0 <= i < |parts| => ResultBlock(parts[i]))
  }

  /** What `finish` gives: the closing events, and the whole message with its stop reason. */
  datatype Ending = Ending(events: seq<Event>, content: seq<A.Block>, reason: A.StopReason)

  /** The events that end a trace: the open block's stop, the tools, the stop reason and the end. */
  function Closing(e: Emitter, parts: seq<ChatPart>, reason: A.StopReason): seq<Event> {
    (if e.active.Some? then [A.BlockStop(e.activeIndex)] else [])
      + (if e.started then ToolTail(parts, e.nextIndex) else []) + [A.MessageDelta(reason), A.MessageStop]
  }

  function FinishBridge(codec: Codec, b: Bridge): Result<Ending, MessagesError> {
    if b.up.finish.None? then Err(Unfinished)
    else if !AllCallable(codec, b.up.parts) then Err(BadToolCall)
    else
      var reason := Reason(b.up.finish.value, ToolCount(b.up.parts) > 0);
      Ok(Ending(Closing(b.em, b.up.parts, reason), ResultBlocks(b.up.parts), reason))
  }

  lemma EmitSnoc(e: Emitter, parts: seq<ChatPart>, i: nat)
    requires i < |parts|
    ensures var (f, events) := EmitParts(e, parts[..i]);
      EmitParts(e, parts[..i + 1]) == (EmitPart(f, i, parts[i]).0, events + EmitPart(f, i, parts[i]).1)
  {
    assert parts[..i + 1][..i] == parts[..i];
  }

  /** The loop of `finish` after `i` parts. */
  predicate Finished(codec: Codec, parts: seq<ChatPart>, i: nat, index: nat, content: seq<A.Block>,
      wire: seq<Event>, tools: nat)
    requires i <= |parts|
  {
    AllCallable(codec, parts[..i]) && content == ResultBlocks(parts[..i]) && wire == ToolTail(parts[..i], index)
    && tools == ToolCount(parts[..i])
  }

  lemma FinishedNext(codec: Codec, parts: seq<ChatPart>, i: nat, index: nat, content: seq<A.Block>,
      wire: seq<Event>, tools: nat)
    requires i < |parts| && Finished(codec, parts, i, index, content, wire, tools)
    requires parts[i].kind == ToolPart ==> Callable(codec, parts[i])
    ensures if parts[i].kind == ToolPart then Finished(codec, parts, i + 1, index, content
      + [ResultBlock(parts[i])], wire + ToolEvents(parts[i], index + tools), tools + 1)
            else Finished(codec, parts, i + 1, index, content + [ResultBlock(parts[i])], wire, tools)
  {
    assert parts[..i + 1][..i] == parts[..i];
    assert ResultBlocks(parts[..i + 1]) == ResultBlocks(parts[..i]) + [ResultBlock(parts[i])];
    assert wire + [] == wire;
  }

  lemma FinishedAll(codec: Codec, parts: seq<ChatPart>, index: nat, content: seq<A.Block>, wire: seq<Event>, tools: nat)
    requires Finished(codec, parts, |parts|, index, content, wire, tools)
    ensures AllCallable(codec, parts) && content == ResultBlocks(parts) && wire == ToolTail(parts, index)
      && tools == ToolCount(parts)
  {
    assert parts[..|parts|] == parts;
  }

  /** The loop of `observe` after `i` parts. */
  predicate ToldUpTo(before: Emitter, parts: seq<ChatPart>, i: nat, em: Emitter, head: seq<Event>, wire: seq<Event>)
    requires i <= |parts|
  {
    em == EmitParts(before, parts[..i]).0 && wire == head + EmitParts(before, parts[..i]).1
  }

  lemma ToldNext(before: Emitter, parts: seq<ChatPart>, i: nat, em: Emitter, head: seq<Event>, wire: seq<Event>)
    requires i < |parts| && ToldUpTo(before, parts, i, em, head, wire)
    ensures ToldUpTo(before, parts, i + 1, EmitPart(em, i, parts[i]).0, head, wire + EmitPart(em, i, parts[i]).1)
  {
    EmitSnoc(before, parts, i);
    var events := EmitParts(before, parts[..i]).1;
    assert (head + events) + EmitPart(em, i, parts[i]).1 == head + (events + EmitPart(em, i, parts[i]).1);
  }

  lemma ToldAll(before: Emitter, parts: seq<ChatPart>, em: Emitter, head: seq<Event>, wire: seq<Event>)
    requires ToldUpTo(before, parts, |parts|, em, head, wire)
    ensures em == EmitParts(before, parts).0 && wire == head + EmitParts(before, parts).1
  {
    assert parts[..|parts|] == parts;
  }

  /** The emitter as the object the source updates. */
  class ChatMessagesStream {
    const id: string
    const codec: Codec
    var state: Upstream
    var started: bool
    var sent: seq<nat>
    var activeKind: Option<A.DeltaKind>
    var activeIndex: nat
    var nextIndex: nat

    ghost function View(): Bridge
      reads this
    {
      Bridge(state, Emitter(started, sent, activeKind, activeIndex, nextIndex))
    }

    constructor (id: string, codec: Codec)
      ensures View() == START && this.id == id && this.codec == codec
    {
      this.id, this.codec := id, codec;
      state, started, sent, activeKind, activeIndex, nextIndex := EMPTY_UPSTREAM, false, [], None, 0, 0;
    }

    /** One part of the loop over the parts: send what it gained, opening a block of its kind where needed. */
    method TellPart(i: nat) returns (wire: seq<Event>)
      requires i < |state.parts|
      modifies this`sent, this`activeKind, this`activeIndex, this`nextIndex
      ensures View().em == EmitPart(old(View().em), i, state.parts[i]).0
      ensures wire == EmitPart(old(View().em), i, state.parts[i]).1
    {
      var p := state.parts[i];
      wire := [];
      if i >= |sent| {
        sent := sent + [0];
      }
      if p.kind == ToolPart || i >= |sent| || |p.text| == sent[i] {
        return;
      }
      var kind := KindOf(p);
      if activeKind != Some(kind) {
        if activeKind.Some? {
          wire := [A.BlockStop(activeIndex)];
        }
        activeKind, activeIndex := Some(kind), nextIndex;
        nextIndex := nextIndex + 1;
        wire := wire + [A.BlockStart(activeIndex, EmptyBlock(kind))];
      }
      wire := wire + [A.BlockDeltaEvent(activeIndex, Fragment(kind, Suffix(p.text, sent[i])))];
      sent := sent[i := |p.text|];
    }

    /** The loop of `observe` over the parts. */
    method TellParts() returns (wire: seq<Event>)
      modifies this`sent, this`activeKind, this`activeIndex, this`nextIndex
      ensures View().em == EmitParts(old(View().em), state.parts).0 && wire == EmitParts(old(View().em), state.parts).1
    {
      ghost var before := View().em;
      wire := [];
      assert state.parts[..0] == [];
      for i := 0 to |state.parts|
        invariant ToldUpTo(before, state.parts, i, View().em, [], wire)
      {
        ToldNext(before, state.parts, i, View().em, [], wire);
        var more := TellPart(i);
        wire := wire + more;
      }
      ToldAll(before, state.parts, View().em, [], wire);
      assert [] + EmitParts(before, state.parts).1 == EmitParts(before, state.parts).1;
    }

    method ObserveFrame(frame: Frame, stream: bool) returns (r: Result<seq<Event>, MessagesError>)
      modifies this
      ensures match Tell(id, old(View()), frame, stream)
        case Ok((b, events)) => r == Ok(events) && View() == b
        case Err(e) => r == Err(e)
    {
      var observed := Observe(state, frame, stream);
      if observed.Err? {
        return Err(UpstreamError(observed.error));
      }
      state := observed.value;
      if !stream {
        return Ok([]);
      }
      var wire: seq<Event> := [];
      if !started {
        started := true;
        wire := [A.MessageStart(id, false)];
      }
      var more := TellParts();
      r := Ok(wire + more);
    }

    /** The loop of `finish` over the parts: the message content, and the tools' events numbered from `index`. */
    method FinishParts(index: nat) returns (r: Option<seq<A.Block>>, wire: seq<Event>, tools: nat)
      ensures r.Some? <==> AllCallable(codec, state.parts)
      ensures r.Some? ==>
        r.value == ResultBlocks(state.parts) && wire == ToolTail(state.parts, index) && tools == ToolCount(state.parts)
    {
      var content: seq<A.Block> := [];
      wire, tools := [], 0;
      assert state.parts[..0] == [];
      for i := 0 to |state.parts|
        invariant Finished(codec, state.parts, i, index, content, wire, tools)
      {
        var p := state.parts[i];
        if p.kind == ToolPart && (p.callId == "" || p.name == "" || !codec.IsObject(RawInput(p))) {
          return None, wire, tools;
        }
        FinishedNext(codec, state.parts, i, index, content, wire, tools);
        if p.kind == ToolPart {
          wire := wire + ToolEvents(p, index + tools);
          tools := tools + 1;
        }
        content := content + [ResultBlock(p)];
      }
      FinishedAll(codec, state.parts, index, content, wire, tools);
      r := Some(content);
    }

    method Finish() returns (r: Result<Ending, MessagesError>)
      modifies this`nextIndex
      ensures r == FinishBridge(codec, old(View()))
    {
      if state.finish.None? {
        return Err(Unfinished);
      }
      var content, tail, tools := FinishParts(nextIndex);
      if content.None? {
        return Err(BadToolCall);
      }
      var wire: seq<Event> := [];
      if activeKind.Some? {
        wire := [A.BlockStop(activeIndex)];
      }
      if started {
        wire := wire + tail;
        nextIndex := nextIndex + tools;
      }
      assert wire == (if activeKind.Some? then [A.BlockStop(activeIndex)] else []) + if started then tail else [];
      var reason: A.StopReason := A.EndTurn;
      if tools > 0 || state.finish == Some(ToolCalls) {
        reason := A.ToolUse;
      }
      if state.finish == Some(Length) {
        reason := A.MaxTokens;
      }
      if state.finish == Some(ContentFilter) {
        reason := A.RefusalStop;
      }
      r := Ok(Ending(wire + [A.MessageDelta(reason), A.MessageStop], content.value, reason));
    }
  }
}
