/** Every trace of the Messages emitter is one whole message played block by block, and the Chat converter reads it
    back as the answer the upstream gave. */
module MessagesLegal {
  import opened Outcomes
  import opened ChatParts
  import opened MessagesChat
  import opened AnthropicPlay
  import opened Sequences
  import A = AnthropicChat
  import G = AnthropicAgreement

  /** A stretch of text sent for one part. */
  datatype Piece = Piece(part: nat, kind: A.DeltaKind, text: string)

  function PieceOf(e: Emitter, i: nat, p: ChatPart): seq<Piece> {
    if !Unsent(e, i, p) then [] else [Piece(i, KindOf(p), Suffix(p.text, if i < |e.sent| then e.sent[i] else 0))]
  }

  function PiecesOf(e: Emitter, parts: seq<ChatPart>): seq<Piece> {
    if parts == [] then []
    else PiecesOf(e, parts[..|parts| - 1]) + PieceOf(EmitParts(e, parts[..|parts| - 1]).0, |parts| - 1,
        parts[|parts| - 1])
  }

  /** The part lists an upstream showed, frame by frame. */
  type History = seq<seq<ChatPart>>

  function EmitterAfter(h: History): Emitter {
    if h == [] then START.em else EmitParts(EmitterAfter(h[..|h| - 1]).(started := true), h[|h| - 1]).0
  }

  /** All events told for the frames. */
  function EventsOf(id: string, h: History): seq<Event> {
    if h == [] then []
    else
      var before := EmitterAfter(h[..|h| - 1]).(started := true);
      EventsOf(id, h[..|h| - 1])
        + ((if |h| > 1 then [] else [A.MessageStart(id, false)]) + EmitParts(before, h[|h| - 1]).1)
  }

  /** All pieces of a run, in the order they were sent. */
  function Log(h: History): seq<Piece> {
    if h == [] then [] else Log(h[..|h| - 1]) + PiecesOf(EmitterAfter(h[..|h| - 1]).(started := true), h[|h| - 1])
  }

  /** Pieces of the same kind in a row share a block. */
  function Group(log: seq<Piece>): seq<Play> {
    if log == [] then []
    else
      var plays, x := Group(log[..|log| - 1]), log[|log| - 1];
      if plays != [] && LastKind(log[..|log| - 1]) == Some(x.kind) then
        plays[|plays| - 1 := plays[|plays| - 1].(deltas := plays[|plays| - 1].deltas + [Fragment(x.kind, x.text)])]
      else plays + [Play(EmptyBlock(x.kind), [Fragment(x.kind, x.text)])]
  }

  function LastKind(log: seq<Piece>): Option<A.DeltaKind> {
    if log == [] then None else Some(log[|log| - 1].kind)
  }

  /** The events of the blocks with the last one still open. */
  function OpenScript(plays: seq<Play>): seq<Event> {
    if plays == [] then []
    else
      var n := |plays| - 1;
      Script(plays[..n]) + [A.BlockStart(n, plays[n].start)] + DeltaEvents(n, plays[n].deltas)
  }

  lemma {:induction false} GroupNonempty(log: seq<Piece>)
    requires log != []
    ensures Group(log) != []
  {
  }

  /** The emitter's bookkeeping for what it has sent. */
  predicate Tracks(e: Emitter, log: seq<Piece>) {
    && e.active == LastKind(log) && e.nextIndex == |Group(log)|
    && (log != [] ==> e.activeIndex == |Group(log)| - 1)
  }

  function Extended(plays: seq<Play>, x: Piece, same: bool): seq<Play> {
    if same && plays != [] then
      plays[|plays| - 1 := plays[|plays| - 1].(deltas := plays[|plays| - 1].deltas + [Fragment(x.kind, x.text)])]
    else plays + [Play(EmptyBlock(x.kind), [Fragment(x.kind, x.text)])]
  }

  lemma GroupSnoc(log: seq<Piece>, x: Piece)
    ensures Group(log + [x]) == Extended(Group(log), x, LastKind(log) == Some(x.kind))
    ensures LastKind(log + [x]) == Some(x.kind)
  {
    assert (log + [x])[..|log|] == log;
  }

  /** The events of one piece, given the block that is open. */
  function PieceEvents(plays: seq<Play>, x: Piece, same: bool): seq<Event> {
    var delta := Fragment(x.kind, x.text);
    if same && plays != [] then [A.BlockDeltaEvent(|plays| - 1, delta)]
    else (if plays == [] then [] else [A.BlockStop(|plays| - 1)]) + [A.BlockStart(|plays|, EmptyBlock(x.kind)),
        A.BlockDeltaEvent(|plays|, delta)]
  }

  lemma ExtendedScript(plays: seq<Play>, x: Piece, same: bool)
    ensures OpenScript(Extended(plays, x, same)) == OpenScript(plays) + PieceEvents(plays, x, same)
  {
    if same && plays != [] {
      SameBlock(plays, Fragment(x.kind, x.text));
    } else {
      NextBlock(plays, EmptyBlock(x.kind), Fragment(x.kind, x.text));
    }
  }

  predicate TracksAs(e: Emitter, plays: seq<Play>, last: Option<A.DeltaKind>) {
    e.active == last && e.nextIndex == |plays| && (plays != [] ==> e.activeIndex == |plays| - 1)
    && (plays == [] <==> last.None?)
  }

  lemma TracksForm(e: Emitter, log: seq<Piece>)
    ensures Tracks(e, log) <==> TracksAs(e, Group(log), LastKind(log))
  {
    if log != [] {
      GroupNonempty(log);
    }
  }

  lemma EmitForm(e: Emitter, i: nat, p: ChatPart, plays: seq<Play>, last: Option<A.DeltaKind>, x: Piece)
    requires TracksAs(e, plays, last) && i <= |e.sent| && Unsent(e, i, p) && PieceOf(e, i, p) == [x]
    ensures EmitPart(e, i, p).1 == PieceEvents(plays, x, last == Some(x.kind))
    ensures TracksAs(EmitPart(e, i, p).0, Extended(plays, x, last == Some(x.kind)), Some(x.kind))
  {
  }

  lemma EmitPartEvents(e: Emitter, i: nat, p: ChatPart, log: seq<Piece>, x: Piece)
    requires Tracks(e, log) && i <= |e.sent| && Unsent(e, i, p) && PieceOf(e, i, p) == [x]
    ensures EmitPart(e, i, p).1 == PieceEvents(Group(log), x, LastKind(log) == Some(x.kind))
    ensures Tracks(EmitPart(e, i, p).0, log + [x])
  {
    TracksForm(e, log);
    EmitForm(e, i, p, Group(log), LastKind(log), x);
    GroupSnoc(log, x);
    TracksForm(EmitPart(e, i, p).0, log + [x]);
  }

  /** The events of one part extend the open script by the piece. */
  lemma EmitPartTells(e: Emitter, i: nat, p: ChatPart, log: seq<Piece>)
    requires Tracks(e, log) && i <= |e.sent|
    ensures Tracks(EmitPart(e, i, p).0, log + PieceOf(e, i, p))
    ensures OpenScript(Group(log + PieceOf(e, i, p))) == OpenScript(Group(log)) + EmitPart(e, i, p).1
  {
    if !Unsent(e, i, p) {
      assert log + [] == log;
    } else {
      var x := PieceOf(e, i, p)[0];
      assert PieceOf(e, i, p) == [x];
      EmitPartEvents(e, i, p, log, x);
      GroupSnoc(log, x);
      ExtendedScript(Group(log), x, LastKind(log) == Some(x.kind));
    }
  }

  lemma SameBlock(plays: seq<Play>, d: A.BlockDelta)
    requires plays != []
    ensures var n := |plays| - 1;
      OpenScript(plays[n := plays[n].(deltas := plays[n].deltas + [d])])
        == OpenScript(plays) + [A.BlockDeltaEvent(n, d)]
  {
    var n := |plays| - 1;
    assert plays[n := plays[n].(deltas := plays[n].deltas + [d])][..n] == plays[..n];
    assert DeltaEvents(n, plays[n].deltas + [d]) == DeltaEvents(n, plays[n].deltas) + [A.BlockDeltaEvent(n, d)];
  }

  lemma CloseBlock(plays: seq<Play>)
    ensures Script(plays) == OpenScript(plays) + if plays == [] then [] else [A.BlockStop(|plays| - 1)]
  {
    if plays != [] {
      var n := |plays| - 1;
      var before, opening := Script(plays[..n]), [A.BlockStart(n, plays[n].start)];
      var deltas := DeltaEvents(n, plays[n].deltas);
      Regroup(before, opening, deltas);
      Regroup(before, opening + deltas, [A.BlockStop(n)]);
    }
  }

  lemma FirstDelta(plays: seq<Play>, b: A.Block, d: A.BlockDelta)
    ensures OpenScript(plays + [Play(b, [d])]) ==
      (Script(plays) + [A.BlockStart(|plays|, b)]) + [A.BlockDeltaEvent(|plays|, d)]
  {
    assert (plays + [Play(b, [d])])[..|plays|] == plays;
    assert DeltaEvents(|plays|, [d]) == [A.BlockDeltaEvent(|plays|, d)];
  }

  lemma PutTogether<T>(a: seq<T>, b: seq<T>, x: T, y: T)
    ensures ((a + b) + [x]) + [y] == a + (b + [x, y])
  {
  }

  lemma NextBlock(plays: seq<Play>, b: A.Block, d: A.BlockDelta)
    ensures OpenScript(plays + [Play(b, [d])]) ==
      OpenScript(plays) + ((if plays == [] then [] else [A.BlockStop(|plays| - 1)]) + [A.BlockStart(|plays|, b),
          A.BlockDeltaEvent(|plays|, d)])
  {
    CloseBlock(plays);
    FirstDelta(plays, b, d);
    PutTogether(OpenScript(plays), if plays == [] then [] else [A.BlockStop(|plays| - 1)], A.BlockStart(|plays|, b),
        A.BlockDeltaEvent(|plays|, d));
  }

  lemma EmitPartSent(e: Emitter, i: nat, p: ChatPart)
    requires i <= |e.sent|
    ensures |EmitPart(e, i, p).0.sent| == if i == |e.sent| then i + 1 else |e.sent|
  {
  }

  lemma EmitPartsStep(f: Emitter, n: nat, p: ChatPart, log: seq<Piece>, pieces: seq<Piece>, open: seq<Event>,
      events: seq<Event>)
    requires n <= |f.sent| && Tells(f, log, pieces, open, events)
    ensures Tells(EmitPart(f, n, p).0, log, pieces + PieceOf(f, n, p), open, events + EmitPart(f, n, p).1)
  {
    EmitPartTells(f, n, p, log + pieces);
    Regroup(log, pieces, PieceOf(f, n, p));
    Regroup(open, events, EmitPart(f, n, p).1);
  }

  /** The emitter stands where the pieces after the log have put it, and their events extend the open script. */
  predicate Tells(f: Emitter, log: seq<Piece>, pieces: seq<Piece>, open: seq<Event>, events: seq<Event>) {
    Tracks(f, log + pieces) && OpenScript(Group(log + pieces)) == open + events
  }

  lemma EmitPartsForm(e: Emitter, parts: seq<ChatPart>, f: Emitter, events: seq<Event>)
    requires parts != [] && EmitParts(e, parts[..|parts| - 1]) == (f, events)
    ensures var n := |parts| - 1;
      && EmitParts(e, parts) == (EmitPart(f, n, parts[n]).0, events + EmitPart(f, n, parts[n]).1)
      && PiecesOf(e, parts) == PiecesOf(e, parts[..n]) + PieceOf(f, n, parts[n])
  {
  }

  lemma {:induction false} EmitPartsTells(e: Emitter, parts: seq<ChatPart>, log: seq<Piece>, open: seq<Event>)
    requires Tracks(e, log) && open == OpenScript(Group(log))
    ensures |EmitParts(e, parts).0.sent| == if |parts| > |e.sent| then |parts| else |e.sent|
    ensures Tells(EmitParts(e, parts).0, log, PiecesOf(e, parts), open, EmitParts(e, parts).1)
  {
    if parts == [] {
      assert log + [] == log;
      assert open + [] == open;
    } else {
      var front, p := parts[..|parts| - 1], parts[|parts| - 1];
      EmitPartsTells(e, front, log, open);
      var f, events := EmitParts(e, front).0, EmitParts(e, front).1;
      EmitPartSent(f, |front|, p);
      EmitPartsStep(f, |front|, p, log, PiecesOf(e, front), open, events);
      EmitPartsForm(e, parts, f, events);
    }
  }

  /** Whatever has been told so far is a message start followed by the open script of the log. */
  lemma {:induction false} TraceSoFar(id: string, h: History)
    ensures Tracks(EmitterAfter(h), Log(h))
    ensures EventsOf(id, h) == if h == [] then [] else [A.MessageStart(id, false)] + OpenScript(Group(Log(h)))
  {
    if h != [] {
      var front := h[..|h| - 1];
      TraceSoFar(id, front);
      var e := EmitterAfter(front).(started := true);
      EmitPartsTells(e, h[|front|], Log(front), OpenScript(Group(Log(front))));
      TraceSnoc([A.MessageStart(id, false)], EventsOf(id, front), OpenScript(Group(Log(front))),
          EmitParts(e, h[|front|]).1, front == []);
    }
  }

  lemma TraceSnoc(start: seq<Event>, events: seq<Event>, script: seq<Event>, more: seq<Event>, first: bool)
    requires events == if first then [] else start + script
    requires first ==> script == []
    ensures events + ((if first then start else []) + more) == start + (script + more)
  {
    if !first {
      assert [] + more == more;
    }
  }

  // ---- The end of the trace -------------------------------------------------------------------------------

  function ToolPlay(p: ChatPart): Play {
    Play(A.Block(A.ToolBlock, p.callId, p.name, "", "", "", "", "{}"),
        [A.BlockDelta(A.InputDelta, "", "", "", RawInput(p))])
  }

  function ToolPlays(parts: seq<ChatPart>): seq<Play> {
    if parts == [] then []
    else
      ToolPlays(parts[..|parts| - 1]) +
      if parts[|parts| - 1].kind == ToolPart then [ToolPlay(parts[|parts| - 1])] else []
  }

  predicate TailIs(plays: seq<Play>, tools: seq<Play>, tail: seq<Event>, count: nat) {
    |tools| == count && Script(plays + tools) == Script(plays) + tail
  }

  lemma {:induction false} ToolTailPlays(plays: seq<Play>, parts: seq<ChatPart>)
    ensures TailIs(plays, ToolPlays(parts), ToolTail(parts, |plays|), ToolCount(parts))
  {
    if parts == [] {
      assert plays + [] == plays;
    } else {
      var front, p := parts[..|parts| - 1], parts[|parts| - 1];
      ToolTailPlays(plays, front);
      if p.kind == ToolPart {
        ToolSnoc(plays, ToolPlays(front), ToolTail(front, |plays|), p);
      } else {
        SameTail(plays, parts);
      }
    }
  }

  lemma SameTail(plays: seq<Play>, parts: seq<ChatPart>)
    requires parts != [] && parts[|parts| - 1].kind != ToolPart
    ensures ToolPlays(parts) == ToolPlays(parts[..|parts| - 1])
      && ToolTail(parts, |plays|) == ToolTail(parts[..|parts| - 1], |plays|)
    ensures ToolCount(parts) == ToolCount(parts[..|parts| - 1])
  {
  }

  lemma ToolSnoc(plays: seq<Play>, tools: seq<Play>, tail: seq<Event>, p: ChatPart)
    requires Script(plays + tools) == Script(plays) + tail
    ensures Script(plays + (tools + [ToolPlay(p)])) == Script(plays) + (tail + ToolEvents(p, |plays| + |tools|))
  {
    Regroup(plays, tools, [ToolPlay(p)]);
    ScriptSnoc(plays + tools, p);
    Regroup(Script(plays), tail, ToolEvents(p, |plays + tools|));
  }

  lemma ScriptSnoc(all: seq<Play>, p: ChatPart)
    ensures Script(all + [ToolPlay(p)]) == Script(all) + ToolEvents(p, |all|)
  {
    ToolPlayEvents(p, |all|);
    assert (all + [ToolPlay(p)])[..|all|] == all;
  }

  lemma ToolPlayEvents(p: ChatPart, n: nat)
    ensures PlayEvents(n, ToolPlay(p)) == ToolEvents(p, n)
  {
    assert DeltaEvents(n, ToolPlay(p).deltas) == [A.BlockDeltaEvent(n, ToolPlay(p).deltas[0])];
  }

  /** Every finished trace is exactly one message played block by block: blocks are numbered 0, 1, 2 and so on, each is
      stopped before the next starts, and all are stopped before the stop reason. */
  lemma TraceIsWhole(id: string, h: History, parts: seq<ChatPart>, reason: A.StopReason)
    requires h != []
    ensures EventsOf(id, h) + Closing(EmitterAfter(h).(started := true), parts, reason) ==
      Whole(id, Group(Log(h)) + ToolPlays(parts), reason)
  {
    TraceSoFar(id, h);
    CloseBlock(Group(Log(h)));
    ToolTailPlays(Group(Log(h)), parts);
    if Log(h) != [] {
      GroupNonempty(Log(h));
    }
    TraceEnds(id, Group(Log(h)), ToolPlays(parts), ToolTail(parts, EmitterAfter(h).nextIndex), reason);
  }

  lemma TraceEnds(id: string, plays: seq<Play>, tools: seq<Play>, tail: seq<Event>, reason: A.StopReason)
    requires Script(plays) == OpenScript(plays) + if plays == [] then [] else [A.BlockStop(|plays| - 1)]
    requires Script(plays + tools) == Script(plays) + tail
    ensures [A.MessageStart(id, false)] + OpenScript(plays)
      + ((if plays != [] then [A.BlockStop(|plays| - 1)] else []) + tail + [A.MessageDelta(reason), A.MessageStop])
      == Whole(id, plays + tools, reason)
  {
  }
}
