/** The parts of a Chat answer as its frames arrive: one part each for reasoning, text and refusal, one per tool. */
module ChatParts {
  import opened Outcomes
  import opened ChatWire
  import opened Sums

  datatype PartKind = ReasoningPart | MessagePart | RefusalPart | ToolPart

  datatype ChatPart = ChatPart(kind: PartKind, text: string, callId: string, name: string, arguments: string)

  /** A fragment of a tool call; `isFunction` is false for any other declared type. */
  datatype CallDelta = CallDelta(index: int, isFunction: bool, id: string, name: string, arguments: string)

  datatype FinishField = NoFinishField | Known(finish: Finish) | UnknownFinish

  datatype Frame =
    | NoChoice(id: string)
    | ManyChoices
    | Choice(id: string, index: int, content: string, reasoning: string, alias: string, refusal: string,
        calls: seq<CallDelta>, finish: FinishField)

  datatype Upstream = Upstream(id: string, finish: Option<Finish>, size: nat, parts: seq<ChatPart>,
      slots: map<PartKind, nat>, tools: map<int, nat>)

  const EMPTY_UPSTREAM := Upstream("", None, 0, [], map[], map[])

  datatype ChatError = BadFrame | IdChanged | NoChoiceError | LateContent | LimitExceeded | BadCall | CallIdChanged
    | DuplicateCallId | NameChanged | BadFinish | FinishChanged

  /** `appendText`: a kind's part is created with its first text. */
  function AppendText(u: Upstream, kind: PartKind, value: string): Upstream {
    if value == "" then u
    else if kind in u.slots && u.slots[kind] < |u.parts| then
      var i := u.slots[kind];
      u.(parts := u.parts[i := u.parts[i].(text := u.parts[i].text + value)])
    else u.(parts := u.parts + [ChatPart(kind, value, "", "", "")], slots := u.slots[kind := |u.parts|])
  }

  predicate IdTaken(parts: seq<ChatPart>, except: nat, id: string) {
    exists k :: 0 <= k < |parts| && k != except && parts[k].callId == id
  }

  /** The part of a tool, created at its first fragment. */
  function Located(u: Upstream, index: int): Upstream {
    if index in u.tools then u
    else u.(parts := u.parts + [ChatPart(ToolPart, "", "", "", "")], tools := u.tools[index := |u.parts|])
  }

  function AddCall(u: Upstream, index: int, call: CallDelta): Result<Upstream, ChatError> {
    if index < 0 || index >= 4096 || |call.id| > 256 || |call.name| > 256 || !call.isFunction then Err(BadCall)
    else
      var v := Located(u, index);
      var at := v.tools[index];
      if at >= |v.parts| then Err(BadCall)
      else
        var p := v.parts[at];
        if call.id != "" && p.callId != "" && p.callId != call.id then Err(CallIdChanged)
        else if call.id != "" && IdTaken(v.parts, at, call.id) then Err(DuplicateCallId)
        else if call.name != "" && p.name != "" && p.name != call.name then Err(NameChanged)
        else
          var id := if call.id != "" then call.id else p.callId;
          var name := if call.name != "" then call.name else p.name;
          Ok(v.(parts := v.parts[at := ChatPart(p.kind, p.text, id, name, p.arguments + call.arguments)]))
  }

  /** The calls of one frame in order; a complete answer numbers them itself. */
  function AddCalls(u: Upstream, calls: seq<CallDelta>, stream: bool): Result<Upstream, ChatError> {
    if calls == [] then Ok(u)
    else match AddCalls(u, calls[..|calls| - 1], stream)
      case Err(e) => Err(e)
      case Ok(v) =>
        var last := calls[|calls| - 1];
        AddCall(v, if stream then last.index else |calls| - 1, last)
  }

  function CallTotal(calls: seq<CallDelta>): nat {
    if calls == [] then 0 else CallTotal(calls[..|calls| - 1]) + CallSize(calls[|calls| - 1])
  }

  function CallSize(c: CallDelta): nat {
    |c.arguments| + |c.id| + |c.name|
  }

  function Thought(f: Frame): string
    requires f.Choice?
  {
    if f.reasoning == "" then f.alias else f.reasoning
  }

  function TextSize(f: Frame): nat
    requires f.Choice?
  {
    |Thought(f)| + |f.content| + |f.refusal|
  }

  function Texts(u: Upstream, f: Frame): Upstream
    requires f.Choice?
  {
    AppendText(AppendText(AppendText(u, ReasoningPart, Thought(f)), MessagePart, f.content), RefusalPart, f.refusal)
  }

  predicate HasContent(f: Frame)
    requires f.Choice?
  {
    f.content != "" || f.reasoning != "" || f.alias != "" || f.refusal != "" || f.calls != []
  }

  function SetFinishField(u: Upstream, field: FinishField): Result<Upstream, ChatError> {
    match field
    case NoFinishField => Ok(u)
    case UnknownFinish => Err(BadFinish)
    case Known(finish) =>
      if u.finish.Some? && u.finish != Some(finish) then Err(FinishChanged) else Ok(u.(finish := Some(finish)))
  }

  function Admit(u: Upstream, f: Frame, stream: bool): Result<Upstream, ChatError>
    requires f.Choice?
  {
    if f.index != 0 then Err(BadFrame)
    else if u.finish.Some? && HasContent(f) then Err(LateContent)
    else if u.size + TextSize(f) + CallTotal(f.calls) > MAX_STREAM || |u.parts| + |f.calls| > MAX_PARTS
      then Err(LimitExceeded)
    else match AddCalls(Texts(u, f).(size := u.size + TextSize(f) + CallTotal(f.calls)), f.calls, stream)
      case Err(e) => Err(e)
      case Ok(v) =>
        match SetFinishField(v, f.finish)
        case Err(e) => Err(e)
        case Ok(w) => if |w.parts| > MAX_PARTS then Err(LimitExceeded) else Ok(w)
  }

  /** `observe` on the upstream's answer. */
  function Observe(u: Upstream, f: Frame, stream: bool): Result<Upstream, ChatError> {
    if f.ManyChoices? then Err(BadFrame)
    else if f.id != "" && u.id != "" && u.id != f.id then Err(IdChanged)
    else
      var v := if f.id != "" then u.(id := f.id) else u;
      if f.NoChoice? then if stream then Ok(v) else Err(NoChoiceError) else Admit(v, f, stream)
  }

  // ---- What every accepted frame keeps --------------------------------------------------------------------

  function Weight(p: ChatPart): nat {
    |p.text| + |p.callId| + |p.name| + |p.arguments|
  }

  function Weights(parts: seq<ChatPart>): seq<int> {
    seq(|parts|, i requires 0 <= i < |parts| => Weight(parts[i]))
  }

  predicate PartOk(p: ChatPart) {
    if p.kind == ToolPart then p.text == "" && |p.callId| <= 256 && |p.name| <= 256
    else p.text != "" && p.callId == "" && p.name == "" && p.arguments == ""
  }

  /** Each text kind has one part and each tool its own. */
  ghost predicate Shaped(u: Upstream) {
    && (forall i :: 0 <= i < |u.parts| ==> PartOk(u.parts[i]))
    && (forall kind :: kind in u.slots ==>
         kind != ToolPart && u.slots[kind] < |u.parts| && u.parts[u.slots[kind]].kind == kind)
    && (forall i :: 0 <= i < |u.parts| && u.parts[i].kind != ToolPart ==>
         u.parts[i].kind in u.slots && u.slots[u.parts[i].kind] == i)
    && (forall index :: index in u.tools ==> u.tools[index] < |u.parts| && u.parts[u.tools[index]].kind == ToolPart)
    && (forall i, k :: i in u.tools && k in u.tools && i != k ==> u.tools[i] != u.tools[k])
  }

  predicate DistinctCalls(parts: seq<ChatPart>) {
    forall i, k :: 0 <= i < k < |parts| && parts[i].callId != "" ==> parts[i].callId != parts[k].callId
  }

  /** Parts are well shaped, tool identities distinct, and the counted size covers what the parts hold. */
  ghost predicate WellFormed(u: Upstream) {
    Shaped(u) && DistinctCalls(u.parts) && Sum(Weights(u.parts)) <= u.size <= MAX_STREAM
  }

  /** Parts are only added, and an existing part keeps its kind and identity while its text and arguments only grow. */
  predicate Grows(a: seq<ChatPart>, b: seq<ChatPart>) {
    |a| <= |b| && forall i :: 0 <= i < |a| ==> GrowsPart(a[i], b[i])
  }

  predicate GrowsPart(p: ChatPart, q: ChatPart) {
    && p.kind == q.kind && p.text <= q.text && p.arguments <= q.arguments
    && (p.callId != "" ==> q.callId == p.callId) && (p.name != "" ==> q.name == p.name)
  }

  lemma WeightsUpdate(parts: seq<ChatPart>, i: nat, p: ChatPart)
    requires i < |parts|
    ensures Sum(Weights(parts[i := p])) == Sum(Weights(parts)) - Weight(parts[i]) + Weight(p)
  {
    assert Weights(parts[i := p]) == Weights(parts)[i := Weight(p)];
    SumUpdate(Weights(parts), i, Weight(p));
  }

  lemma WeightsAppend(parts: seq<ChatPart>, p: ChatPart)
    ensures Sum(Weights(parts + [p])) == Sum(Weights(parts)) + Weight(p)
  {
    assert Weights(parts + [p]) == Weights(parts) + [Weight(p)];
    SumAppend(Weights(parts), Weight(p));
  }

  lemma UpdateShaped(u: Upstream, i: nat, q: ChatPart)
    requires Shaped(u) && i < |u.parts| && PartOk(q) && q.kind == u.parts[i].kind
    ensures Shaped(u.(parts := u.parts[i := q]))
  {
  }

  lemma AddedShaped(u: Upstream, v: Upstream, q: ChatPart, index: int)
    requires Shaped(u) && PartOk(q) && v.parts == u.parts + [q]
    requires if q.kind == ToolPart then index !in u.tools && v.slots == u.slots
      && v.tools == u.tools[index := |u.parts|]
             else q.kind !in u.slots && v.slots == u.slots[q.kind := |u.parts|] && v.tools == u.tools
    ensures Shaped(v)
  {
  }

  lemma AppendShaped(u: Upstream, kind: PartKind, value: string)
    requires Shaped(u) && kind != ToolPart
    ensures Shaped(AppendText(u, kind, value))
  {
    if value != "" {
      if kind in u.slots {
        UpdateShaped(u, u.slots[kind], u.parts[u.slots[kind]].(text := u.parts[u.slots[kind]].text + value));
      } else {
        AddedShaped(u, AppendText(u, kind, value), ChatPart(kind, value, "", "", ""), 0);
      }
    }
  }

  lemma LocatedShaped(u: Upstream, index: int)
    requires Shaped(u)
    ensures Shaped(Located(u, index)) && index in Located(u, index).tools
  {
    if index !in u.tools {
      AddedShaped(u, Located(u, index), ChatPart(ToolPart, "", "", "", ""), index);
    }
  }

  lemma CallShaped(u: Upstream, index: int, call: CallDelta)
    requires Shaped(u) && AddCall(u, index, call).Ok?
    ensures Shaped(AddCall(u, index, call).value)
  {
    LocatedShaped(u, index);
    var l := Located(u, index);
    var q := AddCall(u, index, call).value.parts[l.tools[index]];
    assert l.parts[l.tools[index]].kind == ToolPart;
    UpdateShaped(l, l.tools[index], q);
  }

  /** One part changes within its kind. */
  lemma UpdateKeeps(u: Upstream, i: nat, q: ChatPart, size: nat)
    requires WellFormed(u) && i < |u.parts| && PartOk(q) && GrowsPart(u.parts[i], q)
    requires q.callId != "" ==> !IdTaken(u.parts, i, q.callId)
    requires u.size + Weight(q) - Weight(u.parts[i]) <= size <= MAX_STREAM
    ensures WellFormed(u.(parts := u.parts[i := q], size := size)) && Grows(u.parts, u.parts[i := q])
  {
    WeightsUpdate(u.parts, i, q);
    UpdateShaped(u, i, q);
    UpdateDistinct(u.parts, i, q);
  }

  lemma UpdateDistinct(parts: seq<ChatPart>, i: nat, q: ChatPart)
    requires DistinctCalls(parts) && i < |parts| && (q.callId != "" ==> !IdTaken(parts, i, q.callId))
    ensures DistinctCalls(parts[i := q])
  {
    if q.callId != "" {
      assert forall k :: 0 <= k < |parts| && k != i ==> parts[k].callId != q.callId;
    }
  }

  /** A part is added for a text kind that had none, or for a new tool. */
  lemma AddedKeeps(u: Upstream, v: Upstream, q: ChatPart, index: int)
    requires WellFormed(u) && PartOk(q) && q.callId == "" && v.parts == u.parts + [q]
      && u.size + Weight(q) <= v.size <= MAX_STREAM
    requires if q.kind == ToolPart then index !in u.tools && v.slots == u.slots
      && v.tools == u.tools[index := |u.parts|]
             else q.kind !in u.slots && v.slots == u.slots[q.kind := |u.parts|] && v.tools == u.tools
    ensures WellFormed(v) && Grows(u.parts, v.parts)
  {
    WeightsAppend(u.parts, q);
    AddedShaped(u, v, q, index);
  }

  lemma NoCallTaken(parts: seq<ChatPart>, i: nat)
    requires DistinctCalls(parts) && i < |parts| && parts[i].callId != ""
    ensures !IdTaken(parts, i, parts[i].callId)
  {
    forall k | 0 <= k < |parts| && k != i ensures parts[k].callId != parts[i].callId {
      if k < i {
        assert parts[k].callId != "" ==> parts[k].callId != parts[i].callId;
      } else {
        assert parts[i].callId != parts[k].callId;
      }
    }
  }

  lemma AppendTextKeeps(u: Upstream, kind: PartKind, value: string, v: Upstream)
    requires WellFormed(u) && kind != ToolPart && u.size + |value| <= MAX_STREAM
    requires v == AppendText(u, kind, value).(size := u.size + |value|)
    ensures WellFormed(v) && Grows(u.parts, v.parts)
  {
    if value != "" {
      if kind in u.slots {
        var i := u.slots[kind];
        UpdateKeeps(u, i, u.parts[i].(text := u.parts[i].text + value), u.size + |value|);
      } else {
        AddedKeeps(u, v, ChatPart(kind, value, "", "", ""), 0);
      }
    }
  }

  lemma AddCallKeeps(u: Upstream, index: int, call: CallDelta, v: Upstream)
    requires WellFormed(u) && u.size + CallSize(call) <= MAX_STREAM && AddCall(u, index, call).Ok?
    requires v == AddCall(u, index, call).value.(size := u.size + CallSize(call))
    ensures WellFormed(v) && Grows(u.parts, v.parts)
  {
    var l := Located(u, index);
    if index !in u.tools {
      AddedKeeps(u, l, ChatPart(ToolPart, "", "", "", ""), index);
    }
    var at := l.tools[index];
    var p, q := l.parts[at], v.parts[at];
    assert p.kind == ToolPart && q.kind == ToolPart;
    if call.id == "" && p.callId != "" {
      NoCallTaken(l.parts, at);
    }
    UpdateKeeps(l, at, q, v.size);
    GrowsOn(u.parts, l.parts, v.parts);
  }

  lemma GrowsOn(a: seq<ChatPart>, b: seq<ChatPart>, c: seq<ChatPart>)
    requires Grows(a, b) && Grows(b, c)
    ensures Grows(a, c)
  {
    forall i | 0 <= i < |a| ensures GrowsPart(a[i], c[i]) {
      assert GrowsPart(a[i], b[i]) && GrowsPart(b[i], c[i]);
    }
  }

  lemma GrowsSelf(a: seq<ChatPart>)
    ensures Grows(a, a)
  {
  }

  /** The size field plays no part in adding a call. */
  lemma AddCallSize(v: Upstream, w: Upstream, index: int, call: CallDelta)
    requires w == v.(size := w.size)
    ensures AddCall(w, index, call).Ok? <==> AddCall(v, index, call).Ok?
    ensures AddCall(v, index, call).Ok? ==>
      AddCall(w, index, call).value == AddCall(v, index, call).value.(size := w.size)
  {
    assert Located(w, index) == Located(v, index).(size := w.size);
  }

  lemma {:induction false} AddCallsSize(v: Upstream, w: Upstream, calls: seq<CallDelta>, stream: bool)
    requires w == v.(size := w.size)
    ensures AddCalls(w, calls, stream).Ok? <==> AddCalls(v, calls, stream).Ok?
    ensures AddCalls(v, calls, stream).Ok? ==>
      AddCalls(w, calls, stream).value == AddCalls(v, calls, stream).value.(size := w.size)
  {
    if calls != [] {
      var front, last := calls[..|calls| - 1], calls[|calls| - 1];
      AddCallsSize(v, w, front, stream);
      if AddCalls(v, front, stream).Ok? {
        AddCallSize(AddCalls(v, front, stream).value, AddCalls(w, front, stream).value,
            if stream then last.index else |calls| - 1, last);
      }
    }
  }

  lemma {:induction false} AddCallsKeeps(u: Upstream, calls: seq<CallDelta>, stream: bool, v: Upstream)
    requires WellFormed(u) && u.size + CallTotal(calls) <= MAX_STREAM && AddCalls(u, calls, stream).Ok?
    requires v == AddCalls(u, calls, stream).value.(size := u.size + CallTotal(calls))
    ensures WellFormed(v) && Grows(u.parts, v.parts)
  {
    if calls == [] {
      GrowsSelf(u.parts);
    } else {
      var front, last := calls[..|calls| - 1], calls[|calls| - 1];
      var w := AddCalls(u, front, stream).value.(size := u.size + CallTotal(front));
      AddCallsKeeps(u, front, stream, w);
      var index := if stream then last.index else |calls| - 1;
      AddCallSize(AddCalls(u, front, stream).value, w, index, last);
      AddCallKeeps(w, index, last, v);
      GrowsOn(u.parts, w.parts, v.parts);
    }
  }

  lemma AppendTextSize(u: Upstream, kind: PartKind, value: string, size: nat)
    ensures AppendText(u.(size := size), kind, value) == AppendText(u, kind, value).(size := size)
  {
  }

  lemma TextsKeeps(u: Upstream, f: Frame, v: Upstream)
    requires f.Choice? && WellFormed(u) && u.size + TextSize(f) <= MAX_STREAM
    requires v == Texts(u, f).(size := u.size + TextSize(f))
    ensures WellFormed(v) && Grows(u.parts, v.parts)
  {
    var plain := AppendText(u, ReasoningPart, Thought(f));
    var a := plain.(size := u.size + |Thought(f)|);
    AppendTextKeeps(u, ReasoningPart, Thought(f), a);
    AppendTextSize(plain, MessagePart, f.content, a.size);
    var b := AppendText(plain, MessagePart, f.content).(size := a.size + |f.content|);
    AppendTextKeeps(a, MessagePart, f.content, b);
    AppendTextSize(AppendText(plain, MessagePart, f.content), RefusalPart, f.refusal, b.size);
    AppendTextKeeps(b, RefusalPart, f.refusal, v);
    GrowsOn(u.parts, a.parts, b.parts);
    GrowsOn(u.parts, b.parts, v.parts);
  }

  lemma AdmitKeeps(u: Upstream, f: Frame, stream: bool)
    requires f.Choice? && WellFormed(u) && Admit(u, f, stream).Ok?
    ensures WellFormed(Admit(u, f, stream).value) && Grows(u.parts, Admit(u, f, stream).value.parts)
  {
    var v := Texts(u, f).(size := u.size + TextSize(f));
    TextsKeeps(u, f, v);
    var full := Texts(u, f).(size := u.size + TextSize(f) + CallTotal(f.calls));
    AddCallsSize(v, full, f.calls, stream);
    var w := AddCalls(full, f.calls, stream).value;
    AddCallsKeeps(v, f.calls, stream, w);
    GrowsOn(u.parts, v.parts, w.parts);
    AdmitEnds(u, f, stream, full, w);
  }

  lemma AdmitEnds(u: Upstream, f: Frame, stream: bool, full: Upstream, w: Upstream)
    requires f.Choice? && Admit(u, f, stream).Ok?
      && full == Texts(u, f).(size := u.size + TextSize(f) + CallTotal(f.calls))
    requires AddCalls(full, f.calls, stream) == Ok(w)
    ensures Admit(u, f, stream).value == w.(finish := Admit(u, f, stream).value.finish)
  {
  }

  /** Every accepted frame keeps the parts well formed and only lets them grow. */
  lemma ObserveKeeps(u: Upstream, f: Frame, stream: bool)
    requires WellFormed(u) && Observe(u, f, stream).Ok?
    ensures WellFormed(Observe(u, f, stream).value) && Grows(u.parts, Observe(u, f, stream).value.parts)
  {
    var v := if !f.ManyChoices? && f.id != "" then u.(id := f.id) else u;
    GrowsSelf(u.parts);
    assert WellFormed(v);
    if f.Choice? {
      AdmitKeeps(v, f, stream);
    }
  }
}
