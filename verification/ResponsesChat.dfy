/** A Responses stream turned into a Chat completion stream. */
module ResponsesChat {
  import opened Outcomes
  import opened ChatWire
  import opened Sequences

  const MAX_INDEX := 4096

  datatype Field = ContentField | RefusalField | ReasoningField

  /** Where a stretch of text belongs; the source keys its map by the equivalent strings. */
  datatype Key = TextKey(field: Field, output: nat, index: nat) | RawKey(output: nat, index: nat) | ToolKey(output: nat)

  datatype PartType = OutputText | RefusalType | OtherType

  datatype Part = Part(kind: PartType, text: string, refusal: string)

  datatype Item =
    | MessageItem(content: seq<Part>)
    | ReasoningItem(summary: seq<string>)
    | ToolItem(custom: bool, callId: string, name: string, arguments: string, input: string)
    | OtherItem

  datatype Tool = Tool(custom: bool, callId: string, name: string)

  datatype Status = Completed | IncompleteLength | IncompleteFilter | IncompleteOther

  datatype Response = Response(id: string, status: Status, output: Option<seq<Item>>, usage: bool)

  datatype Source = OutputSource | RefusalSource | SummarySource | RawSource

  datatype EventKind = TextEvent(source: Source, full: bool) | ItemEvent | InputEvent(full: bool) | Terminal | OtherKind

  datatype Event = Event(kind: EventKind, outputIndex: int, contentIndex: int, summaryIndex: int,
    delta: string, arguments: string, input: string, text: string, refusal: string, item: Item,
      response: Option<Response>)

  datatype State = State(id: string, role: bool, text: map<Key, string>, tools: map<nat, Tool>, toolIndex: map<nat,
      nat>, size: nat)

  const EMPTY_STATE := State("", false, map[], map[], map[], 0)

  /** One chunk, with the key its text belongs to. */
  datatype Emission =
    | RoleSent
    | Delta(key: Key, index: nat, custom: bool, text: string)
    | Opened(output: nat, index: nat, tool: Tool)
    | Finished(finish: Finish)
    | UsageSent
    | DoneSent

  datatype StreamError = BadIndex | NoCreation | TooManyParts | ContentChanged | TooLong | BadTool | IdentityChanged
    | TooManyTools | ArgumentsChanged | Unsupported | NoCall | NoOutput

  /** The stream's state and everything it has written. */
  datatype Work = Work(s: State, out: seq<Emission>)

  function Lookup(text: map<Key, string>, key: Key): string {
    if key in text then text[key] else ""
  }

  function Tail(value: string, previous: string): string
    requires previous <= value
  {
    value[|previous|..]
  }

  /** Text gains a suffix, which is counted, stored and, when not empty, sent. */
  function Grow(w: Work, key: Key, suffix: string, index: nat, custom: bool): Work {
    Work(w.s.(text := w.s.text[key := Lookup(w.s.text, key) + suffix], size := w.s.size + |suffix|),
         if suffix == "" then w.out else w.out + [Delta(key, index, custom, suffix)])
  }

  /** The `text` closure. */
  function PutText(w: Work, key: Key, value: string, full: bool): Result<Work, StreamError> {
    var previous := Lookup(w.s.text, key);
    if key !in w.s.text && |w.s.text| >= MAX_PARTS then Err(TooManyParts)
    else if full && !(previous <= value) then Err(ContentChanged)
    else
      var suffix := if full then Tail(value, previous) else value;
      if w.s.size + |suffix| > MAX_STREAM then Err(TooLong) else Ok(Grow(w, key, suffix, 0, false))
  }

  function ToolOf(item: Item): Tool
    requires item.ToolItem?
  {
    Tool(item.custom, item.callId, item.name)
  }

  function ValueOf(item: Item): string
    requires item.ToolItem?
  {
    if item.custom then item.input else item.arguments
  }

  predicate Named(tool: Tool) {
    0 < |tool.callId| <= 256 && 0 < |tool.name| <= 256
  }

  /** A tool is announced once, with the next position. */
  function Announce(w: Work, output: nat, tool: Tool): Work {
    if output in w.s.tools then w
    else Work(w.s.(toolIndex := w.s.toolIndex[output := |w.s.tools|], tools := w.s.tools[output := tool]), w.out
      + [Opened(output, |w.s.tools|, tool)])
  }

  function IndexOf(s: State, output: nat): nat {
    if output in s.toolIndex then s.toolIndex[output] else 0
  }

  /** The `tool` closure. */
  function PutTool(w: Work, output: nat, tool: Tool, value: string): Result<Work, StreamError> {
    if !Named(tool) then Err(BadTool)
    else if output in w.s.tools && w.s.tools[output] != tool then Err(IdentityChanged)
    else if output !in w.s.tools && |w.s.tools| >= MAX_PARTS then Err(TooManyTools)
    else
      var v := Announce(w, output, tool);
      var previous := Lookup(v.s.text, ToolKey(output));
      if !(previous <= value) then Err(ArgumentsChanged)
      else if v.s.size + |Tail(value, previous)| > MAX_STREAM then Err(TooLong)
      else Ok(Grow(v, ToolKey(output), Tail(value, previous), IndexOf(v.s, output), tool.custom))
  }

  function PartField(p: Part): Field {
    if p.kind == RefusalType then RefusalField else ContentField
  }

  function PartText(p: Part): string {
    if p.kind == RefusalType then p.refusal else p.text
  }

  function PutParts(w: Work, output: nat, parts: seq<Part>): Result<Work, StreamError> {
    if parts == [] then Ok(w)
    else
      var n := |parts| - 1;
      match PutParts(w, output, parts[..n])
      case Err(e) => Err(e)
      case Ok(v) => PutText(v, TextKey(PartField(parts[n]), output, n), PartText(parts[n]), true)
  }

  function PutSummary(w: Work, output: nat, summary: seq<string>): Result<Work, StreamError> {
    if summary == [] then Ok(w)
    else
      var n := |summary| - 1;
      match PutSummary(w, output, summary[..n])
      case Err(e) => Err(e)
      case Ok(v) => PutText(v, TextKey(ReasoningField, output, n), summary[n], true)
  }

  /** The `item` closure. */
  function PutItem(w: Work, output: nat, item: Item): Result<Work, StreamError> {
    match item
    case ToolItem(_, _, _, _, _) => PutTool(w, output, ToolOf(item), ValueOf(item))
    case MessageItem(content) => PutParts(w, output, content)
    case ReasoningItem(summary) => PutSummary(w, output, summary)
    case OtherItem => Err(Unsupported)
  }

  function PutItems(w: Work, items: seq<Item>): Result<Work, StreamError> {
    if items == [] then Ok(w)
    else match PutItems(w, items[..|items| - 1])
      case Err(e) => Err(e)
      case Ok(v) => PutItem(v, |items| - 1, items[|items| - 1])
  }

  function FinishOf(status: Status, tools: bool): Finish {
    match status
    case IncompleteLength => Length
    case IncompleteFilter => ContentFilter
    case IncompleteOther => Stop
    case Completed => if tools then ToolCalls else Stop
  }

  /** The response's identity is taken and the role is sent once. */
  function Greet(w: Work, e: Event): Work {
    var s := if e.response.Some? then w.s.(id := e.response.value.id) else w.s;
    Work(s.(role := true), if s.role then w.out else w.out + [RoleSent])
  }

  predicate InRange(i: int) {
    0 <= i <= MAX_INDEX
  }

  function TextKeyOf(e: Event): Key
    requires e.kind.TextEvent? && InRange(e.outputIndex) && InRange(e.contentIndex) && InRange(e.summaryIndex)
  {
    match e.kind.source
    case OutputSource => TextKey(ContentField, e.outputIndex, e.contentIndex)
    case RefusalSource => TextKey(RefusalField, e.outputIndex, e.contentIndex)
    case SummarySource => TextKey(ReasoningField, e.outputIndex, e.summaryIndex)
    case RawSource => RawKey(e.outputIndex, e.contentIndex)
  }

  function TextValueOf(e: Event): string
    requires e.kind.TextEvent?
  {
    if !e.kind.full then e.delta else if e.kind.source == RefusalSource then e.refusal else e.text
  }

  /** What an input event says the tool's whole input is now. */
  function InputValueOf(s: State, e: Event): string
    requires e.kind.InputEvent? && InRange(e.outputIndex) && e.outputIndex in s.tools
  {
    if !e.kind.full then Lookup(s.text, ToolKey(e.outputIndex)) + e.delta
    else if s.tools[e.outputIndex].custom then e.input else e.arguments
  }

  function Finale(w: Work, r: Response, includeUsage: bool): Work {
    w.(out := w.out + [Finished(FinishOf(r.status, |w.s.tools| > 0))]
      + (if includeUsage && r.usage then [UsageSent] else []) + [DoneSent])
  }

  function Conclude(w: Work, r: Response, includeUsage: bool): Result<Work, StreamError>
    requires r.output.Some?
  {
    match PutItems(w, r.output.value)
    case Err(error) => Err(error)
    case Ok(v) => Ok(Finale(v, r, includeUsage))
  }

  predicate IndicesOk(e: Event) {
    InRange(e.outputIndex) && InRange(e.contentIndex) && InRange(e.summaryIndex)
  }

  /** The switch on the event's type, once the event is admitted. */
  function Apply(w: Work, e: Event, includeUsage: bool): Result<Work, StreamError>
    requires IndicesOk(e)
  {
    match e.kind
    case TextEvent(_, full) => PutText(w, TextKeyOf(e), TextValueOf(e), full)
    case ItemEvent => PutItem(w, e.outputIndex, e.item)
    case InputEvent(_) => if e.outputIndex !in w.s.tools then Err(NoCall)
      else PutTool(w, e.outputIndex, w.s.tools[e.outputIndex], InputValueOf(w.s, e))
    case Terminal =>
      if e.response.None? || e.response.value.output.None? then Err(NoOutput)
      else Conclude(w, e.response.value, includeUsage)
    case OtherKind => Ok(w)
  }

  /** `event`. */
  function Handle(w: Work, e: Event, includeUsage: bool): Result<Work, StreamError> {
    if !IndicesOk(e) then Err(BadIndex)
    else if (if e.response.Some? then e.response.value.id else w.s.id) == "" then Err(NoCreation)
    else Apply(Greet(w, e), e, includeUsage)
  }

  function HandleAll(events: seq<Event>, includeUsage: bool): Result<Work, StreamError> {
    if events == [] then Ok(Work(EMPTY_STATE, []))
    else match HandleAll(events[..|events| - 1], includeUsage)
      case Err(e) => Err(e)
      case Ok(w) => Handle(w, events[|events| - 1], includeUsage)
  }

  // ---- The one-shot conversion ----------------------------------------------------------------------------

  function PartsText(parts: seq<Part>, kind: PartType): string {
    if parts == [] then ""
    else
      PartsText(parts[..|parts| - 1], kind) +
      if parts[|parts| - 1].kind == kind then PartText(parts[|parts| - 1]) else ""
  }

  function Concat(texts: seq<string>): string {
    if texts == [] then "" else Concat(texts[..|texts| - 1]) + texts[|texts| - 1]
  }

  function ItemText(item: Item, field: Field): string {
    match item
    case MessageItem(content) => if field == ContentField then PartsText(content, OutputText)
      else if field == RefusalField then PartsText(content, RefusalType) else ""
    case ReasoningItem(summary) => if field == ReasoningField then Concat(summary) else ""
    case _ => ""
  }

  function ItemsText(items: seq<Item>, field: Field): string {
    if items == [] then "" else ItemsText(items[..|items| - 1], field) + ItemText(items[|items| - 1], field)
  }

  function ItemsTools(items: seq<Item>): seq<ToolCall> {
    if items == [] then []
    else
      var item := items[|items| - 1];
      ItemsTools(items[..|items| - 1]) +
      if item.ToolItem? then [ToolCall(item.callId, item.custom, item.name, ValueOf(item))] else []
  }

  /** `responsesToChat`, for items it supports. */
  function OneShot(items: seq<Item>, status: Status): Message {
    var finish := FinishOf(status, ItemsTools(items) != []);
    Message(ItemsText(items, ContentField), ItemsText(items, ReasoningField), ItemsText(items, RefusalField),
        ItemsTools(items), Some(finish))
  }

  /** The stream converter as the object the source updates; `log` is everything it has written. */
  class ResponseChatStream {
    const includeUsage: bool
    var id: string
    var role: bool
    var text: map<Key, string>
    var tools: map<nat, Tool>
    var toolIndex: map<nat, nat>
    var size: nat
    ghost var log: seq<Emission>

    ghost function View(): Work
      reads this
    {
      Work(State(id, role, text, tools, toolIndex, size), log)
    }

    constructor (includeUsage: bool)
      ensures View() == Work(EMPTY_STATE, []) && this.includeUsage == includeUsage
    {
      this.includeUsage := includeUsage;
      id, role, text, tools, toolIndex, size, log := "", false, map[], map[], map[], 0, [];
    }

    method AddText(key: Key, given: string, full: bool) returns (r: Result<seq<Emission>, StreamError>)
      modifies this`text, this`size, this`log
      ensures match PutText(old(View()), key, given, full)
        case Ok(w) => r.Ok? && View() == w && log == old(log) + r.value
        case Err(e) => r == Err(e)
    {
      if key !in text && |text| >= MAX_PARTS {
        return Err(TooManyParts);
      }
      var previous := if key in text then text[key] else "";
      var value := given;
      if full {
        if !(previous <= value) {
          return Err(ContentChanged);
        }
        value := value[|previous|..];
      }
      size := size + |value|;
      if size > MAX_STREAM {
        return Err(TooLong);
      }
      text := text[key := previous + value];
      var out := if value == "" then [] else [Delta(key, 0, false, value)];
      log := log + out;
      r := Ok(out);
    }

    method AnnounceTool(output: nat, tool: Tool) returns (out: seq<Emission>)
      modifies this`tools, this`toolIndex, this`log
      ensures View() == Announce(old(View()), output, tool) && log == old(log) + out
    {
      out := [];
      if output !in tools {
        out := [Opened(output, |tools|, tool)];
        toolIndex := toolIndex[output := |tools|];
        tools := tools[output := tool];
        log := log + out;
      }
    }

    method GrowInput(output: nat, tool: Tool, value: string) returns (r: Result<seq<Emission>, StreamError>)
      modifies this`text, this`size, this`log
      ensures var v := old(View()); var previous := Lookup(v.s.text, ToolKey(output));
        if !(previous <= value) then r == Err(ArgumentsChanged)
        else if v.s.size + |Tail(value, previous)| > MAX_STREAM then r == Err(TooLong)
        else
          && r.Ok? && log == old(log) + r.value
          && View() == Grow(v, ToolKey(output), Tail(value, previous), IndexOf(v.s, output), tool.custom)
    {
      var key := ToolKey(output);
      var previous := if key in text then text[key] else "";
      if !(previous <= value) {
        return Err(ArgumentsChanged);
      }
      var suffix := value[|previous|..];
      size := size + |suffix|;
      if size > MAX_STREAM {
        return Err(TooLong);
      }
      assert previous + suffix == value;
      text := text[key := value];
      var out := if suffix == "" then [] else [Delta(key, if output in toolIndex then toolIndex[output] else 0,
          tool.custom, suffix)];
      log := log + out;
      r := Ok(out);
    }

    method AddTool(output: nat, tool: Tool, value: string) returns (r: Result<seq<Emission>, StreamError>)
      modifies this`text, this`tools, this`toolIndex, this`size, this`log
      ensures match PutTool(old(View()), output, tool, value)
        case Ok(w) => r.Ok? && View() == w && log == old(log) + r.value
        case Err(e) => r == Err(e)
    {
      if tool.callId == "" || tool.name == "" || |tool.callId| > 256 || |tool.name| > 256 {
        return Err(BadTool);
      }
      if output in tools && tools[output] != tool {
        return Err(IdentityChanged);
      }
      if output !in tools && |tools| >= MAX_PARTS {
        return Err(TooManyTools);
      }
      var out := AnnounceTool(output, tool);
      var more := GrowInput(output, tool, value);
      if more.Err? {
        return more;
      }
      r := Ok(out + more.value);
    }

    method AddParts(output: nat, parts: seq<Part>) returns (r: Result<seq<Emission>, StreamError>)
      modifies this
      ensures match PutParts(old(View()), output, parts)
        case Ok(w) => r.Ok? && View() == w && log == old(log) + r.value
        case Err(e) => r == Err(e)
    {
      var out := [];
      ghost var before := View();
      assert parts[..0] == [];
      for i := 0 to |parts|
        invariant PartsPut(before, output, parts, i, View(), out)
      {
        PartsNext(before, output, parts, i, View(), out);
        ghost var base := log;
        var more := AddText(TextKey(PartField(parts[i]), output, i), PartText(parts[i]), true);
        if more.Err? {
          FailedParts(before, output, parts, i + 1);
          return more;
        }
        PartsGrow(before, output, parts, i, View(), base, out, more.value);
        out := out + more.value;
      }
      assert parts[..|parts|] == parts;
      r := Ok(out);
    }

    method AddSummary(output: nat, summary: seq<string>) returns (r: Result<seq<Emission>, StreamError>)
      modifies this
      ensures match PutSummary(old(View()), output, summary)
        case Ok(w) => r.Ok? && View() == w && log == old(log) + r.value
        case Err(e) => r == Err(e)
    {
      var out := [];
      ghost var before := View();
      assert summary[..0] == [];
      for i := 0 to |summary|
        invariant PutSummary(before, output, summary[..i]) == Ok(View()) && log == before.out + out
      {
        assert summary[..i + 1][..i] == summary[..i];
        var more := AddText(TextKey(ReasoningField, output, i), summary[i], true);
        if more.Err? {
          FailedSummary(before, output, summary, i + 1);
          return more;
        }
        out := out + more.value;
      }
      assert summary[..|summary|] == summary;
      r := Ok(out);
    }

    method AddItem(output: nat, item: Item) returns (r: Result<seq<Emission>, StreamError>)
      modifies this
      ensures match PutItem(old(View()), output, item)
        case Ok(w) => r.Ok? && View() == w && log == old(log) + r.value
        case Err(e) => r == Err(e)
    {
      match item {
        case ToolItem(_, _, _, _, _) => r := AddTool(output, ToolOf(item), ValueOf(item));
        case MessageItem(content) => r := AddParts(output, content);
        case ReasoningItem(summary) => r := AddSummary(output, summary);
        case OtherItem => r := Err(Unsupported);
      }
    }

    method AddItems(items: seq<Item>) returns (r: Result<seq<Emission>, StreamError>)
      modifies this
      ensures match PutItems(old(View()), items)
        case Ok(w) => r.Ok? && View() == w && log == old(log) + r.value
        case Err(e) => r == Err(e)
    {
      var out := [];
      ghost var before := View();
      assert items[..0] == [];
      for i := 0 to |items|
        invariant PutItems(before, items[..i]) == Ok(View()) && log == before.out + out
      {
        assert items[..i + 1][..i] == items[..i];
        var more := AddItem(i, items[i]);
        if more.Err? {
          FailedItems(before, items, i + 1);
          return more;
        }
        out := out + more.value;
      }
      assert items[..|items|] == items;
      r := Ok(out);
    }

    method AddInput(e: Event, full: bool) returns (r: Result<seq<Emission>, StreamError>)
      requires IndicesOk(e) && e.kind == InputEvent(full)
      modifies this
      ensures match Apply(old(View()), e, includeUsage)
        case Ok(w) => r.Ok? && View() == w && log == old(log) + r.value
        case Err(error) => r == Err(error)
    {
      if e.outputIndex !in tools {
        return Err(NoCall);
      }
      var tool := tools[e.outputIndex];
      var value := if tool.custom then e.input else e.arguments;
      if !full {
        value := (if ToolKey(e.outputIndex) in text then text[ToolKey(e.outputIndex)] else "") + e.delta;
      }
      r := AddTool(e.outputIndex, tool, value);
    }

    method Dispatch(e: Event) returns (r: Result<seq<Emission>, StreamError>)
      requires IndicesOk(e)
      modifies this
      ensures match Apply(old(View()), e, includeUsage)
        case Ok(w) => r.Ok? && View() == w && log == old(log) + r.value
        case Err(error) => r == Err(error)
    {
      match e.kind {
        case TextEvent(_, full) => r := AddText(TextKeyOf(e), TextValueOf(e), full);
        case ItemEvent => r := AddItem(e.outputIndex, e.item);
        case InputEvent(full) => r := AddInput(e, full);
        case Terminal => r := Finish(e);
        case OtherKind => r := Ok([]);
      }
    }

    method HandleEvent(e: Event) returns (r: Result<seq<Emission>, StreamError>)
      modifies this
      ensures match Handle(old(View()), e, includeUsage)
        case Ok(w) => r.Ok? && View() == w && log == old(log) + r.value
        case Err(error) => r == Err(error)
    {
      if e.outputIndex < 0 || e.contentIndex < 0 || e.summaryIndex < 0
         || e.outputIndex > MAX_INDEX || e.contentIndex > MAX_INDEX || e.summaryIndex > MAX_INDEX
      {
        return Err(BadIndex);
      }
      if e.response.Some? {
        id := e.response.value.id;
      }
      if id == "" {
        return Err(NoCreation);
      }
      var out := [];
      if !role {
        out := [RoleSent];
        role := true;
        log := log + out;
      }
      ghost var greeted := View();
      assert greeted == Greet(old(View()), e);
      var more := Dispatch(e);
      if more.Err? {
        return more;
      }
      Regroup(old(log), out, more.value);
      r := Ok(out + more.value);
    }

    method Finish(e: Event) returns (r: Result<seq<Emission>, StreamError>)
      requires IndicesOk(e) && e.kind == Terminal
      modifies this
      ensures match Apply(old(View()), e, includeUsage)
        case Ok(w) => r.Ok? && View() == w && log == old(log) + r.value
        case Err(error) => r == Err(error)
    {
      if e.response.None? || e.response.value.output.None? {
        return Err(NoOutput);
      }
      var response := e.response.value;
      var out := AddItems(response.output.value);
      if out.Err? {
        return out;
      }
      ghost var listed := View();
      var last := [Finished(FinishOf(response.status, |tools| > 0))] +
        (if includeUsage && response.usage then [UsageSent] else []) + [DoneSent];
      log := log + last;
      assert View() == Finale(listed, response, includeUsage);
      r := Ok(out.value + last);
    }
  }

  /** The loop over a message's parts after `i` of them. */
  predicate PartsPut(before: Work, output: nat, parts: seq<Part>, i: nat, w: Work, out: seq<Emission>) {
    i <= |parts| && PutParts(before, output, parts[..i]) == Ok(w) && w.out == before.out + out
  }

  lemma PartsNext(before: Work, output: nat, parts: seq<Part>, i: nat, w: Work, out: seq<Emission>)
    requires i < |parts| && PartsPut(before, output, parts, i, w, out)
    ensures PutParts(before, output, parts[..i + 1]) ==
      PutText(w, TextKey(PartField(parts[i]), output, i), PartText(parts[i]), true)
  {
    assert parts[..i + 1][..i] == parts[..i];
  }

  lemma PartsGrow(before: Work, output: nat, parts: seq<Part>, i: nat, v: Work, base: seq<Emission>,
      out: seq<Emission>, more: seq<Emission>)
    requires i < |parts| && base == before.out + out && v.out == base + more
    requires PutParts(before, output, parts[..i + 1]) == Ok(v)
    ensures PartsPut(before, output, parts, i + 1, v, out + more)
  {
    Regroup(before.out, out, more);
  }

  lemma {:induction false} FailedParts(w: Work, output: nat, parts: seq<Part>, i: nat)
    requires i <= |parts| && PutParts(w, output, parts[..i]).Err?
    ensures PutParts(w, output, parts) == PutParts(w, output, parts[..i])
  {
    if i < |parts| {
      assert parts[..|parts| - 1][..i] == parts[..i];
      FailedParts(w, output, parts[..|parts| - 1], i);
    } else {
      assert parts[..i] == parts;
    }
  }

  lemma {:induction false} FailedSummary(w: Work, output: nat, summary: seq<string>, i: nat)
    requires i <= |summary| && PutSummary(w, output, summary[..i]).Err?
    ensures PutSummary(w, output, summary) == PutSummary(w, output, summary[..i])
  {
    if i < |summary| {
      assert summary[..|summary| - 1][..i] == summary[..i];
      FailedSummary(w, output, summary[..|summary| - 1], i);
    } else {
      assert summary[..i] == summary;
    }
  }

  lemma {:induction false} FailedItems(w: Work, items: seq<Item>, i: nat)
    requires i <= |items| && PutItems(w, items[..i]).Err?
    ensures PutItems(w, items) == PutItems(w, items[..i])
  {
    if i < |items| {
      assert items[..|items| - 1][..i] == items[..i];
      FailedItems(w, items[..|items| - 1], i);
    } else {
      assert items[..i] == items;
    }
  }
}
