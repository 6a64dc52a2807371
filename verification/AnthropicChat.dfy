/** An Anthropic message turned into a Chat completion, event by event or in one shot. A tool input is kept as JSON
    text, and every statement holds for any reading of such texts that `JsonInput` allows. */
module AnthropicChat {
  import opened Outcomes
  import opened ChatWire
  import opened JsonInput

  /** `UnknownBlock` stands for any other type and for a null entry, which are refused alike. */
  datatype BlockKind = TextBlock | ThinkingBlock | RedactedBlock | ToolBlock | UnknownBlock

  datatype Block = Block(kind: BlockKind, id: string, name: string, text: string, thinking: string, signature: string,
      data: string, input: string)

  datatype DeltaKind = TextDelta | ThinkingDelta | SignatureDelta | InputDelta | OtherDelta

  datatype BlockDelta = BlockDelta(kind: DeltaKind, text: string, thinking: string, signature: string, partial: string)

  datatype StopReason = NoReason | EndTurn | StopSequence | PauseTurn | ToolUse | MaxTokens | RefusalStop
    | UnknownReason

  datatype Event =
    | Ping
    | MessageStart(id: string, hasContent: bool)
    | BlockStart(index: int, block: Block)
    | BlockDeltaEvent(index: int, delta: BlockDelta)
    | BlockStop(index: int)
    | MessageDelta(stop: StopReason)
    | MessageStop
    | ErrorEvent
    | OtherEvent

  /** A block the stream has seen: as it started, plus the argument fragments since. */
  datatype Live = Live(block: Block, args: string, closed: bool, toolIndex: nat)

  datatype State = State(blocks: seq<Live>, ids: set<string>, finish: Option<Finish>, started: bool, stopped: bool,
      size: nat)

  datatype Config = Config(codec: Codec, custom: set<string>, usage: bool)

  datatype StreamError = BadOrder | BadTool | Unsupported | TooLong | BadStop | BadInput | NotString | OpenBlock
    | Changed | BadEvent | Mismatch | NoFinish | Upstream

  type Outcome = Result<(State, seq<Chunk>), StreamError>

  const FRESH := State([], {}, None, false, false, 0)

  function MapStop(reason: StopReason): Option<Finish> {
    match reason
    case EndTurn => Some(Stop)
    case StopSequence => Some(Stop)
    case PauseTurn => Some(Stop)
    case ToolUse => Some(ToolCalls)
    case MaxTokens => Some(Length)
    case RefusalStop => Some(ContentFilter)
    case NoReason => None
    case UnknownReason => None
  }

  function BlockSize(b: Block): nat {
    |b.text| + |b.thinking| + |b.input| + |b.signature| + |b.data|
  }

  function DeltaSize(d: BlockDelta): nat {
    |d.text| + |d.thinking| + |d.partial| + |d.signature|
  }

  predicate ToolNamed(b: Block) {
    b.id != "" && b.name != "" && |b.id| <= 256 && |b.name| <= 256
  }

  function StartChunks(cfg: Config, b: Block, toolIndex: nat): seq<Chunk> {
    match b.kind
    case TextBlock => [Content(b.text)]
    case ThinkingBlock => [Reasoning(b.thinking)]
    case RedactedBlock => []
    case ToolBlock => [ToolStart(toolIndex, b.id, b.name in cfg.custom, b.name)]
    case UnknownBlock => []
  }

  /** `startBlock`. */
  function StartBlock(cfg: Config, s: State, index: int, b: Block): Outcome {
    if !s.started || s.finish.Some? || index != |s.blocks| || index >= MAX_PARTS
    || (index > 0 && !s.blocks[index - 1].closed) then Err(BadOrder)
    else if b.kind == UnknownBlock then Err(Unsupported)
    else if b.kind == ToolBlock && (!ToolNamed(b) || b.id in s.ids) then Err(BadTool)
    else if s.size + BlockSize(b) > MAX_STREAM then Err(TooLong)
    else
      var toolIndex := if b.kind == ToolBlock then |s.ids| else 0;
      Ok((s.(blocks := s.blocks + [Live(b, "", false, toolIndex)], size := s.size + BlockSize(b),
             ids := if b.kind == ToolBlock then s.ids + {b.id} else s.ids),
          StartChunks(cfg, b, toolIndex)))
  }

  /** The whole input of a tool block once it stops. */
  function WholeInput(args: string, input: string): string {
    if args != "" then args else if input != "" then input else "{}"
  }

  /** `stopBlock`. A null custom input leaves the raw text in place, as decoding null into a string changes nothing. */
  function StopBlock(cfg: Config, s: State, index: int): Outcome {
    if index < 0 || index >= |s.blocks| || s.blocks[index].closed then Err(BadStop)
    else
      var l := s.blocks[index];
      if l.block.kind != ToolBlock then Ok((s.(blocks := s.blocks[index := l.(closed := true)]), []))
      else
        var args := WholeInput(l.args, l.block.input);
        var t := s.(blocks := s.blocks[index := l.(closed := true, block := l.block.(input := args))]);
        if !cfg.codec.IsObject(args) then Err(BadInput)
        else if l.block.name in cfg.custom then
          match cfg.codec.InputOf(args)
          case Text(value) => Ok((t, [ToolInput(l.toolIndex, true, value)]))
          case Null => Ok((t, [ToolInput(l.toolIndex, true, args)]))
          case Missing => Err(NotString)
          case NotText => Err(NotString)
        else if l.args != "" then Ok((t, []))
        else Ok((t, [ToolInput(l.toolIndex, false, args)]))
  }

  /** `setFinish`. */
  function SetFinish(s: State, reason: StopReason): Outcome {
    if reason == NoReason then Ok((s, []))
    else if exists i :: 0 <= i < |s.blocks| && !s.blocks[i].closed then Err(OpenBlock)
    else if MapStop(reason).None? then Err(Unsupported)
    else if s.finish.Some? && s.finish != MapStop(reason) then Err(Changed)
    else Ok((s.(finish := MapStop(reason)), []))
  }

  function DeltaBlock(cfg: Config, s: State, index: int, d: BlockDelta): Outcome {
    if index < 0 || index >= |s.blocks| || s.blocks[index].closed || s.finish.Some? then Err(BadOrder)
    else if s.size + DeltaSize(d) > MAX_STREAM then Err(TooLong)
    else
      var l := s.blocks[index];
      var t := s.(size := s.size + DeltaSize(d));
      match d.kind
      case TextDelta => if l.block.kind == TextBlock then Ok((t, [Content(d.text)])) else Err(Mismatch)
      case ThinkingDelta => if l.block.kind == ThinkingBlock then Ok((t, [Reasoning(d.thinking)])) else Err(Mismatch)
      case SignatureDelta => if l.block.kind == ThinkingBlock then Ok((t, [])) else Err(Mismatch)
      case InputDelta =>
        if l.block.kind != ToolBlock then Err(Mismatch)
        else if l.args == "" && l.block.input != "" && l.block.input != "{}" then Err(Changed)
        else
          Ok((t.(blocks := t.blocks[index := l.(args := l.args + d.partial)]),
              if l.block.name in cfg.custom then [] else [ToolInput(l.toolIndex, false, d.partial)]))
      case OtherDelta => Ok((t, []))
  }

  /** `event`. */
  function Step(cfg: Config, s: State, e: Event): Outcome {
    if s.stopped then Err(BadEvent)
    else match e
      case Ping => Ok((s, []))
      case MessageStart(id, hasContent) =>
        if s.started || id == "" || |id| > 256 || hasContent then Err(BadEvent)
        else Ok((s.(started := true), [Role, Content("")]))
      case BlockStart(index, block) => if s.started then StartBlock(cfg, s, index, block) else Err(BadEvent)
      case BlockStop(index) => if s.started then StopBlock(cfg, s, index) else Err(BadEvent)
      case BlockDeltaEvent(index, delta) => if s.started then DeltaBlock(cfg, s, index, delta) else Err(BadEvent)
      case MessageDelta(stop) => if s.started then SetFinish(s, stop) else Err(BadEvent)
      case MessageStop =>
        if !s.started then Err(BadEvent)
        else if s.finish.None? then Err(NoFinish)
        else Ok((s.(stopped := true), [End(s.finish.value)] + (if cfg.usage then [Usage] else []) + [DoneMark]))
      case ErrorEvent => Err(if s.started then Upstream else BadEvent)
      case OtherEvent => if s.started then Ok((s, [])) else Err(BadEvent)
  }

  /** Feed the events in order; the first refusal ends the stream. */
  function Stream(cfg: Config, s: State, events: seq<Event>): Outcome {
    if events == [] then Ok((s, []))
    else match Stream(cfg, s, events[..|events| - 1])
      case Err(e) => Err(e)
      case Ok((t, chunks)) =>
        match Step(cfg, t, events[|events| - 1])
        case Err(e) => Err(e)
        case Ok((u, more)) => Ok((u, chunks + more))
  }

  /** The outcome of a whole sequence from the start. */
  function Verdict(cfg: Config, events: seq<Event>): Outcome {
    Stream(cfg, FRESH, events)
  }

  predicate Accepts(cfg: Config, events: seq<Event>) {
    Verdict(cfg, events).Ok?
  }

  /** What the client receives for an accepted sequence. */
  function Output(cfg: Config, events: seq<Event>): seq<Chunk>
    requires Accepts(cfg, events)
  {
    Verdict(cfg, events).value.1
  }
}
