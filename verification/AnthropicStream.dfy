/** The stream converter as the object the source updates, and its one-shot use. */
module AnthropicStream {
  import opened Outcomes
  import opened ChatWire
  import opened JsonInput
  import opened AnthropicChat
  import opened AnthropicAgreement
  import opened AnthropicPlay
  import opened Sums

  /** Whole blocks sent without fragments. */
  function Singles(blocks: seq<Block>): seq<Play> {
    seq(|blocks|, i requires 0 <= i < |blocks| => Play(blocks[i], []))
  }

  lemma SinglesAppend(blocks: seq<Block>, i: nat)
    requires i < |blocks|
    ensures Singles(blocks[..i + 1]) == Singles(blocks[..i]) + [Play(blocks[i], [])]
  {
  }

  lemma SingleFacts(cfg: Config, b: Block)
    ensures Cost(Play(b, [])) == BlockSize(b)
    ensures Playable(cfg, Play(b, [])) <==> GoodBlock(cfg, b)
  {
    assert Sum(DeltaSizes([])) == 0;
    assert Args([]) == "";
    var whole := b.(input := WholeInput("", b.input));
    assert Effective(whole) == Effective(b);
  }

  /** The one-shot demands are those of a stream that sends each block whole. */
  lemma AcceptableIsPlayable(cfg: Config, blocks: seq<Block>, stop: StopReason)
    ensures Acceptable(cfg, blocks, stop) <==> AllPlayable(cfg, Singles(blocks)) && MapStop(stop).Some?
  {
    forall i | 0 <= i < |blocks|
      ensures Costs(Singles(blocks))[i] == Sizes(blocks)[i]
        && (Playable(cfg, Singles(blocks)[i]) <==> GoodBlock(cfg, blocks[i]))
    {
      SingleFacts(cfg, blocks[i]);
    }
    assert Costs(Singles(blocks)) == Sizes(blocks);
    if AllPlayable(cfg, Singles(blocks)) {
      forall i, k | 0 <= i < k < |blocks| && blocks[i].kind == ToolBlock && blocks[k].kind == ToolBlock
        ensures blocks[i].id != blocks[k].id
      {
        assert Singles(blocks)[i].start == blocks[i] && Singles(blocks)[k].start == blocks[k];
      }
    }
  }

  lemma {:induction false} PlayablePrefix(cfg: Config, plays: seq<Play>, i: nat)
    requires i <= |plays| && AllPlayable(cfg, plays)
    ensures AllPlayable(cfg, plays[..i])
  {
    if i < |plays| {
      assert plays == plays[..|plays| - 1] + [plays[|plays| - 1]];
      PlayableAppend(cfg, plays[..|plays| - 1], plays[|plays| - 1]);
      assert plays[..|plays| - 1][..i] == plays[..i];
      PlayablePrefix(cfg, plays[..|plays| - 1], i);
    } else {
      assert plays[..i] == plays;
    }
  }

  /** Start and stop of a whole block, from a state between blocks. */
  lemma WholeBlock(cfg: Config, s: State, b: Block)
    requires Between(s, |s.blocks|, s.ids, s.size) && s.size <= MAX_STREAM
    ensures StartBlock(cfg, s, |s.blocks|, b).Ok? <==> StartFits(s, b)
    ensures StartFits(s, b) ==> StartBlock(cfg, s, |s.blocks|, b).value.0 == Started(s, b)
    ensures StartFits(s, b) ==>
      (StopBlock(cfg, Started(s, b), |s.blocks|).Ok? <==> (b.kind == ToolBlock ==> GoodTool(cfg, b)))
    ensures StartFits(s, b) && StopBlock(cfg, Started(s, b), |s.blocks|).Ok? ==>
      Between(StopBlock(cfg, Started(s, b), |s.blocks|).value.0, |s.blocks| + 1,
      if b.kind == ToolBlock then s.ids + {b.id} else s.ids, s.size + BlockSize(b))
  {
    StartPlays(cfg, s, b);
    if StartFits(s, b) {
      SingleFacts(cfg, b);
      StopPlays(cfg, Started(s, b), Play(b, []), |s.blocks|);
    }
  }

  /** A block after the stop is the next block of the message. */
  lemma NextBlock(cfg: Config, s: State, blocks: seq<Block>, i: nat)
    requires i < |blocks| && AllPlayable(cfg, Singles(blocks[..i]))
    requires Between(s, i, Ids(Singles(blocks[..i])), Sum(Costs(Singles(blocks[..i]))))
    ensures AllPlayable(cfg, Singles(blocks[..i + 1])) <==>
      StartFits(s, blocks[i]) && (blocks[i].kind == ToolBlock ==> GoodTool(cfg, blocks[i]))
    ensures Ids(Singles(blocks[..i + 1])) == if blocks[i].kind == ToolBlock then s.ids + {blocks[i].id} else s.ids
    ensures Sum(Costs(Singles(blocks[..i + 1]))) == s.size + BlockSize(blocks[i])
  {
    SinglesAppend(blocks, i);
    PlayableAppend(cfg, Singles(blocks[..i]), Play(blocks[i], []));
    CostsAppend(Singles(blocks[..i]), Play(blocks[i], []));
    SingleFacts(cfg, blocks[i]);
  }

  lemma NotAcceptable(cfg: Config, blocks: seq<Block>, i: nat, stop: StopReason)
    requires i <= |blocks| && !AllPlayable(cfg, Singles(blocks[..i]))
    ensures !Acceptable(cfg, blocks, stop)
  {
    AcceptableIsPlayable(cfg, blocks, stop);
    assert Singles(blocks)[..i] == Singles(blocks[..i]);
    if AllPlayable(cfg, Singles(blocks)) {
      PlayablePrefix(cfg, Singles(blocks), i);
    }
  }

  class AnthropicChatStream {
    const cfg: Config
    var blocks: seq<Live>
    var ids: set<string>
    var finish: Option<Finish>
    var started: bool
    var stopped: bool
    var size: nat

    ghost function View(): State
      reads this
    {
      State(blocks, ids, finish, started, stopped, size)
    }

    constructor (cfg: Config)
      ensures View() == FRESH && this.cfg == cfg
    {
      this.cfg := cfg;
      blocks, ids, finish, started, stopped, size := [], {}, None, false, false, 0;
    }

    method StartBlock(index: int, b: Block) returns (r: Result<seq<Chunk>, StreamError>)
      modifies this
      ensures match AnthropicChat.StartBlock(cfg, old(View()), index, b)
        case Ok((t, chunks)) => r == Ok(chunks) && View() == t
        case Err(e) => r == Err(e)
    {
      if !started || finish.Some? || index != |blocks| || index >= MAX_PARTS {
        return Err(BadOrder);
      }
      if index > 0 && !blocks[index - 1].closed {
        return Err(BadOrder);
      }
      var chunks: seq<Chunk>;
      var toolIndex := 0;
      match b.kind {
        case TextBlock => chunks := [Content(b.text)];
        case ThinkingBlock => chunks := [Reasoning(b.thinking)];
        case RedactedBlock => chunks := [];
        case ToolBlock =>
          if b.id == "" || b.name == "" || |b.id| > 256 || |b.name| > 256 || b.id in ids {
            return Err(BadTool);
          }
          toolIndex := |ids|;
          ids := ids + {b.id};
          chunks := [ToolStart(toolIndex, b.id, b.name in cfg.custom, b.name)];
        case UnknownBlock => return Err(Unsupported);
      }
      size := size + |b.text| + |b.thinking| + |b.input| + |b.signature| + |b.data|;
      if size > MAX_STREAM {
        return Err(TooLong);
      }
      blocks := blocks + [Live(b, "", false, toolIndex)];
      r := Ok(chunks);
    }

    method StopBlock(index: int) returns (r: Result<seq<Chunk>, StreamError>)
      modifies this`blocks
      ensures match AnthropicChat.StopBlock(cfg, old(View()), index)
        case Ok((t, chunks)) => r == Ok(chunks) && View() == t
        case Err(e) => r == Err(e)
    {
      if index < 0 || index >= |blocks| || blocks[index].closed {
        return Err(BadStop);
      }
      var l := blocks[index].(closed := true);
      blocks := blocks[index := l];
      if l.block.kind != ToolBlock {
        return Ok([]);
      }
      var args := l.args;
      if args == "" {
        args := l.block.input;
      }
      if args == "" {
        args := "{}";
      }
      if !cfg.codec.IsObject(args) {
        return Err(BadInput);
      }
      blocks := blocks[index := l.(block := l.block.(input := args))];
      var value := args;
      if l.block.name in cfg.custom {
        match cfg.codec.InputOf(args) {
          case Text(text) => value := text;
          case Null =>
          case Missing => return Err(NotString);
          case NotText => return Err(NotString);
        }
      } else if |l.args| > 0 {
        return Ok([]);
      }
      r := Ok([ToolInput(l.toolIndex, l.block.name in cfg.custom, value)]);
    }

    method SetFinish(reason: StopReason) returns (r: Result<seq<Chunk>, StreamError>)
      modifies this`finish
      ensures match AnthropicChat.SetFinish(old(View()), reason)
        case Ok((t, chunks)) => r == Ok(chunks) && View() == t
        case Err(e) => r == Err(e)
    {
      if reason == NoReason {
        return Ok([]);
      }
      for i := 0 to |blocks|
        invariant forall k :: 0 <= k < i ==> blocks[k].closed
      {
        if !blocks[i].closed {
          return Err(OpenBlock);
        }
      }
      var mapped := MapStop(reason);
      if mapped.None? {
        return Err(Unsupported);
      }
      if finish.Some? && finish != mapped {
        return Err(Changed);
      }
      finish := mapped;
      r := Ok([]);
    }

    method ContentDelta(index: int, d: BlockDelta) returns (r: Result<seq<Chunk>, StreamError>)
      modifies this`blocks, this`size
      ensures match DeltaBlock(cfg, old(View()), index, d)
        case Ok((t, chunks)) => r == Ok(chunks) && View() == t
        case Err(e) => r == Err(e)
    {
      if index < 0 || index >= |blocks| || blocks[index].closed || finish.Some? {
        return Err(BadOrder);
      }
      var l := blocks[index];
      size := size + |d.text| + |d.thinking| + |d.partial| + |d.signature|;
      if size > MAX_STREAM {
        return Err(TooLong);
      }
      match d.kind {
        case TextDelta => if l.block.kind == TextBlock { return Ok([Content(d.text)]); }
        case ThinkingDelta => if l.block.kind == ThinkingBlock { return Ok([Reasoning(d.thinking)]); }
        case SignatureDelta => if l.block.kind == ThinkingBlock { return Ok([]); }
        case InputDelta =>
          if l.block.kind == ToolBlock {
            if |l.args| == 0 && |l.block.input| > 0 && l.block.input != "{}" {
              return Err(Changed);
            }
            blocks := blocks[index := l.(args := l.args + d.partial)];
            return Ok(if l.block.name in cfg.custom then [] else [ToolInput(l.toolIndex, false, d.partial)]);
          }
        case OtherDelta => return Ok([]);
      }
      r := Err(Mismatch);
    }

    method HandleEvent(e: Event) returns (r: Result<seq<Chunk>, StreamError>)
      modifies this
      ensures match Step(cfg, old(View()), e)
        case Ok((t, chunks)) => r == Ok(chunks) && View() == t
        case Err(error) => r == Err(error)
    {
      if stopped {
        return Err(BadEvent);
      }
      if e.Ping? {
        return Ok([]);
      }
      if e.MessageStart? {
        if started || e.id == "" || |e.id| > 256 || e.hasContent {
          return Err(BadEvent);
        }
        started := true;
        return Ok([Role, Content("")]);
      }
      if !started {
        return Err(BadEvent);
      }
      match e {
        case BlockStart(index, block) => r := StartBlock(index, block);
        case BlockStop(index) => r := StopBlock(index);
        case BlockDeltaEvent(index, delta) => r := ContentDelta(index, delta);
        case MessageDelta(stop) => r := SetFinish(stop);
        case MessageStop =>
          if finish.None? {
            return Err(NoFinish);
          }
          stopped := true;
          r := Ok([End(finish.value)] + (if cfg.usage then [Usage] else []) + [DoneMark]);
        case ErrorEvent => r := Err(Upstream);
        case OtherEvent => r := Ok([]);
      }
    }

    /** Start and stop one whole block; a tool's effective input is left in its record. */
    method AddBlock(b: Block) returns (r: Result<Live, StreamError>)
      requires Between(View(), |blocks|, ids, size) && size <= MAX_STREAM
      modifies this
      ensures r.Ok? <==> StartFits(old(View()), b) && (b.kind == ToolBlock ==> GoodTool(cfg, b))
      ensures r.Ok? ==> Between(View(), old(|blocks|) + 1, if b.kind == ToolBlock then old(ids) + {b.id} else old(ids),
          old(size) + BlockSize(b))
      ensures r.Ok? && b.kind == ToolBlock ==> r.value.block.input == Effective(b)
    {
      ghost var before := View();
      var index := |blocks|;
      WholeBlock(cfg, before, b);
      var opening := StartBlock(index, b);
      if opening.Err? {
        return Err(opening.error);
      }
      assert View() == Started(before, b);
      var closing := StopBlock(index);
      if closing.Err? {
        return Err(closing.error);
      }
      r := Ok(blocks[index]);
    }

    /** The whole message at once: accepted exactly when it is acceptable, and then converted as specified. */
    method Response(isMessage: bool, id: string, content: Option<seq<Block>>,
        stop: StopReason) returns (r: Result<Message, StreamError>)
      requires View() == FRESH
      modifies this
      ensures r.Ok? <==> isMessage && GoodId(id) && content.Some? && Acceptable(cfg, content.value, stop)
      ensures r.Ok? ==> r.value == OneShot(cfg, content.value, stop)
    {
      if !isMessage || id == "" || |id| > 256 || content.None? {
        return Err(BadEvent);
      }
      started := true;
      var parts := content.value;
      var text, thought, tools := "", "", [];
      assert Singles(parts[..0]) == [] && Costs([]) == [];
      for i := 0 to |parts|
        invariant Between(View(), i, Ids(Singles(parts[..i])), Sum(Costs(Singles(parts[..i]))))
          && AllPlayable(cfg, Singles(parts[..i]))
        invariant text == Texts(parts[..i]) && thought == Thoughts(parts[..i]) && tools == Calls(cfg, parts[..i])
      {
        var b := parts[i];
        NextBlock(cfg, View(), parts, i);
        var added := AddBlock(b);
        if added.Err? {
          NotAcceptable(cfg, parts, i + 1, stop);
          return Err(added.error);
        }
        assert parts[..i + 1][..i] == parts[..i];
        text := text + b.text;
        thought := thought + b.thinking;
        if b.kind == ToolBlock {
          var input := added.value.block.input;
          tools := tools + [ToolCall(b.id, b.name in cfg.custom, b.name,
              if b.name in cfg.custom then cfg.codec.RecordInput(input) else input)];
        }
      }
      assert parts[..|parts|] == parts;
      AcceptableIsPlayable(cfg, parts, stop);
      var ending := SetFinish(stop);
      if ending.Err? {
        return Err(ending.error);
      }
      if finish.None? {
        return Err(NoFinish);
      }
      r := Ok(Message(text, thought, "", tools, finish));
    }
  }

  // ---- Inputs on which the two conversions part -----------------------------------------------------------

  /** A reading of JSON texts in which the one object holds a null "input". */
  function NullCodec(): Codec {
    Codec((text: string) => if text == "{\"input\":null}" then Some([Member("input", NullValue)]) else None)
  }

  function NullPlays(): seq<Play> {
    [Play(Block(ToolBlock, "call", "shell", "", "", "", "", "{\"input\":null}"), [])]
  }

  lemma OneBlock(cfg: Config, b: Block, plays: seq<Play>, stop: StopReason)
    requires plays == [Play(b, [])] && GoodBlock(cfg, b) && BlockSize(b) <= MAX_STREAM && MapStop(stop).Some?
    requires (b.kind == ToolBlock ==> b.input != "")
    ensures var events := Whole("m", plays, stop);
      && Stream(cfg, FRESH, events).Ok? && Stream(cfg, FRESH, events).value.0.stopped
      && SpellAll(events) == Spelled(PlayedAll(plays), stop) && |PlayedAll(plays)| == 1
      && Complete(PlayedAll(plays)[0]) == b
      && PlayedAll(plays)[0].block.kind == b.kind && PlayedAll(plays)[0].block.text == b.text
  {
    assert plays == Singles([b]);
    assert Sizes([b]) == [BlockSize(b)] && Sum(Sizes([b])) ==
      Sum([]) + BlockSize(b) by { assert Sizes([b])[..0] == []; }
    AcceptableIsPlayable(cfg, [b], stop);
    WholePlays(cfg, "m", plays, stop);
    WholeSpells("m", plays, stop);
  }

  /** A custom tool with a null input: the stream sends the raw JSON text, the one-shot conversion an empty input. */
  lemma NullInputParts()
    ensures var cfg := Config(NullCodec(), {"shell"}, false); var events := Whole("m", NullPlays(), ToolUse);
      && Stream(cfg, FRESH, events).Ok?
      && ReadAll(EMPTY, Stream(cfg, FRESH, events).value.1) != OneShot(cfg, Meaning(NullPlays()), ToolUse)
  {
    var cfg := Config(NullCodec(), {"shell"}, false);
    var b := NullPlays()[0].start;
    NullReading(cfg, b);
    UncleanParts(cfg, b, NullPlays(), ToolUse);
  }

  lemma NullReading(cfg: Config, b: Block)
    requires cfg == Config(NullCodec(), {"shell"}, false) && b == NullPlays()[0].start
    ensures GoodBlock(cfg, b) && !CleanTool(cfg, b) && BlockSize(b) <= MAX_STREAM && cfg.codec.Lawful()
  {
  }

  lemma UncleanParts(cfg: Config, b: Block, plays: seq<Play>, stop: StopReason)
    requires plays == [Play(b, [])] && GoodBlock(cfg, b) && BlockSize(b) <= MAX_STREAM && MapStop(stop).Some?
    requires (b.kind == ToolBlock ==> b.input != "")
    requires !CleanTool(cfg, b) && cfg.codec.Lawful()
    ensures var events := Whole("m", plays, stop);
      Stream(cfg, FRESH, events).Ok? && ReadAll(EMPTY, Stream(cfg, FRESH, events).value.1) != OneShot(cfg,
          Meaning(plays), stop)
  {
    OneBlock(cfg, b, plays, stop);
    assert !Clean(cfg, Complete(PlayedAll(plays)[0]));
    StreamMeetsOneShot(cfg, Whole("m", plays, stop));
  }

  function StrayPlays(): seq<Play> {
    [Play(Block(ThinkingBlock, "", "", "stray", "", "", "", ""), [])]
  }

  /** A text field on a thinking block reaches the client only through the one-shot conversion. */
  lemma StrayTextParts(cfg: Config)
    ensures var events := Whole("m", StrayPlays(), EndTurn);
      && Stream(cfg, FRESH, events).Ok?
      && ReadAll(EMPTY, Stream(cfg, FRESH, events).value.1) != OneShot(cfg, Meaning(StrayPlays()), EndTurn)
  {
    var b := StrayPlays()[0].start;
    OneBlock(cfg, b, StrayPlays(), EndTurn);
    assert !Unmixed(PlayedAll(StrayPlays()));
    StreamMeetsBy(cfg, Whole("m", StrayPlays(), EndTurn));
  }
}
