/** Chat completion chunks as decoded values, and what a client has after reading them. */
module ChatWire {
  import opened Outcomes

  const MAX_STREAM := 16777216
  const MAX_PARTS := 4096

  datatype Finish = Stop | ToolCalls | Length | ContentFilter

  /** One chunk's payload. Tool chunks carry the tool's position; its first chunk names it, later ones add input. */
  datatype Chunk =
    | Role
    | Content(text: string)
    | Reasoning(text: string)
    | Refusal(text: string)
    | ToolStart(index: nat, id: string, custom: bool, name: string)
    | ToolInput(index: nat, custom: bool, text: string)
    | End(finish: Finish)
    | Usage
    | DoneMark

  datatype ToolCall = ToolCall(id: string, custom: bool, name: string, input: string)

  /** The message a client has put together. */
  datatype Message = Message(content: string, reasoning: string, refusal: string, tools: seq<ToolCall>,
      finish: Option<Finish>)

  const EMPTY := Message("", "", "", [], None)

  /** A client adds each chunk to what it has; a tool chunk out of position is dropped. */
  function Read(m: Message, c: Chunk): Message {
    match c
    case Role => m
    case Content(text) => m.(content := m.content + text)
    case Reasoning(text) => m.(reasoning := m.reasoning + text)
    case Refusal(text) => m.(refusal := m.refusal + text)
    case ToolStart(index, id, custom, name) =>
      if index == |m.tools| then m.(tools := m.tools + [ToolCall(id, custom, name, "")]) else m
    case ToolInput(index, custom, text) =>
      if index < |m.tools| && m.tools[index].custom == custom then
        m.(tools := m.tools[index := m.tools[index].(input := m.tools[index].input + text)])
      else m
    case End(finish) => m.(finish := Some(finish))
    case Usage => m
    case DoneMark => m
  }

  function ReadAll(m: Message, chunks: seq<Chunk>): Message {
    if chunks == [] then m else Read(ReadAll(m, chunks[..|chunks| - 1]), chunks[|chunks| - 1])
  }

  lemma {:induction false} ReadAllAppend(m: Message, a: seq<Chunk>, b: seq<Chunk>)
    ensures ReadAll(m, a + b) == ReadAll(ReadAll(m, a), b)
  {
    if b == [] {
      assert a + b == a;
    } else {
      assert (a + b)[..|a + b| - 1] == a + b[..|b| - 1];
      ReadAllAppend(m, a, b[..|b| - 1]);
    }
  }

  lemma ReadOne(m: Message, c: Chunk)
    ensures ReadAll(m, [c]) == Read(m, c)
  {
    assert [c][..0] == [];
    assert ReadAll(m, []) == m;
  }
}
