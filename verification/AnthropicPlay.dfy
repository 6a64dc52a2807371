/** Which event sequences the stream converter accepts: a whole message played block by block, under any
    fragmentation. */
module AnthropicPlay {
  import opened Outcomes
  import opened ChatWire
  import opened AnthropicChat
  import opened AnthropicAgreement
  import opened Sequences
  import opened Sums

  /** One block as it is sent: how it starts, and its fragments. */
  datatype Play = Play(start: Block, deltas: seq<BlockDelta>)

  function DeltaEvents(index: nat, deltas: seq<BlockDelta>): seq<Event> {
    seq(|deltas|, i requires 0 <= i < |deltas| => BlockDeltaEvent(index, deltas[i]))
  }

  function PlayEvents(index: nat, p: Play): seq<Event> {
    [BlockStart(index, p.start)] + DeltaEvents(index, p.deltas) + [BlockStop(index)]
  }

  function Script(plays: seq<Play>): seq<Event> {
    if plays == [] then [] else Script(plays[..|plays| - 1]) + PlayEvents(|plays| - 1, plays[|plays| - 1])
  }

  /** The event sequence of a whole message. */
  function Whole(id: string, plays: seq<Play>, stop: StopReason): seq<Event> {
    [MessageStart(id, false)] + Script(plays) + [MessageDelta(stop), MessageStop]
  }

  function Args(deltas: seq<BlockDelta>): string {
    if deltas == [] then ""
    else
      var d := deltas[|deltas| - 1];
      Args(deltas[..|deltas| - 1]) + if d.kind == InputDelta then d.partial else ""
  }

  function DeltaSizes(deltas: seq<BlockDelta>): seq<int> {
    seq(|deltas|, i requires 0 <= i < |deltas| => DeltaSize(deltas[i]))
  }

  function Cost(p: Play): int {
    BlockSize(p.start) + Sum(DeltaSizes(p.deltas))
  }

  function Costs(plays: seq<Play>): seq<int> {
    seq(|plays|, i requires 0 <= i < |plays| => Cost(plays[i]))
  }

  predicate FitsKind(b: Block, d: BlockDelta) {
    Fits(Live(b, "", false, 0), d)
  }

  /** A block sent as a play is well formed: its fragments fit its kind, and a tool's whole input is acceptable. */
  predicate Playable(cfg: Config, p: Play) {
    && p.start.kind != UnknownBlock
    && (forall i :: 0 <= i < |p.deltas| ==> FitsKind(p.start, p.deltas[i]))
    && (p.start.kind == ToolBlock ==> GoodTool(cfg, p.start.(input := WholeInput(Args(p.deltas), p.start.input))))
  }

  function Ids(plays: seq<Play>): set<string> {
    set i | 0 <= i < |plays| && plays[i].start.kind == ToolBlock :: plays[i].start.id
  }

  /** Every block is well formed, tool identities are distinct, and count and total size are within the limits. */
  predicate AllPlayable(cfg: Config, plays: seq<Play>) {
    && |plays| <= MAX_PARTS
    && (forall i :: 0 <= i < |plays| ==> Playable(cfg, plays[i]))
    && (forall i, k :: 0 <= i < k < |plays| && plays[i].start.kind == ToolBlock && plays[k].start.kind == ToolBlock ==>
         plays[i].start.id != plays[k].start.id)
    && Sum(Costs(plays)) <= MAX_STREAM
  }

  /** The stream between blocks. */
  predicate Between(s: State, count: nat, ids: set<string>, size: int) {
    && s.started && !s.stopped && s.finish.None?
    && |s.blocks| == count && (forall i :: 0 <= i < count ==> s.blocks[i].closed)
    && s.ids == ids && s.size == size
  }

  lemma {:induction false} StreamAppend(cfg: Config, s: State, a: seq<Event>, b: seq<Event>)
    ensures Stream(cfg, s, a + b).Ok? <==> Stream(cfg, s, a).Ok? && Stream(cfg, Stream(cfg, s, a).value.0, b).Ok?
    ensures Stream(cfg, s, a + b).Ok? ==>
      Stream(cfg, s, a + b).value == (Stream(cfg, Stream(cfg, s, a).value.0, b).value.0, Stream(cfg, s, a).value.1
        + Stream(cfg, Stream(cfg, s, a).value.0, b).value.1)
  {
    if b == [] {
      assert a + b == a;
      if Stream(cfg, s, a).Ok? {
        assert Stream(cfg, s, a).value.1 + [] == Stream(cfg, s, a).value.1;
      }
    } else {
      assert (a + b)[..|a + b| - 1] == a + b[..|b| - 1];
      StreamAppend(cfg, s, a, b[..|b| - 1]);
      if Stream(cfg, s, a + b).Ok? {
        var t := Stream(cfg, s, a).value;
        var u := Stream(cfg, t.0, b[..|b| - 1]).value;
        Regroup(t.1, u.1, Step(cfg, u.0, b[|b| - 1]).value.1);
      }
    }
  }

  lemma StreamOne(cfg: Config, s: State, e: Event)
    ensures Stream(cfg, s, [e]).Ok? <==> Step(cfg, s, e).Ok?
    ensures Step(cfg, s, e).Ok? ==> Stream(cfg, s, [e]).value == Step(cfg, s, e).value
  {
    assert [e][..0] == [];
    assert Stream(cfg, s, []) == Ok((s, []));
    if Step(cfg, s, e).Ok? {
      assert [] + Step(cfg, s, e).value.1 == Step(cfg, s, e).value.1;
    }
  }

  /** The fragments of an open last block are accepted exactly when each fits and the size stays in bounds. */
  lemma {:induction false} DeltasPlay(cfg: Config, s: State, b: Block, deltas: seq<BlockDelta>)
    requires s.started && !s.stopped && s.finish.None? && s.blocks != []
    requires s.blocks[|s.blocks| - 1].block == b && s.blocks[|s.blocks| - 1].args == ""
      && !s.blocks[|s.blocks| - 1].closed
    requires s.size <= MAX_STREAM
    ensures Stream(cfg, s, DeltaEvents(|s.blocks| - 1, deltas)).Ok? <==>
      (forall i :: 0 <= i < |deltas| ==> FitsKind(b, deltas[i])) && s.size + Sum(DeltaSizes(deltas)) <= MAX_STREAM
    ensures Stream(cfg, s, DeltaEvents(|s.blocks| - 1, deltas)).Ok? ==>
      Stream(cfg, s, DeltaEvents(|s.blocks| - 1, deltas)).value.0 == AfterDeltas(s, deltas)
  {
    var n := |s.blocks| - 1;
    if deltas == [] {
      assert s.blocks[n := s.blocks[n].(args := "")] == s.blocks;
      assert DeltaEvents(n, deltas) == [];
    } else {
      var front, d := deltas[..|deltas| - 1], deltas[|deltas| - 1];
      assert deltas == front + [d];
      DeltasPlay(cfg, s, b, front);
      assert DeltaEvents(n, deltas) == DeltaEvents(n, front) + [BlockDeltaEvent(n, d)];
      assert DeltaSizes(deltas) == DeltaSizes(front) + [DeltaSize(d)];
      SumAppend(DeltaSizes(front), DeltaSize(d));
      StreamAppend(cfg, s, DeltaEvents(n, front), [BlockDeltaEvent(n, d)]);
      if Stream(cfg, s, DeltaEvents(n, front)).Ok? {
        DeltaPlays(cfg, s, b, front, d);
      }
      assert (forall i :: 0 <= i < |deltas| ==> FitsKind(b, deltas[i])) <==>
        (forall i :: 0 <= i < |front| ==> FitsKind(b, front[i])) && FitsKind(b, d) by {
        forall i | 0 <= i < |front| ensures front[i] == deltas[i] {}
      }
    }
  }

  function AfterDeltas(s: State, deltas: seq<BlockDelta>): State
    requires s.blocks != []
  {
    var n := |s.blocks| - 1;
    s.(size := NatSum(s.size, Sum(DeltaSizes(deltas))), blocks := s.blocks[n := s.blocks[n].(args := Args(deltas))])
  }

  function NatSum(a: int, b: int): nat {
    if a + b >= 0 then a + b else 0
  }

  lemma DeltaSizesPositive(deltas: seq<BlockDelta>)
    ensures Sum(DeltaSizes(deltas)) >= 0
  {
    SumNonnegative(DeltaSizes(deltas));
  }

  /** A block that took input fragments started with no real input, so any later fragment fits as the first did. */
  lemma {:induction false} ArgsFit(b: Block, deltas: seq<BlockDelta>)
    requires forall i :: 0 <= i < |deltas| ==> FitsKind(b, deltas[i])
    ensures Args(deltas) != "" ==> b.kind == ToolBlock && (b.input == "" || b.input == "{}")
  {
    if deltas != [] {
      ArgsFit(b, deltas[..|deltas| - 1]);
    }
  }

  lemma DeltaPlays(cfg: Config, s: State, b: Block, front: seq<BlockDelta>, d: BlockDelta)
    requires s.started && !s.stopped && s.finish.None? && s.blocks != []
    requires s.blocks[|s.blocks| - 1].block == b && s.blocks[|s.blocks| - 1].args == ""
      && !s.blocks[|s.blocks| - 1].closed
    requires forall i :: 0 <= i < |front| ==> FitsKind(b, front[i])
    ensures var t := AfterDeltas(s, front); var e := BlockDeltaEvent(|s.blocks| - 1, d);
      && (Stream(cfg, t, [e]).Ok? <==> FitsKind(b, d) && s.size + Sum(DeltaSizes(front)) + DeltaSize(d) <= MAX_STREAM)
      && (Stream(cfg, t, [e]).Ok? ==> Stream(cfg, t, [e]).value.0 == AfterDeltas(s, front + [d]))
  {
    var n := |s.blocks| - 1;
    var t := AfterDeltas(s, front);
    DeltaSizesPositive(front);
    ArgsFit(b, front);
    StreamOne(cfg, t, BlockDeltaEvent(n, d));
    assert DeltaSizes(front + [d]) == DeltaSizes(front) + [DeltaSize(d)];
    SumAppend(DeltaSizes(front), DeltaSize(d));
    assert (front + [d])[..|front|] == front;
    assert Args(front + [d]) == Args(front) + if d.kind == InputDelta then d.partial else "";
    var l := t.blocks[n];
    assert Fits(l, d) <==> FitsKind(b, d);
    if DeltaBlock(cfg, t, n, d).Ok? {
      DeltaForm(cfg, t, n, d);
      assert AfterDelta(l, d) == l.(args := Args(front + [d]));
      assert s.blocks[n := l][n := AfterDelta(l, d)] == s.blocks[n := AfterDelta(l, d)];
    }
  }

  predicate StartFits(s: State, b: Block) {
    && |s.blocks| < MAX_PARTS && b.kind != UnknownBlock && (b.kind == ToolBlock ==> ToolNamed(b) && b.id !in s.ids)
    && s.size + BlockSize(b) <= MAX_STREAM
  }

  function Started(s: State, b: Block): State {
    s.(blocks := s.blocks + [Live(b, "", false, if b.kind == ToolBlock then |s.ids| else 0)],
        size := s.size + BlockSize(b),
       ids := if b.kind == ToolBlock then s.ids + {b.id} else s.ids)
  }

  lemma StartPlays(cfg: Config, s: State, b: Block)
    requires Between(s, |s.blocks|, s.ids, s.size)
    ensures Step(cfg, s, BlockStart(|s.blocks|, b)).Ok? <==> StartFits(s, b)
    ensures Step(cfg, s, BlockStart(|s.blocks|, b)).Ok? ==>
      Step(cfg, s, BlockStart(|s.blocks|, b)).value.0 == Started(s, b)
  {
  }

  /** One block up to its stop. */
  lemma OpenPlays(cfg: Config, s: State, p: Play)
    requires Between(s, |s.blocks|, s.ids, s.size) && s.size <= MAX_STREAM
    ensures Stream(cfg, s, [BlockStart(|s.blocks|, p.start)] + DeltaEvents(|s.blocks|, p.deltas)).Ok? <==>
      StartFits(s, p.start) && (forall i :: 0 <= i < |p.deltas| ==>
        FitsKind(p.start, p.deltas[i])) && s.size + Cost(p) <= MAX_STREAM
    ensures Stream(cfg, s, [BlockStart(|s.blocks|, p.start)] + DeltaEvents(|s.blocks|, p.deltas)).Ok? ==>
      Stream(cfg, s, [BlockStart(|s.blocks|, p.start)] + DeltaEvents(|s.blocks|, p.deltas)).value.0
        == AfterDeltas(Started(s, p.start), p.deltas)
  {
    var n := |s.blocks|;
    StreamAppend(cfg, s, [BlockStart(n, p.start)], DeltaEvents(n, p.deltas));
    StreamOne(cfg, s, BlockStart(n, p.start));
    StartPlays(cfg, s, p.start);
    DeltaSizesPositive(p.deltas);
    if StartFits(s, p.start) {
      DeltasPlay(cfg, Started(s, p.start), p.start, p.deltas);
    }
  }

  /** One block from start to stop. */
  lemma PlayPlays(cfg: Config, s: State, p: Play)
    requires Between(s, |s.blocks|, s.ids, s.size) && s.size <= MAX_STREAM
    ensures Stream(cfg, s, PlayEvents(|s.blocks|, p)).Ok? <==>
      |s.blocks| < MAX_PARTS && Playable(cfg, p) && (p.start.kind == ToolBlock ==> p.start.id !in s.ids)
      && s.size + Cost(p) <= MAX_STREAM
    ensures Stream(cfg, s, PlayEvents(|s.blocks|, p)).Ok? ==>
      Between(Stream(cfg, s, PlayEvents(|s.blocks|, p)).value.0, |s.blocks|
        + 1, if p.start.kind == ToolBlock then s.ids + {p.start.id} else s.ids, s.size + Cost(p))
  {
    var n := |s.blocks|;
    var before := [BlockStart(n, p.start)] + DeltaEvents(n, p.deltas);
    StreamAppend(cfg, s, before, [BlockStop(n)]);
    OpenPlays(cfg, s, p);
    DeltaSizesPositive(p.deltas);
    if Stream(cfg, s, before).Ok? {
      var u := AfterDeltas(Started(s, p.start), p.deltas);
      StreamOne(cfg, u, BlockStop(n));
      StopPlays(cfg, u, p, n);
    }
  }

  lemma StopPlays(cfg: Config, u: State, p: Play, n: nat)
    requires u.started && !u.stopped && n < |u.blocks| && u.blocks[n].block == p.start
    requires u.blocks[n].args == Args(p.deltas) && !u.blocks[n].closed
    requires p.start.kind == ToolBlock ==> ToolNamed(p.start)
    ensures Step(cfg, u, BlockStop(n)).Ok? <==>
      (p.start.kind == ToolBlock ==> GoodTool(cfg, p.start.(input := WholeInput(Args(p.deltas), p.start.input))))
    ensures Step(cfg, u, BlockStop(n)).Ok? ==> var v := Step(cfg, u, BlockStop(n)).value.0;
      v == u.(blocks := v.blocks) && |v.blocks| == |u.blocks| && v.blocks[n].closed &&
        forall i :: 0 <= i < |u.blocks| && i != n ==>
        v.blocks[i] == u.blocks[i]
  {
    assert WholeInput("", WholeInput(Args(p.deltas), p.start.input)) == WholeInput(Args(p.deltas), p.start.input);
  }

  lemma CostsAppend(plays: seq<Play>, p: Play)
    ensures Sum(Costs(plays + [p])) == Sum(Costs(plays)) + Cost(p)
    ensures Cost(p) >= 0
  {
    assert Costs(plays + [p]) == Costs(plays) + [Cost(p)];
    SumAppend(Costs(plays), Cost(p));
    DeltaSizesPositive(p.deltas);
  }

  lemma PlayableAppend(cfg: Config, plays: seq<Play>, p: Play)
    ensures AllPlayable(cfg, plays + [p]) <==>
      && AllPlayable(cfg, plays) && |plays| < MAX_PARTS && Playable(cfg, p)
      && (p.start.kind == ToolBlock ==> p.start.id !in Ids(plays)) && Sum(Costs(plays)) + Cost(p) <= MAX_STREAM
    ensures Ids(plays + [p]) == if p.start.kind == ToolBlock then Ids(plays) + {p.start.id} else Ids(plays)
  {
    CostsAppend(plays, p);
    var all := plays + [p];
    forall i | 0 <= i < |plays| ensures all[i] == plays[i] {}
    assert all[|plays|] == p;
    forall id | id in Ids(plays) ensures id in Ids(all) {
      var i :| 0 <= i < |plays| && plays[i].start.kind == ToolBlock && plays[i].start.id == id;
      assert all[i].start.id == id;
    }
    if AllPlayable(cfg, all) {
      assert forall i :: 0 <= i < |plays| ==> Playable(cfg, all[i]);
    }
  }

  ghost predicate PlaysTo(cfg: Config, s: State, script: seq<Event>, plays: seq<Play>) {
    && (Stream(cfg, s, script).Ok? <==> AllPlayable(cfg, plays))
    && (Stream(cfg, s, script).Ok? ==> Between(Stream(cfg, s, script).value.0, |plays|, Ids(plays), Sum(Costs(plays))))
  }

  lemma PlayNext(cfg: Config, s: State, script: seq<Event>, front: seq<Play>, p: Play)
    requires PlaysTo(cfg, s, script, front)
    ensures PlaysTo(cfg, s, script + PlayEvents(|front|, p), front + [p])
  {
    PlayableAppend(cfg, front, p);
    CostsAppend(front, p);
    StreamAppend(cfg, s, script, PlayEvents(|front|, p));
    if Stream(cfg, s, script).Ok? {
      PlayPlays(cfg, Stream(cfg, s, script).value.0, p);
    }
  }

  lemma {:induction false} ScriptPlays(cfg: Config, s: State, plays: seq<Play>)
    requires Between(s, 0, {}, 0)
    ensures PlaysTo(cfg, s, Script(plays), plays)
  {
    if plays == [] {
      assert Stream(cfg, s, []) == Ok((s, []));
    } else {
      var front, p := plays[..|plays| - 1], plays[|plays| - 1];
      assert plays == front + [p];
      ScriptPlays(cfg, s, front);
      PlayNext(cfg, s, Script(front), front, p);
    }
  }

  predicate GoodId(id: string) {
    0 < |id| <= 256
  }

  /** A message played block by block is accepted to its end exactly when every block is well formed, tool identities
      are distinct, the limits hold and the stop reason is known. */
  lemma WholePlays(cfg: Config, id: string, plays: seq<Play>, stop: StopReason)
    ensures Stream(cfg, FRESH, Whole(id, plays, stop)).Ok? <==>
      GoodId(id) && AllPlayable(cfg, plays) && MapStop(stop).Some?
    ensures Stream(cfg, FRESH, Whole(id, plays, stop)).Ok? ==>
      Stream(cfg, FRESH, Whole(id, plays, stop)).value.0.stopped
  {
    var first, middle := [MessageStart(id, false)], Script(plays);
    assert [MessageDelta(stop), MessageStop] == [MessageDelta(stop)] + [MessageStop];
    assert Whole(id, plays, stop) == ((first + middle) + [MessageDelta(stop)]) + [MessageStop];
    StreamAppend(cfg, FRESH, (first + middle) + [MessageDelta(stop)], [MessageStop]);
    StreamAppend(cfg, FRESH, first + middle, [MessageDelta(stop)]);
    StreamAppend(cfg, FRESH, first, middle);
    StreamOne(cfg, FRESH, MessageStart(id, false));
    if Step(cfg, FRESH, MessageStart(id, false)).Ok? {
      var s := Step(cfg, FRESH, MessageStart(id, false)).value.0;
      ScriptPlays(cfg, s, plays);
      if Stream(cfg, s, middle).Ok? {
        EndPlays(cfg, Stream(cfg, s, middle).value.0, stop);
      }
    }
  }

  lemma EndPlays(cfg: Config, t: State, stop: StopReason)
    requires Between(t, |t.blocks|, t.ids, t.size)
    ensures (Stream(cfg, t, [MessageDelta(stop)]).Ok?
        && Stream(cfg, Stream(cfg, t, [MessageDelta(stop)]).value.0, [MessageStop]).Ok?) <==> MapStop(stop).Some?
    ensures (Stream(cfg, t, [MessageDelta(stop)]).Ok?
        && Stream(cfg, Stream(cfg, t, [MessageDelta(stop)]).value.0, [MessageStop]).Ok?) ==>
      Stream(cfg, Stream(cfg, t, [MessageDelta(stop)]).value.0, [MessageStop]).value.0.stopped
  {
    StreamOne(cfg, t, MessageDelta(stop));
    if Step(cfg, t, MessageDelta(stop)).Ok? {
      StreamOne(cfg, Step(cfg, t, MessageDelta(stop)).value.0, MessageStop);
    }
  }

  // ---- What the played message says -----------------------------------------------------------------------

  function Spelling(b: Part, deltas: seq<BlockDelta>): Part {
    if deltas == [] then b else SpellDelta(Spelling(b, deltas[..|deltas| - 1]), deltas[|deltas| - 1])
  }

  /** The part a play stands for. */
  function Played(p: Play): Part {
    Spelling(Part(p.start, "", false), p.deltas).(closed := true)
  }

  function PlayedAll(plays: seq<Play>): seq<Part> {
    seq(|plays|, i requires 0 <= i < |plays| => Played(plays[i]))
  }

  function SpellFrom(m: Spelled, events: seq<Event>): Spelled {
    if events == [] then m else Spell(SpellFrom(m, events[..|events| - 1]), events[|events| - 1])
  }

  lemma {:induction false} SpellFromAppend(m: Spelled, a: seq<Event>, b: seq<Event>)
    ensures SpellFrom(m, a + b) == SpellFrom(SpellFrom(m, a), b)
  {
    if b == [] {
      assert a + b == a;
    } else {
      assert (a + b)[..|a + b| - 1] == a + b[..|b| - 1];
      SpellFromAppend(m, a, b[..|b| - 1]);
    }
  }

  lemma {:induction false} SpellAllFrom(events: seq<Event>)
    ensures SpellAll(events) == SpellFrom(Spelled([], NoReason), events)
  {
    if events != [] {
      SpellAllFrom(events[..|events| - 1]);
    }
  }

  lemma SpellOne(m: Spelled, e: Event)
    ensures SpellFrom(m, [e]) == Spell(m, e)
  {
    assert [e][..0] == [];
    assert SpellFrom(m, []) == m;
  }

  lemma {:induction false} DeltasSpell(m: Spelled, deltas: seq<BlockDelta>)
    requires m.parts != []
    ensures SpellFrom(m, DeltaEvents(|m.parts| - 1, deltas)) ==
      m.(parts := m.parts[|m.parts| - 1 := Spelling(m.parts[|m.parts| - 1], deltas)])
  {
    var n := |m.parts| - 1;
    if deltas == [] {
      assert m.parts[n := m.parts[n]] == m.parts;
    } else {
      var front, d := deltas[..|deltas| - 1], deltas[|deltas| - 1];
      DeltasSpell(m, front);
      assert DeltaEvents(n, deltas)[..|deltas| - 1] == DeltaEvents(n, front);
    }
  }

  lemma OpenSpells(m: Spelled, n: nat, start: Block, deltas: seq<BlockDelta>)
    requires n == |m.parts|
    ensures SpellFrom(m, [BlockStart(n, start)] + DeltaEvents(n, deltas)) ==
      m.(parts := m.parts + [Spelling(Part(start, "", false), deltas)])
  {
    SpellFromAppend(m, [BlockStart(n, start)], DeltaEvents(n, deltas));
    SpellOne(m, BlockStart(n, start));
    var opening := m.(parts := m.parts + [Part(start, "", false)]);
    DeltasSpell(opening, deltas);
    assert opening.parts[n := Spelling(opening.parts[n], deltas)] ==
      m.parts + [Spelling(Part(start, "", false), deltas)];
  }

  lemma PlaySpells(m: Spelled, p: Play)
    ensures SpellFrom(m, PlayEvents(|m.parts|, p)) == m.(parts := m.parts + [Played(p)])
  {
    var n := |m.parts|;
    var before := [BlockStart(n, p.start)] + DeltaEvents(n, p.deltas);
    var told := m.(parts := m.parts + [Spelling(Part(p.start, "", false), p.deltas)]);
    OpenSpells(m, n, p.start, p.deltas);
    SpellFromAppend(m, before, [BlockStop(n)]);
    SpellOne(told, BlockStop(n));
    assert told.parts[n := Played(p)] == m.parts + [Played(p)];
  }

  lemma {:induction false} ScriptSpells(plays: seq<Play>)
    ensures SpellFrom(Spelled([], NoReason), Script(plays)) == Spelled(PlayedAll(plays), NoReason)
  {
    if plays != [] {
      var front, p := plays[..|plays| - 1], plays[|plays| - 1];
      ScriptSpells(front);
      SpellFromAppend(Spelled([], NoReason), Script(front), PlayEvents(|front|, p));
      PlaySpells(Spelled(PlayedAll(front), NoReason), p);
      assert PlayedAll(plays) == PlayedAll(front) + [Played(p)];
    }
  }

  /** The events of a message spell out its blocks, however they are cut. */
  lemma WholeSpells(id: string, plays: seq<Play>, stop: StopReason)
    ensures SpellAll(Whole(id, plays, stop)) == Spelled(PlayedAll(plays), stop)
  {
    var none := Spelled([], NoReason);
    var first, middle := [MessageStart(id, false)], Script(plays);
    assert [MessageDelta(stop), MessageStop] == [MessageDelta(stop)] + [MessageStop];
    assert Whole(id, plays, stop) == ((first + middle) + [MessageDelta(stop)]) + [MessageStop];
    SpellAllFrom(Whole(id, plays, stop));
    SpellFromAppend(none, (first + middle) + [MessageDelta(stop)], [MessageStop]);
    SpellFromAppend(none, first + middle, [MessageDelta(stop)]);
    SpellFromAppend(none, first, middle);
    SpellOne(none, MessageStart(id, false));
    ScriptSpells(plays);
    SpellOne(Spelled(PlayedAll(plays), NoReason), MessageDelta(stop));
    SpellOne(Spelled(PlayedAll(plays), stop), MessageStop);
  }

  // ---- Main result ----------------------------------------------------------------------------------------

  /** The message a play of blocks stands for. */
  function Meaning(plays: seq<Play>): seq<Block> {
    CompleteAll(PlayedAll(plays))
  }

  /** Fragmentation does not matter: two ways of sending the same blocks that are both accepted give the client the
      same message, and it is the one-shot message when the blocks are clean. */
  lemma FragmentationIsInvisible(cfg: Config, id: string, a: seq<Play>, b: seq<Play>, stop: StopReason)
    requires GoodId(id) && AllPlayable(cfg, a) && AllPlayable(cfg, b) && MapStop(stop).Some?
    requires Meaning(a) == Meaning(b) && AllClean(cfg, PlayedAll(a))
    ensures Stream(cfg, FRESH, Whole(id, a, stop)).Ok? && Stream(cfg, FRESH, Whole(id, b, stop)).Ok?
    ensures ReadAll(EMPTY, Stream(cfg, FRESH, Whole(id, a, stop)).value.1) == OneShot(cfg, Meaning(a), stop)
    ensures ReadAll(EMPTY, Stream(cfg, FRESH, Whole(id, b, stop)).value.1) == OneShot(cfg, Meaning(a), stop)
  {
    WholePlays(cfg, id, a, stop);
    WholePlays(cfg, id, b, stop);
    WholeSpells(id, a, stop);
    WholeSpells(id, b, stop);
    forall i | 0 <= i < |b| ensures Clean(cfg, Complete(PlayedAll(b)[i])) {
      assert Meaning(a)[i] == Meaning(b)[i];
      assert Clean(cfg, Complete(PlayedAll(a)[i]));
    }
    CleanMeetsOneShot(cfg, Whole(id, a, stop));
    CleanMeetsOneShot(cfg, Whole(id, b, stop));
  }
}
