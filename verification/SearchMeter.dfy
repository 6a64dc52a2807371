/** Metering of hosted searches: items as they complete, terminal outputs and usage figures repeat the same calls. */
module SearchMeter {
  import opened Outcomes

  const FRAME_LIMIT := 20000
  const LIMIT := 10000

  datatype Kind = Web | X

  datatype Item = Call(kind: Kind, complete: bool, id: string) | NoCall

  /** A frame that counts: one completed item, or a whole output with its usage figures. */
  datatype Frame = Frame(done: bool, items: seq<Item>, web: Option<int>, x: Option<int>)

  datatype Key = Key(kind: Kind, id: string)

  datatype Pair = Pair(web: nat, x: nat)

  datatype Meter = Meter(seen: set<Key>, done: Pair, output: Pair, usage: Pair)

  const NEW_METER := Meter({}, Pair(0, 0), Pair(0, 0), Pair(0, 0))

  function At(p: Pair, kind: Kind): nat {
    if kind == Web then p.web else p.x
  }

  function Max(a: nat, b: nat): nat {
    if a < b then b else a
  }

  function CountOf(m: Meter, kind: Kind): nat {
    Max(Max(At(m.done, kind), At(m.output, kind)), At(m.usage, kind))
  }

  function Count(m: Meter): nat {
    CountOf(m, Web) + CountOf(m, X)
  }

  /** The distinct identities of completed calls. */
  function Keys(items: seq<Item>): set<Key> {
    if items == [] then {}
    else
      var item := items[|items| - 1];
      Keys(items[..|items| - 1]) +
      if item.Call? && item.complete && item.id != "" then {Key(item.kind, item.id)} else {}
  }

  function Anonymous(items: seq<Item>, kind: Kind): nat {
    if items == [] then 0
    else
      var item := items[|items| - 1];
      Anonymous(items[..|items| - 1], kind) +
      if item.Call? && item.complete && item.id == "" && item.kind == kind then 1 else 0
  }

  function OfKind(keys: set<Key>, kind: Kind): set<Key> {
    set key | key in keys && key.kind == kind
  }

  /** What the items add for a kind, beyond identities already seen. */
  function Added(items: seq<Item>, seen: set<Key>, kind: Kind): nat {
    |OfKind(Keys(items) - seen, kind)| + Anonymous(items, kind)
  }

  predicate ValidItem(openAI: bool, item: Item) {
    item.Call? ==> !(openAI && item.kind == X) && (item.complete ==> |item.id| <= 256)
  }

  predicate Valid(openAI: bool, items: seq<Item>) {
    forall k :: 0 <= k < |items| ==> ValidItem(openAI, items[k])
  }

  predicate AnyComplete(items: seq<Item>) {
    exists k :: 0 <= k < |items| && items[k].Call? && items[k].complete
  }

  function Before(m: Meter, f: Frame): set<Key> {
    if f.done then m.seen else {}
  }

  function SeenAfter(m: Meter, f: Frame): set<Key> {
    if f.done then m.seen + Keys(f.items) else m.seen
  }

  predicate TooMany(m: Meter, f: Frame) {
    AnyComplete(f.items) && Added(f.items, Before(m, f), Web) + Added(f.items, Before(m, f), X) +
      |SeenAfter(m, f)| > FRAME_LIMIT
  }

  predicate UsageOk(openAI: bool, f: Frame) {
    openAI || ((f.web.Some? ==> 0 <= f.web.value <= LIMIT) && (f.x.Some? ==> 0 <= f.x.value <= LIMIT))
  }

  function Figure(openAI: bool, value: Option<int>): nat {
    if openAI || value.None? || value.value < 0 then 0 else value.value
  }

  /** The meter after a frame, if it is accepted. */
  function After(openAI: bool, m: Meter, f: Frame): Meter {
    var web, x := Added(f.items, Before(m, f), Web), Added(f.items, Before(m, f), X);
    var usage := Pair(Max(m.usage.web, Figure(openAI, f.web)), Max(m.usage.x, Figure(openAI, f.x)));
    if f.done then Meter(m.seen + Keys(f.items), Pair(m.done.web + web, m.done.x + x), m.output, usage)
    else Meter(m.seen, m.done, Pair(Max(m.output.web, web), Max(m.output.x, x)), usage)
  }

  predicate Accepts(openAI: bool, m: Meter, f: Frame) {
    Valid(openAI, f.items) && !TooMany(m, f) && UsageOk(openAI, f) && Count(After(openAI, m, f)) <= LIMIT
  }

  function Observe(openAI: bool, m: Meter, f: Frame): Option<Meter> {
    if Accepts(openAI, m, f) then Some(After(openAI, m, f)) else None
  }

  function ObserveAll(openAI: bool, frames: seq<Frame>): Option<Meter> {
    if frames == [] then Some(NEW_METER)
    else match ObserveAll(openAI, frames[..|frames| - 1])
      case None => None
      case Some(m) => Observe(openAI, m, frames[|frames| - 1])
  }

  // ---- What a run of frames means -------------------------------------------------------------------------

  function DoneKeys(frames: seq<Frame>): set<Key> {
    if frames == [] then {}
    else DoneKeys(frames[..|frames| - 1]) + if frames[|frames| - 1].done then Keys(frames[|frames| - 1].items) else {}
  }

  function DoneAnonymous(frames: seq<Frame>, kind: Kind): nat {
    if frames == [] then 0
    else
      DoneAnonymous(frames[..|frames| - 1], kind) +
      if frames[|frames| - 1].done then Anonymous(frames[|frames| - 1].items, kind) else 0
  }

  function MostOutput(frames: seq<Frame>, kind: Kind): nat {
    if frames == [] then 0
    else Max(MostOutput(frames[..|frames| - 1], kind),
        if frames[|frames| - 1].done then 0 else Added(frames[|frames| - 1].items, {}, kind))
  }

  function FigureOf(openAI: bool, f: Frame, kind: Kind): nat {
    Figure(openAI, if kind == Web then f.web else f.x)
  }

  function MostUsage(openAI: bool, frames: seq<Frame>, kind: Kind): nat {
    if frames == [] then 0
    else Max(MostUsage(openAI, frames[..|frames| - 1], kind), FigureOf(openAI, frames[|frames| - 1], kind))
  }

  /** The figure for a kind as a matter of sets and maxima: the distinct completed identities and the unnamed completed
      items, the largest output, the largest usage figure, whichever is greatest. */
  function Meaning(openAI: bool, frames: seq<Frame>, kind: Kind): nat {
    Max(Max(|OfKind(DoneKeys(frames), kind)| + DoneAnonymous(frames, kind), MostOutput(frames, kind)),
        MostUsage(openAI, frames, kind))
  }

  lemma KindSplit(a: set<Key>, b: set<Key>, kind: Kind)
    ensures |OfKind(a + b, kind)| == |OfKind(a, kind)| + |OfKind(b - a, kind)|
  {
    assert OfKind(a + b, kind) == OfKind(a, kind) + OfKind(b - a, kind);
    assert OfKind(a, kind) !! OfKind(b - a, kind);
  }

  lemma DoneStep(frames: seq<Frame>, kind: Kind)
    requires frames != [] && frames[|frames| - 1].done
    ensures var front, f := frames[..|frames| - 1], frames[|frames| - 1];
      |OfKind(DoneKeys(frames), kind)| + DoneAnonymous(frames, kind) == |OfKind(DoneKeys(front), kind)|
        + DoneAnonymous(front, kind) + Added(f.items, DoneKeys(front), kind)
  {
    KindSplit(DoneKeys(frames[..|frames| - 1]), Keys(frames[|frames| - 1].items), kind);
  }

  predicate Stands(openAI: bool, m: Meter, frames: seq<Frame>, kind: Kind) {
    && At(m.done, kind) == |OfKind(DoneKeys(frames), kind)| + DoneAnonymous(frames, kind)
    && At(m.output, kind) == MostOutput(frames, kind) && At(m.usage, kind) == MostUsage(openAI, frames, kind)
  }

  lemma FrameStands(openAI: bool, frames: seq<Frame>, before: Meter, m: Meter, kind: Kind)
    requires frames != [] && m == After(openAI, before, frames[|frames| - 1])
    requires before.seen == DoneKeys(frames[..|frames| - 1]) && Stands(openAI, before, frames[..|frames| - 1], kind)
    ensures m.seen == DoneKeys(frames) && Stands(openAI, m, frames, kind)
  {
    if frames[|frames| - 1].done {
      DoneStep(frames, kind);
    }
  }

  lemma {:induction false} RunStands(openAI: bool, frames: seq<Frame>, m: Meter, kind: Kind)
    requires ObserveAll(openAI, frames) == Some(m)
    ensures m.seen == DoneKeys(frames) && Stands(openAI, m, frames, kind)
  {
    if frames == [] {
      assert OfKind({}, kind) == {};
    } else {
      var before := ObserveAll(openAI, frames[..|frames| - 1]).value;
      RunStands(openAI, frames[..|frames| - 1], before, kind);
      FrameStands(openAI, frames, before, m, kind);
    }
  }

  /** Main result: the count after any accepted run is given by sets and maxima over its frames. */
  lemma CountMeans(openAI: bool, frames: seq<Frame>, m: Meter)
    requires ObserveAll(openAI, frames) == Some(m)
    ensures Count(m) == Meaning(openAI, frames, Web) + Meaning(openAI, frames, X) <= LIMIT
  {
    RunStands(openAI, frames, m, Web);
    RunStands(openAI, frames, m, X);
  }

  /** The count never decreases. */
  lemma NeverDecreases(openAI: bool, m: Meter, f: Frame, n: Meter)
    requires Observe(openAI, m, f) == Some(n)
    ensures Count(m) <= Count(n) && m.seen <= n.seen
  {
    assert CountOf(m, Web) <= CountOf(n, Web) && CountOf(m, X) <= CountOf(n, X);
  }

  lemma {:induction false} NamedHaveNoAnonymous(items: seq<Item>, kind: Kind)
    requires forall k :: 0 <= k < |items| && items[k].Call? && items[k].complete ==> items[k].id != ""
    ensures Anonymous(items, kind) == 0
  {
    if items != [] {
      NamedHaveNoAnonymous(items[..|items| - 1], kind);
    }
  }

  /** A repeated item without an identity counts again: the repetition is not recognised. */
  lemma UnnamedCountsAgain(m: Meter)
    requires m.output.web == 0 && m.usage.web == 0
    ensures var f := Frame(true, [Call(Web, true, "")], None, None);
      CountOf(After(false, After(false, m, f), f), Web) == CountOf(m, Web) + 2
  {
    var items := [Call(Web, true, "")];
    assert items[..0] == [];
    assert Keys([]) == {} && Anonymous([], Web) == 0;
    assert Keys(items) == {} && Anonymous(items, Web) == 1;
    assert OfKind({}, Web) == {};
    forall seen: set<Key> ensures Added(items, seen, Web) == 1 {
      assert {} - seen == {};
    }
  }

  // ---- The frame limit never decides ----------------------------------------------------------------------

  lemma {:induction false} KindsCover(keys: set<Key>)
    ensures |keys| == |OfKind(keys, Web)| + |OfKind(keys, X)|
  {
    assert keys == OfKind(keys, Web) + OfKind(keys, X);
    assert OfKind(keys, Web) !! OfKind(keys, X);
  }

  lemma SeenWithinDone(openAI: bool, frames: seq<Frame>, m: Meter)
    requires ObserveAll(openAI, frames) == Some(m)
    ensures |m.seen| <= m.done.web + m.done.x <= LIMIT
  {
    RunStands(openAI, frames, m, Web);
    RunStands(openAI, frames, m, X);
    KindsCover(m.seen);
    CountMeans(openAI, frames, m);
  }

  /** In a run, a frame with an output too long for the frame limit would be refused for its count anyway. */
  lemma FrameLimitIsRedundant(openAI: bool, frames: seq<Frame>, m: Meter, f: Frame)
    requires ObserveAll(openAI, frames) == Some(m) && TooMany(m, f)
    ensures Count(After(openAI, m, f)) > LIMIT
  {
    SeenWithinDone(openAI, frames, m);
    if f.done {
      SeenGrowth(m.seen, f.items);
    }
  }

  lemma SeenGrowth(seen: set<Key>, items: seq<Item>)
    ensures |seen + Keys(items)| <= |seen| + Added(items, seen, Web) + Added(items, seen, X)
  {
    KindsCover(Keys(items) - seen);
    assert seen + Keys(items) == seen + (Keys(items) - seen);
  }

  // ---- Repetition -----------------------------------------------------------------------------------------

  predicate FrameOk(openAI: bool, f: Frame) {
    Valid(openAI, f.items) && UsageOk(openAI, f)
  }

  lemma {:induction false} RunFramesOk(openAI: bool, frames: seq<Frame>)
    requires ObserveAll(openAI, frames).Some?
    ensures forall i :: 0 <= i < |frames| ==> FrameOk(openAI, frames[i])
  {
    if frames != [] {
      var n := |frames| - 1;
      RunFramesOk(openAI, frames[..n]);
      forall i | 0 <= i < n ensures FrameOk(openAI, frames[i]) {
        assert FrameOk(openAI, frames[..n][i]);
      }
    }
  }

  /** Every frame of the run has been taken into account. */
  lemma {:induction false} FrameCovered(openAI: bool, frames: seq<Frame>, i: nat, kind: Kind)
    requires i < |frames|
    ensures FigureOf(openAI, frames[i], kind) <= MostUsage(openAI, frames, kind)
    ensures frames[i].done ==> Keys(frames[i].items) <= DoneKeys(frames)
    ensures !frames[i].done ==> Added(frames[i].items, {}, kind) <= MostOutput(frames, kind)
  {
    if i < |frames| - 1 {
      FrameCovered(openAI, frames[..|frames| - 1], i, kind);
    }
  }

  predicate Anonymously(f: Frame) {
    f.done && (Anonymous(f.items, Web) > 0 || Anonymous(f.items, X) > 0)
  }

  lemma CoveredAgain(openAI: bool, m: Meter, f: Frame)
    requires forall kind :: FigureOf(openAI, f, kind) <= At(m.usage, kind)
    requires f.done ==> Keys(f.items) <= m.seen
    requires !f.done ==> forall kind :: Added(f.items, {}, kind) <= At(m.output, kind)
    ensures After(openAI, m, f) == m <==> !Anonymously(f)
  {
    assert FigureOf(openAI, f, Web) <= m.usage.web && FigureOf(openAI, f, X) <= m.usage.x;
    if f.done {
      assert Keys(f.items) - m.seen == {} && m.seen + Keys(f.items) == m.seen;
      assert OfKind({}, Web) == {} && OfKind({}, X) == {};
    } else {
      assert Added(f.items, {}, Web) <= At(m.output, Web) && Added(f.items, {}, X) <= At(m.output, X);
    }
  }

  /** Main result: a frame of the run, seen again at any later time, is accepted and changes nothing, if and only if it
      does not complete an item without an identity. */
  lemma RepeatChangesNothing(openAI: bool, frames: seq<Frame>, m: Meter, i: nat)
    requires ObserveAll(openAI, frames) == Some(m) && i < |frames|
    ensures Observe(openAI, m, frames[i]) == Some(m) <==> !Anonymously(frames[i])
  {
    var f := frames[i];
    RunFramesOk(openAI, frames);
    forall kind
      ensures FigureOf(openAI, f, kind) <= At(m.usage, kind)
      ensures f.done ==> Keys(f.items) <= m.seen
      ensures !f.done ==> Added(f.items, {}, kind) <= At(m.output, kind)
    {
      RunStands(openAI, frames, m, kind);
      FrameCovered(openAI, frames, i, kind);
    }
    CoveredAgain(openAI, m, f);
    CountMeans(openAI, frames, m);
    if TooMany(m, f) {
      FrameLimitIsRedundant(openAI, frames, m, f);
    }
  }

  // ---- Order ----------------------------------------------------------------------------------------------

  /** The totals that make up the meter are the same for two runs. */
  ghost predicate SameTotals(openAI: bool, a: seq<Frame>, b: seq<Frame>) {
    DoneKeys(a) == DoneKeys(b) && forall kind :: SameOfKind(openAI, a, b, kind)
  }

  predicate SameOfKind(openAI: bool, a: seq<Frame>, b: seq<Frame>, kind: Kind) {
    && DoneAnonymous(a, kind) == DoneAnonymous(b, kind) && MostOutput(a, kind) == MostOutput(b, kind)
    && MostUsage(openAI, a, kind) == MostUsage(openAI, b, kind)
  }

  lemma SameSnoc(openAI: bool, a: seq<Frame>, b: seq<Frame>, f: Frame)
    requires SameTotals(openAI, a, b)
    ensures SameTotals(openAI, a + [f], b + [f])
  {
    assert (a + [f])[..|a|] == a && (b + [f])[..|b|] == b;
    forall kind ensures SameOfKind(openAI, a + [f], b + [f], kind) {
      assert SameOfKind(openAI, a, b, kind);
    }
  }

  lemma SwapLast(openAI: bool, a: seq<Frame>, f: Frame, g: Frame)
    ensures SameTotals(openAI, a + [f] + [g], a + [g] + [f])
  {
    assert (a + [f] + [g])[..|a| + 1] == a + [f] && (a + [g] + [f])[..|a| + 1] == a + [g];
    assert (a + [f])[..|a|] == a && (a + [g])[..|a|] == a;
    forall kind ensures SameOfKind(openAI, a + [f] + [g], a + [g] + [f], kind) {
      TwoLast(openAI, a, f, g, kind);
      TwoLast(openAI, a, g, f, kind);
    }
  }

  lemma TwoLast(openAI: bool, a: seq<Frame>, f: Frame, g: Frame, kind: Kind)
    ensures var all := a + [f] + [g];
      && DoneAnonymous(all, kind) == DoneAnonymous(a, kind) + (if f.done then Anonymous(f.items, kind) else 0)
        + (if g.done then Anonymous(g.items, kind) else 0)
      && MostOutput(all, kind) == Max(Max(MostOutput(a, kind), if f.done then 0
        else Added(f.items, {}, kind)), if g.done then 0 else Added(g.items, {}, kind))
      && MostUsage(openAI, all, kind) == Max(Max(MostUsage(openAI, a, kind), FigureOf(openAI, f, kind)),
          FigureOf(openAI, g, kind))
  {
    assert (a + [f] + [g])[..|a| + 1] == a + [f] && (a + [f])[..|a|] == a;
  }

  lemma TotalsOn(openAI: bool, a: seq<Frame>, b: seq<Frame>, c: seq<Frame>)
    requires SameTotals(openAI, a, b) && SameTotals(openAI, b, c)
    ensures SameTotals(openAI, a, c)
  {
    forall kind ensures SameOfKind(openAI, a, c, kind) {
      assert SameOfKind(openAI, a, b, kind) && SameOfKind(openAI, b, c, kind);
    }
  }

  function Without(frames: seq<Frame>, i: nat): seq<Frame>
    requires i < |frames|
  {
    frames[..i] + frames[i + 1..]
  }

  /** A frame may be moved to the end. */
  lemma {:induction false} MoveToEnd(openAI: bool, frames: seq<Frame>, i: nat)
    requires i < |frames|
    ensures SameTotals(openAI, frames, Without(frames, i) + [frames[i]])
  {
    var n := |frames| - 1;
    if i == n {
      assert Without(frames, i) + [frames[i]] == frames;
    } else {
      var front, last := frames[..n], frames[n];
      MoveToEnd(openAI, front, i);
      SameSnoc(openAI, front, Without(front, i) + [front[i]], last);
      SwapLast(openAI, Without(front, i), front[i], last);
      TotalsOn(openAI, front + [last], Without(front, i) + [front[i]] + [last],
          Without(front, i) + [last] + [front[i]]);
      assert front + [last] == frames && Without(front, i) + [last] == Without(frames, i);
    }
  }

  lemma WithoutCounts(frames: seq<Frame>, i: nat)
    requires i < |frames|
    ensures multiset(frames) == multiset(Without(frames, i)) + multiset{frames[i]}
  {
    assert frames == frames[..i] + [frames[i]] + frames[i + 1..];
  }

  /** Two runs with the same frames, in whatever order, have the same totals. */
  lemma {:induction false} ShuffledTotals(openAI: bool, a: seq<Frame>, b: seq<Frame>)
    requires multiset(a) == multiset(b)
    ensures SameTotals(openAI, a, b)
  {
    assert |multiset(a)| == |a| && |multiset(b)| == |b|;
    if a != [] {
      var n := |a| - 1;
      var front := a[..n];
      assert a == front + [a[n]];
      var i := Position(a, b);
      var rest := Without(b, i);
      WithoutCounts(b, i);
      assert multiset(a) == multiset(front) + multiset{a[n]};
      assert multiset(front) == multiset(a) - multiset{a[n]} == multiset(rest);
      ShuffledTotals(openAI, front, rest);
      SameSnoc(openAI, front, rest, a[n]);
      MoveToEnd(openAI, b, i);
      SameBack(openAI, b, rest + [b[i]]);
      TotalsOn(openAI, a, rest + [b[i]], b);
    }
  }

  lemma Position(a: seq<Frame>, b: seq<Frame>) returns (i: nat)
    requires a != [] && multiset(a) == multiset(b)
    ensures i < |b| && b[i] == a[|a| - 1]
  {
    assert a[|a| - 1] in multiset(b);
    i :| 0 <= i < |b| && b[i] == a[|a| - 1];
  }

  lemma SameBack(openAI: bool, a: seq<Frame>, b: seq<Frame>)
    requires SameTotals(openAI, a, b)
    ensures SameTotals(openAI, b, a)
  {
    forall kind ensures SameOfKind(openAI, b, a, kind) {
      assert SameOfKind(openAI, a, b, kind);
    }
  }

  lemma MeaningGrows(openAI: bool, frames: seq<Frame>, kind: Kind)
    requires frames != []
    ensures Meaning(openAI, frames[..|frames| - 1], kind) <= Meaning(openAI, frames, kind)
  {
    SmallerKind(DoneKeys(frames[..|frames| - 1]), DoneKeys(frames), kind);
  }

  /** Main result: a run is accepted exactly when each of its frames is well formed and the whole run's count is within
      the limit; where its frames stand, and the frame limit, play no part. */
  lemma {:induction false} AcceptedExactly(openAI: bool, frames: seq<Frame>)
    ensures ObserveAll(openAI, frames).Some? <==>
      (forall i :: 0 <= i < |frames| ==> FrameOk(openAI, frames[i]))
      && Meaning(openAI, frames, Web) + Meaning(openAI, frames, X) <= LIMIT
  {
    if ObserveAll(openAI, frames).Some? {
      RunFramesOk(openAI, frames);
      CountMeans(openAI, frames, ObserveAll(openAI, frames).value);
    } else {
      var n := |frames| - 1;
      AcceptedExactly(openAI, frames[..n]);
      MeaningGrows(openAI, frames, Web);
      MeaningGrows(openAI, frames, X);
      if ObserveAll(openAI, frames[..n]).Some? {
        RefusedLast(openAI, frames, ObserveAll(openAI, frames[..n]).value);
      } else if forall i :: 0 <= i < n ==> FrameOk(openAI, frames[..n][i]) {
      } else {
        var i :| 0 <= i < n && !FrameOk(openAI, frames[..n][i]);
        assert !FrameOk(openAI, frames[i]);
      }
    }
  }

  lemma RefusedLast(openAI: bool, frames: seq<Frame>, m: Meter)
    requires frames != [] && ObserveAll(openAI, frames[..|frames| - 1]) == Some(m)
      && !Accepts(openAI, m, frames[|frames| - 1])
    ensures FrameOk(openAI, frames[|frames| - 1]) ==> Meaning(openAI, frames, Web) + Meaning(openAI, frames, X) > LIMIT
  {
    var front, f := frames[..|frames| - 1], frames[|frames| - 1];
    var after := After(openAI, m, f);
    RunStands(openAI, front, m, Web);
    RunStands(openAI, front, m, X);
    FrameStands(openAI, frames, m, after, Web);
    FrameStands(openAI, frames, m, after, X);
    if TooMany(m, f) {
      FrameLimitIsRedundant(openAI, front, m, f);
    }
  }

  lemma {:induction false} SameFrames(openAI: bool, a: seq<Frame>, b: seq<Frame>)
    requires multiset(a) == multiset(b) && forall i :: 0 <= i < |a| ==> FrameOk(openAI, a[i])
    ensures forall i :: 0 <= i < |b| ==> FrameOk(openAI, b[i])
  {
    forall i | 0 <= i < |b| ensures FrameOk(openAI, b[i]) {
      assert b[i] in multiset(a);
      var k :| 0 <= k < |a| && a[k] == b[i];
    }
  }

  lemma SameAcceptance(openAI: bool, a: seq<Frame>, b: seq<Frame>)
    requires multiset(a) == multiset(b) && ObserveAll(openAI, a).Some?
    ensures ObserveAll(openAI, b).Some?
  {
    ShuffledTotals(openAI, a, b);
    assert SameOfKind(openAI, a, b, Web) && SameOfKind(openAI, a, b, X);
    AcceptedExactly(openAI, a);
    AcceptedExactly(openAI, b);
    SameFrames(openAI, a, b);
  }

  /** Main result: the order of the frames matters neither for acceptance nor for the meter. */
  lemma OrderDoesNotMatter(openAI: bool, a: seq<Frame>, b: seq<Frame>)
    requires multiset(a) == multiset(b)
    ensures ObserveAll(openAI, a) == ObserveAll(openAI, b)
  {
    if ObserveAll(openAI, a).Some? || ObserveAll(openAI, b).Some? {
      if ObserveAll(openAI, a).Some? { SameAcceptance(openAI, a, b); } else { SameAcceptance(openAI, b, a); }
      ShuffledTotals(openAI, a, b);
      var m, n := ObserveAll(openAI, a).value, ObserveAll(openAI, b).value;
      forall kind
        ensures At(m.done, kind) == At(n.done, kind) && At(m.output, kind) == At(n.output, kind)
        ensures At(m.usage, kind) == At(n.usage, kind) && m.seen == n.seen
      {
        assert SameOfKind(openAI, a, b, kind);
        RunStands(openAI, a, m, kind);
        RunStands(openAI, b, n, kind);
      }
      assert At(m.done, Web) == At(n.done, Web) && At(m.done, X) == At(n.done, X);
      assert At(m.output, Web) == At(n.output, Web) && At(m.output, X) == At(n.output, X);
      assert At(m.usage, Web) == At(n.usage, Web) && At(m.usage, X) == At(n.usage, X);
    }
  }

  // ---- The exact number of calls --------------------------------------------------------------------------

  /** Every completed call is named, in every frame. */
  predicate AllNamed(frames: seq<Frame>) {
    forall i :: 0 <= i < |frames| ==> Named(frames[i].items)
  }

  predicate Named(items: seq<Item>) {
    forall k :: 0 <= k < |items| && items[k].Call? && items[k].complete ==> items[k].id != ""
  }

  /** All identities of completed calls in the run. */
  function AllKeys(frames: seq<Frame>): set<Key> {
    if frames == [] then {} else AllKeys(frames[..|frames| - 1]) + Keys(frames[|frames| - 1].items)
  }

  lemma {:induction false} DoneWithinAll(frames: seq<Frame>)
    ensures DoneKeys(frames) <= AllKeys(frames)
  {
    if frames != [] {
      DoneWithinAll(frames[..|frames| - 1]);
    }
  }

  lemma {:induction false} NoDoneAnonymous(frames: seq<Frame>, kind: Kind)
    requires AllNamed(frames)
    ensures DoneAnonymous(frames, kind) == 0
  {
    if frames != [] {
      NoDoneAnonymous(frames[..|frames| - 1], kind);
      assert Named(frames[|frames| - 1].items);
      NamedHaveNoAnonymous(frames[|frames| - 1].items, kind);
    }
  }

  lemma {:induction false} OutputsWithin(frames: seq<Frame>, kind: Kind, all: set<Key>)
    requires AllNamed(frames) && AllKeys(frames) <= all
    ensures MostOutput(frames, kind) <= |OfKind(all, kind)|
  {
    if frames != [] {
      var front, f := frames[..|frames| - 1], frames[|frames| - 1];
      OutputsWithin(front, kind, all);
      assert Named(f.items);
      NamedHaveNoAnonymous(f.items, kind);
      SmallerKind(Keys(f.items) - {}, all, kind);
    }
  }

  lemma SmallerKind(a: set<Key>, b: set<Key>, kind: Kind)
    requires a <= b
    ensures |OfKind(a, kind)| <= |OfKind(b, kind)|
  {
    assert OfKind(b, kind) == OfKind(a, kind) + (OfKind(b, kind) - OfKind(a, kind));
  }

  lemma {:induction false} OutputCovers(frames: seq<Frame>, kind: Kind, i: nat)
    requires i < |frames| && !frames[i].done
    ensures MostOutput(frames, kind) >= Added(frames[i].items, {}, kind)
  {
    if i < |frames| - 1 {
      OutputCovers(frames[..|frames| - 1], kind, i);
    }
  }

  /** Main result: when every call is named, one output lists all of them, and no usage figure is larger, the count is
      the number of distinct completed calls. */
  lemma CountIsExact(openAI: bool, frames: seq<Frame>, m: Meter, i: nat)
    requires ObserveAll(openAI, frames) == Some(m) && AllNamed(frames)
    requires i < |frames| && !frames[i].done && Keys(frames[i].items) == AllKeys(frames)
    requires forall kind :: MostUsage(openAI, frames, kind) <= |OfKind(AllKeys(frames), kind)|
    ensures Count(m) == |AllKeys(frames)|
  {
    CountMeans(openAI, frames, m);
    KindIsExact(openAI, frames, i, Web);
    KindIsExact(openAI, frames, i, X);
    KindsCover(AllKeys(frames));
  }

  lemma KindIsExact(openAI: bool, frames: seq<Frame>, i: nat, kind: Kind)
    requires AllNamed(frames) && i < |frames| && !frames[i].done && Keys(frames[i].items) == AllKeys(frames)
    requires MostUsage(openAI, frames, kind) <= |OfKind(AllKeys(frames), kind)|
    ensures Meaning(openAI, frames, kind) == |OfKind(AllKeys(frames), kind)|
  {
    var all := AllKeys(frames);
    DoneWithinAll(frames);
    NoDoneAnonymous(frames, kind);
    SmallerKind(DoneKeys(frames), all, kind);
    OutputsWithin(frames, kind, all);
    OutputCovers(frames, kind, i);
    assert all - {} == all;
  }

  // ---- The meter as the source updates it -----------------------------------------------------------------

  /** The loop over a frame's items after `k` of them. */
  ghost predicate Counted(items: seq<Item>, k: nat, before: set<Key>, seen: set<Key>, web: nat, x: nat)
    requires k <= |items|
  {
    seen == before + Keys(items[..k]) && web == Added(items[..k], before, Web) && x == Added(items[..k], before, X)
  }

  lemma ItemsSnoc(items: seq<Item>, k: nat)
    requires k < |items|
    ensures Keys(items[..k + 1]) ==
      if IsNamed(items[k]) then Keys(items[..k]) + {Key(items[k].kind, items[k].id)} else Keys(items[..k])
    ensures forall kind ::
      Anonymous(items[..k + 1], kind) == Anonymous(items[..k], kind) + if IsUnnamed(items[k], kind) then 1 else 0
  {
    assert items[..k + 1][..k] == items[..k];
  }

  lemma NewKey(keys: set<Key>, before: set<Key>, key: Key, kind: Kind)
    ensures |OfKind(keys + {key} - before, kind)| ==
      |OfKind(keys - before, kind)| + if key in before + keys || key.kind != kind then 0 else 1
  {
    if key in before + keys || key.kind != kind {
      assert OfKind(keys + {key} - before, kind) == OfKind(keys - before, kind);
    } else {
      assert OfKind(keys + {key} - before, kind) == OfKind(keys - before, kind) + {key};
    }
  }

  predicate IsUnnamed(item: Item, kind: Kind) {
    item.Call? && item.complete && item.id == "" && item.kind == kind
  }

  predicate IsNamed(item: Item) {
    item.Call? && item.complete && item.id != ""
  }

  /** A completed item adds one, unless its identity was seen. */
  function More(item: Item, seen: set<Key>, kind: Kind): nat {
    if item.Call? && item.complete && item.kind == kind && (item.id == "" || Key(item.kind, item.id) !in seen) then 1
    else 0
  }

  function SeenWith(item: Item, seen: set<Key>): set<Key> {
    if IsNamed(item) then seen + {Key(item.kind, item.id)} else seen
  }

  lemma CountedNext(items: seq<Item>, k: nat, before: set<Key>, seen: set<Key>, web: nat, x: nat)
    requires k < |items| && Counted(items, k, before, seen, web, x)
    ensures Counted(items, k + 1, before, SeenWith(items[k], seen), web + More(items[k], seen, Web),
        x + More(items[k], seen, X))
  {
    ItemsSnoc(items, k);
    if IsNamed(items[k]) {
      NewKey(Keys(items[..k]), before, Key(items[k].kind, items[k].id), Web);
      NewKey(Keys(items[..k]), before, Key(items[k].kind, items[k].id), X);
    }
  }

  lemma {:induction false} KeysGrow(items: seq<Item>, k: nat)
    requires k <= |items|
    ensures Keys(items[..k]) <= Keys(items) && forall kind :: Anonymous(items[..k], kind) <= Anonymous(items, kind)
  {
    if k < |items| {
      KeysGrow(items[..|items| - 1], k);
      assert items[..|items| - 1][..k] == items[..k];
    } else {
      assert items[..k] == items;
    }
  }

  lemma AddedGrows(items: seq<Item>, k: nat, before: set<Key>, kind: Kind)
    requires k <= |items|
    ensures Added(items[..k], before, kind) <= Added(items, before, kind)
  {
    KeysGrow(items, k);
    SmallerKind(Keys(items[..k]) - before, Keys(items) - before, kind);
  }

  class HostedSearchMeter {
    const openAI: bool
    var seen: set<Key>
    var done: Pair
    var output: Pair
    var usage: Pair

    function View(): Meter
      reads this
    {
      Meter(seen, done, output, usage)
    }

    constructor (openAI: bool)
      ensures View() == NEW_METER && this.openAI == openAI
    {
      this.openAI := openAI;
      seen, done, output, usage := {}, Pair(0, 0), Pair(0, 0), Pair(0, 0);
    }

    method CountItem(item: Item, known: set<Key>, web: nat, x: nat) returns (known': set<Key>, web': nat, x': nat)
      ensures known' == SeenWith(item, known) && web' == web + More(item, known, Web) && x' == x + More(item, known, X)
    {
      known', web', x' := known, web, x;
      if item.Call? && item.complete {
        var key := Key(item.kind, item.id);
        if item.id == "" || key !in known {
          if item.kind == Web { web' := web + 1; } else { x' := x + 1; }
        }
        if item.id != "" {
          known' := known + {key};
        }
      }
    }

    /** The loop over the items: what they add, or nothing when one is invalid or they are too many. */
    method CountItems(f: Frame) returns (r: Option<(set<Key>, nat, nat)>)
      ensures r.Some? <==> Valid(openAI, f.items) && !TooMany(View(), f)
      ensures r.Some? ==> r.value == (Before(View(), f) + Keys(f.items), Added(f.items, Before(View(), f), Web),
          Added(f.items, Before(View(), f), X))
    {
      var known: set<Key>, web: nat, x: nat := if f.done then seen else {}, 0, 0;
      CountingStarts(openAI, View(), f);
      for k := 0 to |f.items|
        invariant Counting(openAI, View(), f, k, known, web, x)
      {
        var item := f.items[k];
        if item.Call? && ((item.kind == X && openAI) || (item.complete && |item.id| > 256)) {
          return None;
        }
        CountedNext(f.items, k, Before(View(), f), known, web, x);
        ItemJudged(openAI, f.items, k);
        known, web, x := CountItem(item, known, web, x);
        if item.Call? && item.complete && web + x + (if f.done then |known| else |seen|) > FRAME_LIMIT {
          StaysTooMany(View(), f, k, Before(View(), f), known, web, x);
          return None;
        }
      }
      CountingEnds(openAI, View(), f, known, web, x);
      r := Some((known, web, x));
    }

    method ObserveFrame(f: Frame) returns (ok: bool)
      modifies this
      ensures ok <==> Accepts(openAI, old(View()), f)
      ensures ok ==> View() == After(openAI, old(View()), f)
    {
      var counted := CountItems(f);
      if counted.None? {
        return false;
      }
      var (known, web, x) := counted.value;
      if f.done {
        seen := known;
        done := Pair(done.web + web, done.x + x);
      } else {
        output := Pair(Max(output.web, web), Max(output.x, x));
      }
      var used := AddUsage(f);
      ok := used && Count(View()) <= LIMIT;
    }

    method AddUsage(f: Frame) returns (ok: bool)
      modifies this`usage
      ensures ok <==> UsageOk(openAI, f)
      ensures ok ==> usage == Pair(Max(old(usage).web, Figure(openAI, f.web)), Max(old(usage).x, Figure(openAI, f.x)))
    {
      if !openAI && f.web.Some? {
        if f.web.value < 0 || f.web.value > LIMIT {
          return false;
        }
        usage := Pair(Max(usage.web, f.web.value), usage.x);
      }
      if !openAI && f.x.Some? {
        if f.x.value < 0 || f.x.value > LIMIT {
          return false;
        }
        usage := Pair(usage.web, Max(usage.x, f.x.value));
      }
      ok := true;
    }
  }

  predicate WithinFrame(m: Meter, f: Frame, known: set<Key>, web: nat, x: nat) {
    web + x + (if f.done then |known| else |m.seen|) <= FRAME_LIMIT
  }

  /** The loop's state after `k` items, none of them refused. */
  ghost predicate Counting(openAI: bool, m: Meter, f: Frame, k: nat, known: set<Key>, web: nat, x: nat) {
    && k <= |f.items| && Counted(f.items, k, Before(m, f), known, web, x) && Valid(openAI, f.items[..k])
    && (AnyComplete(f.items[..k]) ==> WithinFrame(m, f, known, web, x))
  }

  lemma CountingStarts(openAI: bool, m: Meter, f: Frame)
    ensures Counting(openAI, m, f, 0, Before(m, f), 0, 0)
  {
    assert f.items[..0] == [];
    assert {} - Before(m, f) == {} && OfKind({}, Web) == {} && OfKind({}, X) == {};
    assert Before(m, f) + {} == Before(m, f);
  }

  lemma CountingEnds(openAI: bool, m: Meter, f: Frame, known: set<Key>, web: nat, x: nat)
    requires Counting(openAI, m, f, |f.items|, known, web, x)
    ensures Valid(openAI, f.items) && !TooMany(m, f) && known == Before(m, f) + Keys(f.items)
    ensures web == Added(f.items, Before(m, f), Web) && x == Added(f.items, Before(m, f), X)
  {
    assert f.items[..|f.items|] == f.items;
  }

  lemma ItemJudged(openAI: bool, items: seq<Item>, k: nat)
    requires k < |items|
    ensures Valid(openAI, items[..k + 1]) <==> Valid(openAI, items[..k]) && ValidItem(openAI, items[k])
    ensures AnyComplete(items[..k + 1]) <==> AnyComplete(items[..k]) || (items[k].Call? && items[k].complete)
  {
    assert items[..k + 1] == items[..k] + [items[k]];
    if AnyComplete(items[..k]) {
      var i :| 0 <= i < k && items[..k][i].Call? && items[..k][i].complete;
      assert items[..k + 1][i] == items[..k][i];
    }
    if items[k].Call? && items[k].complete {
      assert items[..k + 1][k] == items[k];
    }
  }

  /** Counts and identities only grow, so a loop past the frame limit stays past it. */
  lemma StaysTooMany(m: Meter, f: Frame, k: nat, before: set<Key>, known: set<Key>, web: nat, x: nat)
    requires k < |f.items| && before == Before(m, f) && Counted(f.items, k + 1, before, known, web, x)
    requires f.items[k].Call? && f.items[k].complete
    requires web + x + (if f.done then |known| else |m.seen|) > FRAME_LIMIT
    ensures TooMany(m, f)
  {
    AddedGrows(f.items, k + 1, before, Web);
    AddedGrows(f.items, k + 1, before, X);
    KeysGrow(f.items, k + 1);
    if f.done {
      Smaller(known, SeenAfter(m, f));
    }
  }

  lemma Smaller(a: set<Key>, b: set<Key>)
    requires a <= b
    ensures |a| <= |b|
  {
    assert b == a + (b - a);
  }
}
