/** When the client is told the same as by the one-shot conversion: exactly when the events give text part by part in
    output order, mention tools in output order, and say nothing the terminal output does not list. */
module ResponsesOrder {
  import opened Outcomes
  import opened ChatWire
  import opened ResponsesChat
  import opened ResponsesAgreement
  import opened ResponsesEvents
  import opened ResponsesFinal
  import opened Sequences

  predicate InField(key: Key, field: Field) {
    match key
    case TextKey(f, _, _) => f == field
    case RawKey(_, _) => field == ReasoningField
    case ToolKey(_) => false
  }

  predicate DeltaIn(e: Emission, field: Field) {
    e.Delta? && InField(e.key, field)
  }

  function FieldSent(out: seq<Emission>, field: Field): string {
    if out == [] then ""
    else FieldSent(out[..|out| - 1], field) + if DeltaIn(out[|out| - 1], field) then out[|out| - 1].text else ""
  }

  /** The client's three texts are the deltas of each field in the order they were sent. */
  lemma {:induction false} ClientTexts(out: seq<Emission>)
    ensures Client(out).content == FieldSent(out, ContentField)
    ensures Client(out).refusal == FieldSent(out, RefusalField)
    ensures Client(out).reasoning == FieldSent(out, ReasoningField)
  {
    if out != [] {
      ClientTexts(out[..|out| - 1]);
    }
  }

  // ---- What was told, part by part ------------------------------------------------------------------------

  /** Some text of one part, without a break. */
  datatype Stretch = Stretch(key: Key, text: string)

  function AddDelta(told: seq<Stretch>, e: Emission): seq<Stretch>
    requires e.Delta?
  {
    var n := |told|;
    if n > 0 && told[n - 1].key == e.key then told[n - 1 := Stretch(e.key, told[n - 1].text + e.text)]
    else told + [Stretch(e.key, e.text)]
  }

  /** A field's deltas, those that follow each other in one part put together. */
  function Stretches(out: seq<Emission>, field: Field): seq<Stretch> {
    if out == [] then []
    else
      var front := Stretches(out[..|out| - 1], field);
      if DeltaIn(out[|out| - 1], field) then AddDelta(front, out[|out| - 1]) else front
  }

  function TypeOf(field: Field): PartType {
    if field == ContentField then OutputText else RefusalType
  }

  /** The one-shot conversion takes the item's part `k` for this field. */
  predicate Takes(item: Item, field: Field, k: nat) {
    match item
    case MessageItem(content) => k < |content| && field != ReasoningField && content[k].kind == TypeOf(field)
    case ReasoningItem(summary) => k < |summary| && field == ReasoningField
    case _ => false
  }

  function Parts(item: Item): nat {
    match item
    case MessageItem(content) => |content|
    case ReasoningItem(summary) => |summary|
    case _ => 0
  }

  predicate Listed(items: seq<Item>, key: Key) {
    key.TextKey? && key.output < |items| && Takes(items[key.output], key.field, key.index)
  }

  function ItemStretches(output: nat, item: Item, field: Field, n: nat): seq<Stretch> {
    if n == 0 then []
    else
      ItemStretches(output, item, field, n - 1) +
      if Takes(item, field, n - 1) && ListedText(item, field, n - 1) != "" then
        [Stretch(TextKey(field, output, n - 1), ListedText(item, field, n - 1))]
      else []
  }

  /** The nonempty texts the one-shot conversion joins for a field, with the part each comes from. */
  function OneShotStretches(items: seq<Item>, field: Field): seq<Stretch> {
    if items == [] then []
    else
      var n := |items| - 1;
      OneShotStretches(items[..n], field) + ItemStretches(n, items[n], field, Parts(items[n]))
  }

  function Joined(told: seq<Stretch>): string {
    if told == [] then "" else Joined(told[..|told| - 1]) + told[|told| - 1].text
  }

  lemma {:induction false} JoinedAppend(a: seq<Stretch>, b: seq<Stretch>)
    ensures Joined(a + b) == Joined(a) + Joined(b)
  {
    if b == [] {
      assert a + b == a;
    } else {
      var front := b[..|b| - 1];
      assert (a + b)[..|a + b| - 1] == a + front;
      JoinedAppend(a, front);
      Regroup(Joined(a), Joined(front), b[|b| - 1].text);
    }
  }

  lemma AddDeltaJoins(told: seq<Stretch>, e: Emission)
    requires e.Delta?
    ensures Joined(AddDelta(told, e)) == Joined(told) + e.text
  {
    var n := |told|;
    if n > 0 && told[n - 1].key == e.key {
      assert AddDelta(told, e)[..n - 1] == told[..n - 1];
      Regroup(Joined(told[..n - 1]), told[n - 1].text, e.text);
    } else {
      assert (told + [Stretch(e.key, e.text)])[..n] == told;
    }
  }

  lemma {:induction false} StretchesJoin(out: seq<Emission>, field: Field)
    ensures Joined(Stretches(out, field)) == FieldSent(out, field)
  {
    if out != [] {
      StretchesJoin(out[..|out| - 1], field);
      if DeltaIn(out[|out| - 1], field) {
        AddDeltaJoins(Stretches(out[..|out| - 1], field), out[|out| - 1]);
      }
    }
  }

  lemma JoinedOne(told: seq<Stretch>, s: Stretch)
    ensures Joined(told + [s]) == Joined(told) + s.text
  {
    assert (told + [s])[..|told|] == told;
  }

  lemma ItemStretchJoins(output: nat, item: Item, field: Field, n: nat)
    requires n > 0
    ensures Joined(ItemStretches(output, item, field, n)) ==
      Joined(ItemStretches(output, item, field, n - 1)) +
      if Takes(item, field, n - 1) then ListedText(item, field, n - 1) else ""
  {
    var front := ItemStretches(output, item, field, n - 1);
    assert front + [] == front && Joined(front) + "" == Joined(front);
    if Takes(item, field, n - 1) {
      JoinedOne(front, Stretch(TextKey(field, output, n - 1), ListedText(item, field, n - 1)));
    }
  }

  lemma {:induction false} MessageJoins(output: nat, content: seq<Part>, field: Field, n: nat)
    requires n <= |content| && field != ReasoningField
    ensures Joined(ItemStretches(output, MessageItem(content), field, n)) == PartsText(content[..n], TypeOf(field))
  {
    if n > 0 {
      var item := MessageItem(content);
      MessageJoins(output, content, field, n - 1);
      assert content[..n][..n - 1] == content[..n - 1];
      ItemStretchJoins(output, item, field, n);
    }
  }

  lemma {:induction false} SummaryJoins(output: nat, summary: seq<string>, n: nat)
    requires n <= |summary|
    ensures Joined(ItemStretches(output, ReasoningItem(summary), ReasoningField, n)) == Concat(summary[..n])
  {
    if n > 0 {
      var item := ReasoningItem(summary);
      SummaryJoins(output, summary, n - 1);
      assert summary[..n][..n - 1] == summary[..n - 1];
      ItemStretchJoins(output, item, ReasoningField, n);
    }
  }

  lemma {:induction false} NothingTaken(output: nat, item: Item, field: Field, n: nat)
    requires forall k: nat :: k < n ==> !Takes(item, field, k)
    ensures ItemStretches(output, item, field, n) == []
  {
    if n > 0 {
      NothingTaken(output, item, field, n - 1);
    }
  }

  lemma ItemJoins(output: nat, item: Item, field: Field)
    ensures Joined(ItemStretches(output, item, field, Parts(item))) == ItemText(item, field)
  {
    if item.MessageItem? && field != ReasoningField {
      MessageJoins(output, item.content, field, |item.content|);
      assert item.content[..|item.content|] == item.content;
    } else if item.ReasoningItem? && field == ReasoningField {
      SummaryJoins(output, item.summary, |item.summary|);
      assert item.summary[..|item.summary|] == item.summary;
    } else {
      NothingTaken(output, item, field, Parts(item));
    }
  }

  /** Joined, they are the one-shot text. */
  lemma {:induction false} OneShotJoins(items: seq<Item>, field: Field)
    ensures Joined(OneShotStretches(items, field)) == ItemsText(items, field)
  {
    if items != [] {
      var n := |items| - 1;
      OneShotJoins(items[..n], field);
      ItemJoins(n, items[n], field);
      JoinedAppend(OneShotStretches(items[..n], field), ItemStretches(n, items[n], field, Parts(items[n])));
    }
  }

  // ---- Both sequences are determined by their elements ----------------------------------------------------

  predicate Increasing(told: seq<Stretch>) {
    forall i, k :: 0 <= i < k < |told| ==> Before(told[i].key, told[k].key)
  }

  lemma Inhabited<T>(s: seq<T>)
    ensures s == [] <==> forall x :: x !in s
  {
    if s != [] {
      assert s[0] in s;
    }
  }

  lemma {:induction false} SameElements(a: seq<Stretch>, b: seq<Stretch>)
    requires Increasing(a) && Increasing(b) && forall s :: s in a <==> s in b
    ensures a == b
  {
    Inhabited(a);
    Inhabited(b);
    if a != [] && b != [] {
      SameLast(a, b);
      var front, rest := a[..|a| - 1], b[..|b| - 1];
      forall s ensures s in front <==> s in rest {
        FrontElement(a, s);
        FrontElement(b, s);
      }
      SameElements(front, rest);
    }
  }

  lemma SameLast(a: seq<Stretch>, b: seq<Stretch>)
    requires Increasing(a) && Increasing(b) && a != [] && b != [] && forall s :: s in a <==> s in b
    ensures a[|a| - 1] == b[|b| - 1]
  {
    var x, y := a[|a| - 1], b[|b| - 1];
    assert x in b && y in a;
    var i :| 0 <= i < |a| && a[i] == y;
    var k :| 0 <= k < |b| && b[k] == x;
    assert i < |a| - 1 ==> Before(y.key, x.key);
    assert k < |b| - 1 ==> Before(x.key, y.key);
  }

  lemma FrontElement(a: seq<Stretch>, s: Stretch)
    requires Increasing(a) && a != []
    ensures s in a[..|a| - 1] <==> s in a && s != a[|a| - 1]
  {
    var n := |a| - 1;
    if s in a[..n] {
      var i :| 0 <= i < n && a[..n][i] == s;
      assert Before(a[i].key, a[n].key);
    }
  }

  predicate TakenFrom(s: Stretch, output: nat, item: Item, field: Field, n: nat) {
    && s.key.TextKey? && s.key.field == field && s.key.output == output && s.key.index < n
    && Takes(item, field, s.key.index) && s.text == ListedText(item, field, s.key.index) != ""
  }

  lemma {:induction false} ItemElements(output: nat, item: Item, field: Field, n: nat)
    ensures Increasing(ItemStretches(output, item, field, n))
    ensures forall s :: s in ItemStretches(output, item, field, n) <==> TakenFrom(s, output, item, field, n)
  {
    if n > 0 {
      ItemElements(output, item, field, n - 1);
      var all, front := ItemStretches(output, item, field, n), ItemStretches(output, item, field, n - 1);
      forall i, k | 0 <= i < k < |all| ensures Before(all[i].key, all[k].key) {
        assert all[i] in front && TakenFrom(all[i], output, item, field, n - 1);
        assert k < |front| ==> all[k] == front[k];
      }
    }
  }

  predicate ListedAs(s: Stretch, items: seq<Item>, field: Field) {
    Listed(items, s.key) && s.key.field == field && s.text == ListedText(items[s.key.output], field, s.key.index) != ""
  }

  lemma TakenIsBelow(item: Item, field: Field, k: nat)
    requires Takes(item, field, k)
    ensures k < Parts(item)
  {
  }

  lemma {:induction false} OneShotElements(items: seq<Item>, field: Field)
    ensures Increasing(OneShotStretches(items, field))
    ensures forall s :: s in OneShotStretches(items, field) <==> ListedAs(s, items, field)
  {
    if items != [] {
      var n := |items| - 1;
      OneShotElements(items[..n], field);
      ItemElements(n, items[n], field, Parts(items[n]));
      OneShotSnoc(items, field, OneShotStretches(items[..n], field),
          ItemStretches(n, items[n], field, Parts(items[n])));
    }
  }

  lemma OneShotSnoc(items: seq<Item>, field: Field, front: seq<Stretch>, last: seq<Stretch>)
    requires items != [] && Increasing(front) && Increasing(last)
    requires forall s :: s in front <==> ListedAs(s, items[..|items| - 1], field)
    requires forall s :: s in last <==> TakenFrom(s, |items| - 1, items[|items| - 1], field, Parts(items[|items| - 1]))
    ensures Increasing(front + last) && forall s :: s in front + last <==> ListedAs(s, items, field)
  {
    var n := |items| - 1;
    forall i, k | 0 <= i < |front| && 0 <= k < |last| ensures Before(front[i].key, last[k].key) {
      assert front[i] in front && last[k] in last;
    }
    forall s ensures s in front + last <==> ListedAs(s, items, field) {
      if ListedAs(s, items, field) && s.key.output == n { TakenIsBelow(items[n], field, s.key.index); }
    }
  }

  // ---- Order in what was sent -----------------------------------------------------------------------------

  /** A field's deltas never go back to an earlier part. */
  predicate InOrder(out: seq<Emission>, field: Field) {
    forall a, b :: 0 <= a < b < |out| && DeltaIn(out[a], field) && DeltaIn(out[b], field) ==>
      !Before(out[b].key, out[a].key)
  }

  /** They only go to parts the one-shot conversion takes. */
  predicate Covered(out: seq<Emission>, field: Field, items: seq<Item>) {
    forall a :: 0 <= a < |out| && DeltaIn(out[a], field) ==> Listed(items, out[a].key)
  }

  predicate OfParts(out: seq<Emission>, field: Field) {
    forall a :: 0 <= a < |out| && DeltaIn(out[a], field) ==> out[a].key.TextKey?
  }

  predicate SentAs(s: Stretch, out: seq<Emission>, field: Field) {
    InField(s.key, field) && s.text == Emitted(out, s.key) != ""
  }

  predicate HasDelta(out: seq<Emission>, key: Key) {
    exists a :: 0 <= a < |out| && out[a].Delta? && out[a].key == key
  }

  lemma {:induction false} EmittedSomewhere(out: seq<Emission>, key: Key)
    requires Telling(out)
    ensures Emitted(out, key) != "" <==> HasDelta(out, key)
  {
    if out != [] {
      var n := |out| - 1;
      forall a | 0 <= a < n ensures out[..n][a] == out[a] {}
      EmittedSomewhere(out[..n], key);
      HasDeltaSnoc(out, key);
    }
  }

  lemma HasDeltaSnoc(out: seq<Emission>, key: Key)
    requires out != []
    ensures HasDelta(out, key) <==>
      HasDelta(out[..|out| - 1], key) || (out[|out| - 1].Delta? && out[|out| - 1].key == key)
  {
    var n := |out| - 1;
    if HasDelta(out[..n], key) {
      var a :| 0 <= a < n && out[..n][a].Delta? && out[..n][a].key == key;
      assert out[a].Delta? && out[a].key == key;
    }
    if HasDelta(out, key) {
      var a :| 0 <= a < |out| && out[a].Delta? && out[a].key == key;
      assert a < n ==> out[..n][a].Delta? && out[..n][a].key == key;
    }
  }

  /** In order, each part's text comes in one stretch. */
  ghost predicate Whole(told: seq<Stretch>, out: seq<Emission>, field: Field) {
    Increasing(told) && forall s :: s in told <==> SentAs(s, out, field)
  }

  lemma {:induction false} OrderedIsWhole(out: seq<Emission>, field: Field)
    requires Telling(out) && InOrder(out, field) && OfParts(out, field)
    ensures Whole(Stretches(out, field), out, field)
  {
    if out != [] {
      var n := |out| - 1;
      var front, e := out[..n], out[n];
      forall a | 0 <= a < n ensures front[a] == out[a] {}
      OrderedIsWhole(front, field);
      if DeltaIn(e, field) {
        forall s | s in Stretches(front, field) ensures s.key.TextKey? && !Before(e.key, s.key) {
          EmittedSomewhere(front, s.key);
          var a :| 0 <= a < n && front[a].Delta? && front[a].key == s.key;
          assert DeltaIn(out[a], field);
        }
        DeltaWhole(Stretches(front, field), front, out, e, field);
      } else {
        forall s ensures SentAs(s, out, field) <==> SentAs(s, front, field) {
          assert Emitted(front, s.key) + "" == Emitted(front, s.key);
        }
      }
    }
  }

  lemma DeltaWhole(told: seq<Stretch>, front: seq<Emission>, out: seq<Emission>, e: Emission, field: Field)
    requires out == front + [e] && DeltaIn(e, field) && e.key.TextKey? && e.text != "" && Whole(told, front, field)
    requires forall s :: s in told ==> s.key.TextKey? && !Before(e.key, s.key)
    ensures Whole(AddDelta(told, e), out, field)
  {
    var n := |told|;
    forall k ensures Emitted(out, k) == Emitted(front, k) + (if k == e.key then e.text else "") {
      EmittedSnoc(front, e, k);
    }
    if n > 0 && told[n - 1].key == e.key {
      MergeWhole(told, front, out, e, field);
    } else {
      AppendWhole(told, front, out, e, field);
    }
  }

  ghost predicate OneMoreDelta(front: seq<Emission>, out: seq<Emission>, e: Emission) {
    e.Delta? && e.text != "" && forall k :: Emitted(out, k) == Emitted(front, k) + if k == e.key then e.text else ""
  }

  lemma MergeWhole(told: seq<Stretch>, front: seq<Emission>, out: seq<Emission>, e: Emission, field: Field)
    requires OneMoreDelta(front, out, e) && Whole(told, front, field) && |told| > 0 && told[|told| - 1].key == e.key
    requires InField(e.key, field)
    ensures Whole(AddDelta(told, e), out, field)
  {
    var n := |told| - 1;
    var now := AddDelta(told, e);
    assert told[n] in told && told[n].text == Emitted(front, e.key);
    forall s ensures s in now <==> SentAs(s, out, field) {
      assert Emitted(front, s.key) + "" == Emitted(front, s.key);
      if s in now {
        var i :| 0 <= i < |now| && now[i] == s;
        assert i < n ==> told[i] in told && Before(told[i].key, told[n].key);
      }
      if SentAs(s, out, field) {
        assert s.key == e.key ==> now[n] == s;
        if s.key != e.key {
          assert s in told;
          var i :| 0 <= i < |told| && told[i] == s;
          assert now[i] == s;
        }
      }
    }
  }

  lemma AppendWhole(told: seq<Stretch>, front: seq<Emission>, out: seq<Emission>, e: Emission, field: Field)
    requires OneMoreDelta(front, out, e) && Whole(told, front, field) && (told != [] ==> told[|told| - 1].key != e.key)
    requires InField(e.key, field) && e.key.TextKey? && forall s :: s in told ==>
      s.key.TextKey? && !Before(e.key, s.key)
    ensures Whole(AddDelta(told, e), out, field)
  {
    var now := told + [Stretch(e.key, e.text)];
    forall i | 0 <= i < |told| ensures Before(told[i].key, e.key) {
      assert told[i] in told && told[|told| - 1] in told;
      assert InField(told[|told| - 1].key, field);
      assert i < |told| - 1 ==> Before(told[i].key, told[|told| - 1].key);
    }
    assert Stretch(e.key, Emitted(front, e.key)) !in told;
    assert Emitted(front, e.key) == "";
    assert "" + e.text == e.text;
    forall s ensures s in now <==> SentAs(s, out, field) {
      assert Emitted(front, s.key) + "" == Emitted(front, s.key);
      assert s in now <==> s in told || s == Stretch(e.key, e.text);
    }
  }

  predicate Shows(told: seq<Stretch>, key: Key) {
    exists i :: 0 <= i < |told| && told[i].key == key
  }

  /** Conversely, stretches of ever later parts come from deltas in order. */
  lemma {:induction false} WholeIsOrdered(out: seq<Emission>, field: Field)
    requires Increasing(Stretches(out, field))
    ensures InOrder(out, field) && forall a :: 0 <= a < |out| && DeltaIn(out[a], field) ==>
      Shows(Stretches(out, field), out[a].key)
  {
    if out != [] {
      var n := |out| - 1;
      var told, now := Stretches(out[..n], field), Stretches(out, field);
      assert forall i :: 0 <= i < |told| ==> now[i].key == told[i].key;
      WholeIsOrdered(out[..n], field);
      forall a | 0 <= a < n && DeltaIn(out[a], field)
        ensures Shows(now, out[a].key) && (DeltaIn(out[n], field) ==> !Before(out[n].key, out[a].key))
      {
        assert out[..n][a] == out[a];
        var i :| 0 <= i < |told| && told[i].key == out[a].key;
        assert now[i].key == out[a].key;
        assert DeltaIn(out[n], field) ==> now[|now| - 1].key == out[n].key;
      }
      if DeltaIn(out[n], field) { assert now[|now| - 1].key == out[n].key; }
      FrontInOrder(out, field);
    }
  }

  lemma FrontInOrder(out: seq<Emission>, field: Field)
    requires out != [] && InOrder(out[..|out| - 1], field)
    requires forall a :: 0 <= a < |out| - 1 && DeltaIn(out[a], field) && DeltaIn(out[|out| - 1], field) ==>
      !Before(out[|out| - 1].key, out[a].key)
    ensures InOrder(out, field)
  {
    forall a | 0 <= a < |out| - 1 ensures out[..|out| - 1][a] == out[a] {}
  }

  lemma ListedIsSent(out: seq<Emission>, items: seq<Item>, key: Key)
    requires Listed(items, key) && SentExactly(out, key.output, items[key.output])
    ensures Emitted(out, key) == ListedText(items[key.output], key.field, key.index)
  {
  }

  /** One field is told as in the one-shot conversion exactly when its deltas are in order and cover nothing else. */
  lemma FieldExactly(out: seq<Emission>, items: seq<Item>, field: Field)
    requires Telling(out) && forall i :: 0 <= i < |items| ==> SentExactly(out, i, items[i])
    ensures Stretches(out, field) == OneShotStretches(items, field) <==>
      InOrder(out, field) && Covered(out, field, items)
  {
    OneShotElements(items, field);
    if InOrder(out, field) && Covered(out, field, items) {
      OrderedIsWhole(out, field);
      forall s ensures SentAs(s, out, field) <==> ListedAs(s, items, field) {
        EmittedSomewhere(out, s.key);
        if SentAs(s, out, field) {
          var a :| 0 <= a < |out| && out[a].Delta? && out[a].key == s.key;
          assert DeltaIn(out[a], field);
        }
        if Listed(items, s.key) { ListedIsSent(out, items, s.key); }
      }
      SameElements(Stretches(out, field), OneShotStretches(items, field));
    }
    if Stretches(out, field) == OneShotStretches(items, field) {
      WholeIsOrdered(out, field);
      forall a | 0 <= a < |out| && DeltaIn(out[a], field) ensures Listed(items, out[a].key) {
        var i :| 0 <= i < |Stretches(out, field)| && Stretches(out, field)[i].key == out[a].key;
        assert Stretches(out, field)[i] in OneShotStretches(items, field);
      }
    }
  }

  // ---- Order in the events --------------------------------------------------------------------------------

  /** The event gives the part new text. */
  predicate Adds(events: seq<Event>, i: nat, key: Key)
    requires i < |events|
  {
    Said(events[..i + 1], key) != Said(events[..i], key)
  }

  predicate NotBack(events: seq<Event>, i: nat, a: Key, b: Key)
    requires i < |events|
  {
    Said(events[..i], a) != "" && Adds(events, i, b) ==> !Before(b, a)
  }

  /** No event adds text to a part that comes before one that already has text. */
  ghost predicate TextInOrder(events: seq<Event>, field: Field) {
    forall i: nat, a, b :: i < |events| && InField(a, field) && InField(b, field) ==> NotBack(events, i, a, b)
  }

  /** Every part that was given text is one the one-shot conversion takes. */
  ghost predicate TextListed(events: seq<Event>, field: Field, items: seq<Item>) {
    forall key :: InField(key, field) && Said(events, key) != "" ==> Listed(items, key)
  }

  lemma CoveredExactly(events: seq<Event>, includeUsage: bool, w: Work, field: Field, items: seq<Item>)
    requires HandleAll(events, includeUsage) == Ok(w)
    ensures Covered(w.out, field, items) <==> TextListed(events, field, items)
  {
    RunTells(events, includeUsage, w);
    forall key | InField(key, field) ensures Said(events, key) != "" <==> HasDelta(w.out, key) {
      SaidIsSent(events, includeUsage, w, key);
      EmittedSomewhere(w.out, key);
    }
    if TextListed(events, field, items) {
      forall a | 0 <= a < |w.out| && DeltaIn(w.out[a], field) ensures Listed(items, w.out[a].key) {
        assert HasDelta(w.out, w.out[a].key);
      }
    }
  }

  predicate HasMore(n: nat, all: seq<Emission>, key: Key) {
    exists b :: n <= b < |all| && all[b].Delta? && all[b].key == key
  }

  lemma HasMoreSnoc(n: nat, all: seq<Emission>, key: Key)
    requires n < |all|
    ensures HasMore(n, all, key) <==>
      HasMore(n, all[..|all| - 1], key) || (all[|all| - 1].Delta? && all[|all| - 1].key == key)
  {
    var front := all[..|all| - 1];
    if HasMore(n, front, key) {
      var b :| n <= b < |front| && front[b].Delta? && front[b].key == key;
      assert all[b] == front[b];
    }
    if HasMore(n, all, key) {
      var b :| n <= b < |all| && all[b].Delta? && all[b].key == key;
      assert b < |front| ==> all[b] == front[b];
    }
  }

  /** New text for a part is a delta past the old ones. */
  lemma {:induction false} MoreEmitted(out: seq<Emission>, all: seq<Emission>, key: Key)
    requires out <= all && Telling(all)
    ensures Emitted(all, key) != Emitted(out, key) <==> HasMore(|out|, all, key)
  {
    if all != out {
      var front := all[..|all| - 1];
      forall a | 0 <= a < |front| ensures front[a] == all[a] {}
      MoreEmitted(out, front, key);
      LongerEmitted(out, front, key);
      HasMoreSnoc(|out|, all, key);
    }
  }

  lemma {:induction false} LongerEmitted(out: seq<Emission>, all: seq<Emission>, key: Key)
    requires out <= all
    ensures Emitted(out, key) <= Emitted(all, key)
  {
    if all != out {
      LongerEmitted(out, all[..|all| - 1], key);
    }
  }

  ghost predicate StepInOrder(out: seq<Emission>, all: seq<Emission>, field: Field) {
    forall a, b ::
      InField(a, field) && InField(b, field) && Emitted(out, a) != "" && Emitted(all, b) != Emitted(out, b) ==>
        !Before(b, a)
  }

  lemma OnwardInOrder(out: seq<Emission>, all: seq<Emission>, field: Field)
    requires Onward(out, all) && Telling(all)
    ensures InOrder(all, field) <==> InOrder(out, field) && StepInOrder(out, all, field)
  {
    forall a | 0 <= a < |out| ensures out[a] == all[a] {}
    if InOrder(all, field) {
      forall a, b | InField(a, field) && InField(b, field) && Emitted(out, a) != ""
        && Emitted(all, b) != Emitted(out, b)
        ensures !Before(b, a)
      {
        EmittedSomewhere(out, a);
        MoreEmitted(out, all, b);
        var i :| 0 <= i < |out| && out[i].Delta? && out[i].key == a;
        var k :| |out| <= k < |all| && all[k].Delta? && all[k].key == b;
        assert DeltaIn(all[i], field) && DeltaIn(all[k], field);
      }
    }
    if InOrder(out, field) && StepInOrder(out, all, field) {
      forall i, k | 0 <= i < k < |all| && DeltaIn(all[i], field) && DeltaIn(all[k], field)
        ensures !Before(all[k].key, all[i].key)
      {
        if i < |out| <= k {
          EmittedSomewhere(out, all[i].key);
          assert HasDelta(out, out[i].key);
          MoreEmitted(out, all, all[k].key);
        }
      }
    }
  }

  ghost predicate LastInOrder(front: seq<Event>, events: seq<Event>, field: Field) {
    forall a, b ::
      InField(a, field) && InField(b, field) && Said(front, a) != "" && Said(events, b) != Said(front, b) ==>
        !Before(b, a)
  }

  lemma TextSnoc(events: seq<Event>, field: Field)
    requires events != []
    ensures var front := events[..|events| - 1]; TextInOrder(events, field) <==>
      TextInOrder(front, field) && LastInOrder(front, events, field)
  {
    var n := |events| - 1;
    var front := events[..n];
    assert events[..n + 1] == events;
    forall i: nat, a, b | i < n ensures NotBack(events, i, a, b) <==> NotBack(front, i, a, b) {
      assert events[..i] == front[..i] && events[..i + 1] == front[..i + 1];
    }
    if TextInOrder(events, field) {
      forall i: nat, a, b | i < n && InField(a, field) && InField(b, field) ensures NotBack(front, i, a, b) {
        assert NotBack(events, i, a, b);
      }
      forall a, b | InField(a, field) && InField(b, field) && Said(front, a) != "" && Said(events, b) != Said(front, b)
        ensures !Before(b, a)
      {
        assert NotBack(events, n, a, b);
      }
    }
  }

  lemma {:induction false} OrderExactly(events: seq<Event>, includeUsage: bool, w: Work, field: Field)
    requires HandleAll(events, includeUsage) == Ok(w)
    ensures InOrder(w.out, field) <==> TextInOrder(events, field)
  {
    if events != [] {
      var front, e := events[..|events| - 1], events[|events| - 1];
      var u := HandleAll(front, includeUsage).value;
      OrderExactly(front, includeUsage, u, field);
      HandleOnward(u, e, includeUsage, w);
      RunTells(events, includeUsage, w);
      OnwardInOrder(u.out, w.out, field);
      forall key | InField(key, field)
        ensures Emitted(u.out, key) == Said(front, key) && Emitted(w.out, key) == Said(events, key)
      {
        SaidIsSent(front, includeUsage, u, key);
        SaidIsSent(events, includeUsage, w, key);
      }
      TextSnoc(events, field);
    }
  }

  // ---- Tools ----------------------------------------------------------------------------------------------

  predicate Mentions(e: Event, o: nat) {
    match e.kind
    case ItemEvent => e.item.ToolItem? && e.outputIndex == o
    case Terminal =>
      e.response.Some? && e.response.value.output.Some? && o < |e.response.value.output.value|
      && e.response.value.output.value[o].ToolItem?
    case _ => false
  }

  predicate Mentioned(events: seq<Event>, o: nat) {
    exists i :: 0 <= i < |events| && Mentions(events[i], o)
  }

  predicate ListsTool(items: seq<Item>, o: nat) {
    o < |items| && items[o].ToolItem?
  }

  /** Only listed tools are mentioned, and each no later than the listed tools after it. */
  ghost predicate ToolsInOrder(events: seq<Event>, items: seq<Item>) {
    && (forall i: nat, o: nat :: i < |events| && Mentions(events[i], o) ==> ListsTool(items, o))
    && (forall i: nat, o: nat, p: nat :: i < |events| && Mentions(events[i], p) && o < p && ListsTool(items, o) ==>
         Mentioned(events[..i + 1], o))
  }

  function ToolOutputs(items: seq<Item>): seq<nat> {
    if items == [] then []
    else ToolOutputs(items[..|items| - 1]) + if items[|items| - 1].ToolItem? then [|items| - 1] else []
  }

  predicate Ascending(s: seq<nat>) {
    forall i, k :: 0 <= i < k < |s| ==> s[i] < s[k]
  }

  lemma {:induction false} OutputsAscend(items: seq<Item>)
    ensures Ascending(ToolOutputs(items)) && |ToolOutputs(items)| == |ItemsTools(items)|
    ensures forall o :: o in ToolOutputs(items) <==> ListsTool(items, o)
  {
    if items != [] {
      OutputsAscend(items[..|items| - 1]);
      var front := ToolOutputs(items[..|items| - 1]);
      forall i | 0 <= i < |front| ensures front[i] < |items| - 1 {
        assert front[i] in front;
      }
    }
  }

  lemma {:induction false} AddToolsMeans(seen: seq<nat>, items: seq<Item>)
    ensures seen <= AddTools(seen, items)
    ensures forall o :: o in AddTools(seen, items) <==> o in seen || ListsTool(items, o)
  {
    if items != [] {
      AddToolsMeans(seen, items[..|items| - 1]);
    }
  }

  lemma SeenMeans(e: Event, seen: seq<nat>)
    ensures seen <= SeenBy(e, seen)
    ensures forall o :: o in SeenBy(e, seen) <==> o in seen || Mentions(e, o)
  {
    if e.kind == Terminal && e.response.Some? && e.response.value.output.Some? {
      AddToolsMeans(seen, e.response.value.output.value);
    }
  }

  lemma MentionedSnoc(events: seq<Event>, o: nat)
    requires events != []
    ensures Mentioned(events, o) <==> Mentioned(events[..|events| - 1], o) || Mentions(events[|events| - 1], o)
  {
    var front := events[..|events| - 1];
    if Mentioned(front, o) {
      var i :| 0 <= i < |front| && Mentions(front[i], o);
      assert Mentions(events[i], o);
    }
    if Mentioned(events, o) {
      var i :| 0 <= i < |events| && Mentions(events[i], o);
      assert i < |front| ==> Mentions(front[i], o);
    }
  }

  lemma {:induction false} SeenIsMentioned(events: seq<Event>)
    ensures forall o :: o in ToolsSeen(events) <==> Mentioned(events, o)
  {
    if events != [] {
      SeenIsMentioned(events[..|events| - 1]);
      SeenMeans(events[|events| - 1], ToolsSeen(events[..|events| - 1]));
      forall o ensures o in ToolsSeen(events) <==> Mentioned(events, o) {
        MentionedSnoc(events, o);
      }
    }
  }

  lemma {:induction false} SeenGrows(events: seq<Event>, i: nat)
    requires i <= |events|
    ensures ToolsSeen(events[..i]) <= ToolsSeen(events)
  {
    if i == |events| {
      assert events[..i] == events;
    } else {
      var n := |events| - 1;
      assert events[..n][..i] == events[..i];
      SeenGrows(events[..n], i);
      SeenMeans(events[n], ToolsSeen(events[..n]));
    }
  }

  lemma AscendsOn(s: seq<nat>, o: nat)
    requires Ascending(s) && forall p :: p in s ==> p < o
    ensures Ascending(s + [o])
  {
    forall i | 0 <= i < |s| ensures s[i] < o {
      assert s[i] in s;
    }
  }

  /** With a tool, every listed tool before it has been seen. */
  ghost predicate Closed(seen: seq<nat>, items: seq<Item>) {
    forall o: nat, p :: p in seen && o < p && ListsTool(items, o) ==> o in seen
  }

  lemma {:induction false} AddToolsAscend(seen: seq<nat>, items: seq<Item>)
    requires Ascending(seen) && Closed(seen, items)
    ensures Ascending(AddTools(seen, items))
  {
    if items != [] {
      var n := |items| - 1;
      var front := AddTools(seen, items[..n]);
      assert forall o :: ListsTool(items[..n], o) ==> ListsTool(items, o);
      AddToolsAscend(seen, items[..n]);
      AddToolsMeans(seen, items[..n]);
      if items[n].ToolItem? && n !in front {
        AscendsOn(front, n);
      }
    }
  }

  lemma SeenByAscends(seen: seq<nat>, e: Event, items: seq<Item>)
    requires Ascending(seen) && Closed(seen, items) && forall o :: Mentions(e, o) ==> ListsTool(items, o)
    ensures Ascending(SeenBy(e, seen))
  {
    if e.kind == ItemEvent && e.item.ToolItem? && e.outputIndex >= 0 && e.outputIndex !in seen {
      assert Mentions(e, e.outputIndex);
      AscendsOn(seen, e.outputIndex);
    } else if e.kind == Terminal && e.response.Some? && e.response.value.output.Some? {
      forall o | ListsTool(e.response.value.output.value, o) ensures ListsTool(items, o) {
        assert Mentions(e, o);
      }
      AddToolsAscend(seen, e.response.value.output.value);
    }
  }

  /** Tools mentioned in output order are seen in output order. */
  lemma {:induction false} SeenAscends(events: seq<Event>, items: seq<Item>, n: nat)
    requires n <= |events| && ToolsInOrder(events, items)
    ensures Ascending(ToolsSeen(events[..n])) && Closed(ToolsSeen(events[..n]), items)
  {
    if n > 0 {
      var front, e := events[..n - 1], events[n - 1];
      assert events[..n][..n - 1] == front && events[..n][n - 1] == e;
      SeenAscends(events, items, n - 1);
      SeenByAscends(ToolsSeen(front), e, items);
      SeenCloses(events, items, n, ToolsSeen(front), ToolsSeen(events[..n]));
    }
  }

  lemma SeenCloses(events: seq<Event>, items: seq<Item>, n: nat, was: seq<nat>, now: seq<nat>)
    requires 0 < n <= |events| && ToolsInOrder(events, items) && Closed(was, items)
    requires now == SeenBy(events[n - 1], was) == ToolsSeen(events[..n])
    ensures Closed(now, items)
  {
    SeenMeans(events[n - 1], was);
    SeenIsMentioned(events[..n]);
    forall o: nat, p | p in now && o < p && ListsTool(items, o) ensures o in now {
      if p !in was {
        assert Mentions(events[n - 1], p);
        assert events[..(n - 1) + 1] == events[..n];
      }
    }
  }

  lemma {:induction false} SameAscending(a: seq<nat>, b: seq<nat>)
    requires Ascending(a) && Ascending(b) && forall o :: o in a <==> o in b
    ensures a == b
  {
    Inhabited(a);
    Inhabited(b);
    if a != [] && b != [] {
      var m, n := |a| - 1, |b| - 1;
      assert a[m] in b && b[n] in a;
      assert a[m] == b[n];
      var front, rest := a[..m], b[..n];
      forall o ensures o in front <==> o in rest {
        assert o in front <==> o in a && o != a[m];
        assert o in rest <==> o in b && o != b[n];
      }
      SameAscending(front, rest);
    }
  }

  predicate ListsItems(e: Event, items: seq<Item>) {
    e.kind == Terminal && e.response.Some? && e.response.value.output == Some(items)
  }

  lemma ToolsExactly(events: seq<Event>, items: seq<Item>)
    requires events != [] && ListsItems(events[|events| - 1], items)
    ensures ToolsSeen(events) == ToolOutputs(items) <==> ToolsInOrder(events, items)
  {
    OutputsAscend(items);
    SeenIsMentioned(events);
    assert events[..|events|] == events;
    if ToolsInOrder(events, items) {
      SeenAscends(events, items, |events|);
      forall o ensures o in ToolsSeen(events) <==> o in ToolOutputs(items) {
        if o in ToolsSeen(events) {
          var i :| 0 <= i < |events| && Mentions(events[i], o);
        }
        if ListsTool(items, o) { assert Mentions(events[|events| - 1], o); }
      }
      SameAscending(ToolsSeen(events), ToolOutputs(items));
    }
    if ToolsSeen(events) == ToolOutputs(items) {
      AscendingTellsOrder(events, items);
    }
  }

  lemma AscendingTellsOrder(events: seq<Event>, items: seq<Item>)
    requires ToolsSeen(events) == ToolOutputs(items)
    ensures ToolsInOrder(events, items)
  {
    OutputsAscend(items);
    SeenIsMentioned(events);
    forall i: nat, o: nat | i < |events| && Mentions(events[i], o) ensures ListsTool(items, o) {
      assert Mentioned(events, o);
    }
    forall i: nat, o: nat, p: nat | i < |events| && Mentions(events[i], p) && o < p && ListsTool(items, o)
      ensures Mentioned(events[..i + 1], o)
    {
      var part, all := ToolsSeen(events[..i + 1]), ToolsSeen(events);
      SeenGrows(events, i + 1);
      SeenIsMentioned(events[..i + 1]);
      assert Mentions(events[..i + 1][i], p);
      assert p in part && o in all;
      var k :| 0 <= k < |part| && part[k] == p;
      var j :| 0 <= j < |all| && all[j] == o;
      assert all[k] == p && j < k;
      assert part[j] == o;
    }
  }

  // ---- Main results ---------------------------------------------------------------------------------------

  /** What a client is told, with the part or output each piece comes from. */
  datatype Report = Report(content: seq<Stretch>, refusal: seq<Stretch>, reasoning: seq<Stretch>, tools: seq<nat>)

  function Told(out: seq<Emission>): Report {
    Report(Stretches(out, ContentField), Stretches(out, RefusalField), Stretches(out, ReasoningField), ToolsOpened(out))
  }

  function OneShotTold(items: seq<Item>): Report {
    Report(OneShotStretches(items, ContentField), OneShotStretches(items, RefusalField),
        OneShotStretches(items, ReasoningField), ToolOutputs(items))
  }

  ghost predicate FieldOrderly(events: seq<Event>, items: seq<Item>, field: Field) {
    TextInOrder(events, field) && TextListed(events, field, items)
  }

  /** The events give text part by part and mention tools in output order, and the one-shot conversion takes it all. */
  ghost predicate Orderly(events: seq<Event>, items: seq<Item>) {
    && FieldOrderly(events, items, ContentField) && FieldOrderly(events, items, RefusalField)
    && FieldOrderly(events, items, ReasoningField) && ToolsInOrder(events, items)
  }

  lemma FieldOrderlyExactly(events: seq<Event>, includeUsage: bool, w: Work, items: seq<Item>, field: Field)
    requires HandleAll(events, includeUsage) == Ok(w) && forall i :: 0 <= i < |items| ==>
      SentExactly(w.out, i, items[i])
    ensures Stretches(w.out, field) == OneShotStretches(items, field) <==> FieldOrderly(events, items, field)
  {
    RunTells(events, includeUsage, w);
    FieldExactly(w.out, items, field);
    CoveredExactly(events, includeUsage, w, field, items);
    OrderExactly(events, includeUsage, w, field);
  }

  /** Main result: the client is told the same pieces in the same order as by the one-shot conversion of the terminal
      output if and only if the events are orderly. */
  lemma OrderlyExactly(events: seq<Event>, includeUsage: bool, w: Work, items: seq<Item>, status: Status)
    requires Ends(events, includeUsage, w, items, status)
    ensures Told(w.out) == OneShotTold(items) <==> Orderly(events, items)
  {
    TerminalIsExact(events, includeUsage, w, items, status);
    FieldOrderlyExactly(events, includeUsage, w, items, ContentField);
    FieldOrderlyExactly(events, includeUsage, w, items, RefusalField);
    FieldOrderlyExactly(events, includeUsage, w, items, ReasoningField);
    ToolsAsSeen(events, includeUsage, w);
    ToolsExactly(events, items);
  }

  function CallFor(item: Item): ToolCall
    requires item.ToolItem?
  {
    ToolCall(item.callId, item.custom, item.name, ValueOf(item))
  }

  lemma {:induction false} CallAt(items: seq<Item>, i: nat)
    requires i < |ToolOutputs(items)| == |ItemsTools(items)|
    ensures var o := ToolOutputs(items)[i]; ListsTool(items, o) && ItemsTools(items)[i] == CallFor(items[o])
  {
    if items != [] {
      var front := items[..|items| - 1];
      OutputsAscend(front);
      if i < |ToolOutputs(front)| {
        CallAt(front, i);
      }
    }
  }

  lemma ShownCall(s: State, tools: seq<ToolCall>, o: nat, item: Item)
    requires o in s.tools && HasCall(s, tools, o) && item.ToolItem? && Shown(s, o, item)
    ensures s.toolIndex[o] < |tools| && tools[s.toolIndex[o]] == CallFor(item)
  {
  }

  lemma PlacedOutput(s: State, seen: seq<nat>, i: nat)
    requires Placed(s, seen) && i < |seen|
    ensures seen[i] in s.tools && s.toolIndex[seen[i]] == i
  {
    assert PlacedAt(s, seen, i);
  }

  /** Tools announced in listed order are the one-shot tools. */
  lemma ToolsAreListed(s: State, tools: seq<ToolCall>, items: seq<Item>)
    requires |tools| == |s.tools| && Placed(s, ToolOutputs(items))
    requires forall o :: o in s.tools ==> HasCall(s, tools, o)
    requires forall i :: 0 <= i < |items| ==> Shown(s, i, items[i])
    ensures tools == ItemsTools(items)
  {
    OutputsAscend(items);
    forall i: nat | i < |tools| ensures tools[i] == ItemsTools(items)[i] {
      CallAt(items, i);
      PlacedOutput(s, ToolOutputs(items), i);
      ShownCall(s, tools, ToolOutputs(items)[i], items[ToolOutputs(items)[i]]);
    }
  }

  /** Hence an orderly stream leaves the client with exactly the one-shot message. */
  lemma OrderlyMeetsOneShot(events: seq<Event>, includeUsage: bool, w: Work, items: seq<Item>, status: Status)
    requires Ends(events, includeUsage, w, items, status) && Orderly(events, items)
    ensures Client(w.out) == OneShot(items, status)
  {
    OrderlyExactly(events, includeUsage, w, items, status);
    RunAgrees(events, includeUsage, w);
    TerminalIsExact(events, includeUsage, w, items, status);
    ToolsAsSeen(events, includeUsage, w);
    ToolsAreListed(w.s, Client(w.out).tools, items);
    SameTexts(w.out, items);
    FinishByTools(events, includeUsage, w, items, status);
  }

  lemma SameTexts(out: seq<Emission>, items: seq<Item>)
    requires Told(out) == OneShotTold(items)
    ensures Client(out).content == ItemsText(items, ContentField)
    ensures Client(out).refusal == ItemsText(items, RefusalField)
    ensures Client(out).reasoning == ItemsText(items, ReasoningField)
  {
    ClientTexts(out);
    forall field
      ensures FieldSent(out, field) ==
        ItemsText(items, field) || Stretches(out, field) != OneShotStretches(items, field)
    {
      StretchesJoin(out, field);
      OneShotJoins(items, field);
    }
  }

  /** The stream's finish reason is the one-shot's exactly when the answer is incomplete or the terminal output lists
      some tool whenever any event mentioned one. */
  lemma FinishAgreesExactly(events: seq<Event>, includeUsage: bool, w: Work, items: seq<Item>, status: Status)
    requires Ends(events, includeUsage, w, items, status)
    ensures Client(w.out).finish == OneShot(items, status).finish <==>
      status != Completed || (forall o :: !Mentioned(events, o)) || exists o :: ListsTool(items, o)
  {
    FinishByTools(events, includeUsage, w, items, status);
    ToolsAsSeen(events, includeUsage, w);
    SeenIsMentioned(events);
    OutputsAscend(items);
    var seen, listed := ToolsSeen(events), ToolOutputs(items);
    Inhabited(seen);
    Inhabited(listed);
    assert |w.s.tools| == |seen| && |ItemsTools(items)| == |listed|;
  }
}
