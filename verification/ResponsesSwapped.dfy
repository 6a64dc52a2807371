/** An accepted stream that tells parts out of order, and what the client then reads. */
module ResponsesSwapped {
  import opened Outcomes
  import opened ChatWire
  import opened ResponsesChat
  import opened ResponsesAgreement
  import opened ResponsesFinal

  const FIRST := Part(OutputText, "a", "")
  const SECOND := Part(OutputText, "b", "")
  const LISTED := [MessageItem([FIRST, SECOND])]

  function Plain(kind: EventKind, contentIndex: int, delta: string, response: Option<Response>): Event {
    Event(kind, 0, contentIndex, 0, delta, "", "", "", "", OtherItem, response)
  }

  /** The second part's text arrives before the first part's. */
  function Swapped(): seq<Event> {
    [Plain(OtherKind, 0, "", Some(Response("r", Completed, None, false))),
     Plain(TextEvent(OutputSource, false), 1, "b", None),
     Plain(TextEvent(OutputSource, false), 0, "a", None),
     Plain(Terminal, 0, "", Some(Response("r", Completed, Some(LISTED), false)))]
  }

  lemma HandleSnoc(events: seq<Event>, n: nat, w: Work, v: Work)
    requires n < |events| && HandleAll(events[..n], false) == Ok(w) && Handle(w, events[n], false) == Ok(v)
    ensures HandleAll(events[..n + 1], false) == Ok(v)
  {
    assert events[..n + 1][..n] == events[..n];
  }

  function SwappedText(): map<Key, string> {
    map[TextKey(ContentField, 0, 1) := "b", TextKey(ContentField, 0, 0) := "a"]
  }

  /** Giving a part's whole text again changes nothing. */
  lemma PutTextAgain(w: Work, key: Key, value: string)
    requires key in w.s.text && w.s.text[key] == value && w.s.size <= MAX_STREAM
    ensures PutText(w, key, value, true) == Ok(w)
  {
    assert Tail(value, value) == "" && value + "" == value;
    assert w.s.text[key := value] == w.s.text;
  }

  lemma ListedAdds(w: Work)
    requires w.s.text == SwappedText() && w.s.size == 2
    ensures PutItems(w, LISTED) == Ok(w)
  {
    PutTextAgain(w, TextKey(ContentField, 0, 0), "a");
    PutTextAgain(w, TextKey(ContentField, 0, 1), "b");
    var parts := [FIRST, SECOND];
    assert parts[..1] == [FIRST] && [FIRST][..0] == [];
    assert PutParts(w, 0, []) == Ok(w);
    assert PutParts(w, 0, [FIRST]) == Ok(w);
    assert PutParts(w, 0, parts) == Ok(w);
    assert LISTED[..0] == [] && PutItems(w, []) == Ok(w);
  }

  const TEXT_ONE := Delta(TextKey(ContentField, 0, 1), 0, false, "b")
  const TEXT_ZERO := Delta(TextKey(ContentField, 0, 0), 0, false, "a")

  function Created(): Work {
    Work(State("r", true, map[], map[], map[], 0), [RoleSent])
  }

  function OneTold(): Work {
    Grow(Created(), TextKey(ContentField, 0, 1), "b", 0, false)
  }

  function BothTold(): Work {
    Grow(OneTold(), TextKey(ContentField, 0, 0), "a", 0, false)
  }

  lemma CreatedRuns()
    ensures HandleAll(Swapped()[..1], false) == Ok(Created())
  {
    assert Swapped()[..0] == [];
    assert HandleAll([], false) == Ok(Work(EMPTY_STATE, []));
    assert [] + [RoleSent] == [RoleSent];
    HandleSnoc(Swapped(), 0, Work(EMPTY_STATE, []), Created());
  }

  lemma OneRuns()
    ensures HandleAll(Swapped()[..2], false) == Ok(OneTold())
  {
    CreatedRuns();
    assert Handle(Created(), Swapped()[1], false) == Ok(OneTold());
    HandleSnoc(Swapped(), 1, Created(), OneTold());
  }

  lemma BothRun()
    ensures HandleAll(Swapped()[..3], false) == Ok(BothTold())
  {
    OneRuns();
    assert Handle(OneTold(), Swapped()[2], false) == Ok(BothTold());
    HandleSnoc(Swapped(), 2, OneTold(), BothTold());
  }

  lemma BothForm()
    ensures BothTold().s.text == SwappedText() && BothTold().s.size == 2 && BothTold().s.id == "r" && BothTold().s.role
    ensures BothTold().out == [RoleSent] + [TEXT_ONE] + [TEXT_ZERO]
  {
    assert "" + "b" == "b" && "" + "a" == "a";
  }

  lemma AllRun()
    ensures HandleAll(Swapped(), false) == Ok(Finale(BothTold(), Swapped()[3].response.value, false))
  {
    BothRun();
    BothForm();
    ListedAdds(BothTold());
    HandleSnoc(Swapped(), 3, BothTold(), Finale(BothTold(), Swapped()[3].response.value, false));
    assert Swapped()[..4] == Swapped();
  }

  lemma BothRead()
    ensures Client(BothTold().out).content == "ba"
  {
    BothForm();
    assert Client([]) == EMPTY;
    SentSnoc([], RoleSent);
    assert [] + [RoleSent] == [RoleSent];
    SentSnoc([RoleSent], TEXT_ONE);
    SentSnoc([RoleSent] + [TEXT_ONE], TEXT_ZERO);
    assert "" + "b" == "b" && "b" + "a" == "ba";
  }

  lemma ListedText()
    ensures OneShot(LISTED, Completed).content == "ab"
  {
    var parts := [FIRST, SECOND];
    assert parts[..1] == [FIRST] && [FIRST][..0] == [];
    assert PartsText([], OutputText) == "";
    assert PartsText([FIRST], OutputText) == "" + "a";
    assert PartsText(parts, OutputText) == "a" + "b";
    assert LISTED[..0] == [] && ItemsText([], ContentField) == "";
    assert ItemsText(LISTED, ContentField) == "" + "ab";
  }

  /** The stream is accepted, and the client reads "ba" where the one-shot conversion gives "ab". */
  lemma SwappedPartsDiffer()
    ensures HandleAll(Swapped(), false).Ok?
    ensures Client(HandleAll(Swapped(), false).value.out).content == "ba" && OneShot(LISTED, Completed).content == "ab"
  {
    AllRun();
    FinaleClient(BothTold(), Swapped()[3].response.value, false);
    BothRead();
    ListedText();
  }
}
