/** One corrective edit of a rejected Anthropic request: drop thinking the provider refused, or repair its budget. */
module Rectifier {
  const BUDGET := 32000
  const RAISED := 64000

  /** An element of a content list: `kind`, `text` and `thinking` are the string members, empty when not strings; `rest`
      stands for everything else. Elements that are not objects pass through. */
  datatype Block = Opaque(rest: nat) | Object(kind: string, text: string, hasThinking: bool, thinking: string,
      rest: nat)

  datatype Content = NotBlocks(rest: nat) | Blocks(blocks: seq<Block>)

  datatype Messages = NotMessages | List(contents: seq<Content>)

  datatype EditList = NoEdits | NotEdits | Edits(clears: seq<bool>)

  /** `context_management`: absent or not an object, or an object with its edits; an edit is whether it clears
      thinking. */
  datatype Management = NotManaged | Managed(edits: EditList)

  datatype Thinking = Absent | NotThinking | Options(kind: string, budget: int, rest: nat)

  datatype Body = Body(thinking: Thinking, messages: Messages, management: Management, maxTokens: int)

  /** The switches, and the operator's message patterns, trimmed and in lower case. */
  datatype Settings = Settings(enabled: bool, apiKey: bool, budget: bool, patterns: seq<string>)

  datatype Repair = NoRepair | DropThinking | RaiseBudget

  /** The model, in lower case, is of a family that checks thinking. */
  predicate Strict(model: string) {
    "claude-" <= model || "opus-" <= model || "sonnet-" <= model || "haiku-" <= model
  }

  /** The message, in lower case, complains about thinking or empty content; `says` tells what it contains. */
  predicate SignatureError(says: string -> bool, patterns: seq<string>) {
    || says("signature")
    || (says("thinking") && (says("expected") || says("cannot be modified") || says("block must contain")))
    || says("empty content") || says("content blocks must be non-empty")
    || exists i :: 0 <= i < |patterns| && patterns[i] != "" && says(patterns[i])
  }

  predicate BudgetError(says: string -> bool) {
    || ((says("budget_tokens") || says("budget tokens")) && says("thinking")
        && (says(">= 1024") || says("greater than or equal to 1024") || (says("1024") && says("input should be"))))
    || (says("must be greater than 1024 to reserve tokens for a final answer") && says("baseten reasoning is enabled"))
  }

  /** What the settings, the model and the message select. */
  function Choose(s: Settings, model: string, says: string -> bool): Repair {
    if !s.enabled then NoRepair
    else if s.apiKey && Strict(model) && SignatureError(says, s.patterns) then DropThinking
    else if s.budget && BudgetError(says) then RaiseBudget
    else NoRepair
  }

  function TextBlock(text: string): Block {
    Object("text", text, false, "", 0)
  }

  const REMOVED := TextBlock("(content removed)")

  predicate IsThought(b: Block) {
    b.Object? && (b.kind == "thinking" || (b.kind == "" && b.hasThinking))
  }

  predicate IsDropped(b: Block) {
    b.Object? && (b.kind == "redacted_thinking" || (b.kind == "text" && b.text == ""))
  }

  /** Neither thinking nor empty: kept as it is. */
  predicate Survives(b: Block) {
    !IsThought(b) && !IsDropped(b)
  }

  /** A block becomes itself, its thinking as text, or nothing. */
  function Image(b: Block): seq<Block> {
    if IsThought(b) then if b.thinking != "" then [TextBlock(b.thinking)] else [] else if IsDropped(b) then [] else [b]
  }

  function Images(blocks: seq<Block>): seq<Block> {
    if blocks == [] then [] else Images(blocks[..|blocks| - 1]) + Image(blocks[|blocks| - 1])
  }

  function Cleaned(blocks: seq<Block>): seq<Block> {
    if Images(blocks) == [] then [REMOVED] else Images(blocks)
  }

  function CleanContent(c: Content): Content {
    if c.Blocks? then Blocks(Cleaned(c.blocks)) else c
  }

  function CleanContents(contents: seq<Content>): seq<Content> {
    seq(|contents|, i requires 0 <= i < |contents| => CleanContent(contents[i]))
  }

  function Kept(clears: seq<bool>): seq<bool> {
    if clears == [] then [] else Kept(clears[..|clears| - 1]) + if clears[|clears| - 1] then [] else [false]
  }

  function CleanManagement(m: Management): Management {
    if m.Managed? && m.edits.Edits? then
      Managed(if Kept(m.edits.clears) == [] then NoEdits else Edits(Kept(m.edits.clears))) else m
  }

  predicate SomeClear(m: Management) {
    m.Managed? && m.edits.Edits? && exists i :: 0 <= i < |m.edits.clears| && m.edits.clears[i]
  }

  predicate NeedsCleaning(blocks: seq<Block>) {
    blocks == [] || exists i :: 0 <= i < |blocks| && !Survives(blocks[i])
  }

  predicate AnyNeedsCleaning(contents: seq<Content>) {
    exists i :: 0 <= i < |contents| && contents[i].Blocks? && NeedsCleaning(contents[i].blocks)
  }

  function Rectified(b: Body, repair: Repair): (Body, bool) {
    match repair
    case NoRepair => (b, false)
    case DropThinking =>
      if !b.messages.List? then (b, false)
      else if b.thinking != Absent || AnyNeedsCleaning(b.messages.contents) || SomeClear(b.management) then
        (Body(Absent, List(CleanContents(b.messages.contents)), CleanManagement(b.management), b.maxTokens), true)
      else (b, false)
    case RaiseBudget =>
      if b.thinking == NotThinking || (b.thinking.Options? && b.thinking.kind == "adaptive") then (b, false)
      else
        var changed := !b.thinking.Options? || b.thinking.kind != "enabled" || b.thinking.budget != BUDGET
        || b.maxTokens <= BUDGET;
        if changed then
          (b.(thinking := Options("enabled", BUDGET, if b.thinking.Options? then b.thinking.rest
            else 0), maxTokens := if b.maxTokens <= BUDGET then RAISED else b.maxTokens), true)
        else (b, false)
  }

  // ---- What the edit keeps --------------------------------------------------------------------------------

  lemma {:induction false} ImagesSurvive(blocks: seq<Block>)
    ensures forall i :: 0 <= i < |Images(blocks)| ==> Survives(Images(blocks)[i])
  {
    if blocks != [] {
      ImagesSurvive(blocks[..|blocks| - 1]);
    }
  }

  lemma {:induction false} SurvivorsStay(blocks: seq<Block>)
    requires forall i :: 0 <= i < |blocks| ==> Survives(blocks[i])
    ensures Images(blocks) == blocks
  {
    if blocks != [] {
      SurvivorsStay(blocks[..|blocks| - 1]);
      assert blocks == blocks[..|blocks| - 1] + [blocks[|blocks| - 1]];
    }
  }

  lemma {:induction false} FewerImages(blocks: seq<Block>)
    ensures |Images(blocks)| <= |blocks|
  {
    if blocks != [] {
      FewerImages(blocks[..|blocks| - 1]);
    }
  }

  /** A cleaned list needs no cleaning; a list changes exactly when it needed it. */
  lemma CleanedIsClean(blocks: seq<Block>)
    ensures !NeedsCleaning(Cleaned(blocks)) && Cleaned(blocks) != []
    ensures Cleaned(blocks) != blocks <==> NeedsCleaning(blocks)
  {
    ImagesSurvive(blocks);
    assert blocks == [REMOVED] ==> !NeedsCleaning(blocks);
    assert Images(blocks) == blocks && blocks != [] ==> !NeedsCleaning(blocks);
    if !NeedsCleaning(blocks) {
      SurvivorsStay(blocks);
    }
  }

  function Others(blocks: seq<Block>): seq<Block> {
    if blocks == [] then []
    else
      var b := blocks[|blocks| - 1];
      Others(blocks[..|blocks| - 1]) + OtherOf(b)
  }

  function OtherOf(b: Block): seq<Block> {
    if Survives(b) && !(b.Object? && b.kind == "text") then [b] else []
  }

  lemma {:induction false} OthersAppend(a: seq<Block>, b: seq<Block>)
    ensures Others(a + b) == Others(a) + Others(b)
  {
    if b == [] {
      assert a + b == a;
    } else {
      assert (a + b)[..|a + b| - 1] == a + b[..|b| - 1];
      OthersAppend(a, b[..|b| - 1]);
    }
  }

  lemma OthersOfOne(b: Block)
    ensures Others([b]) == OtherOf(b)
  {
    assert [b][..0] == [];
    assert Others([]) == [];
  }

  /** Tool blocks, and everything else that is neither thinking nor text, stay as they are and in order. */
  lemma OthersStay(blocks: seq<Block>)
    ensures Others(Images(blocks)) == Others(blocks) && Others(Cleaned(blocks)) == Others(blocks)
  {
    OthersOfOne(REMOVED);
    OthersOfImages(blocks);
  }

  lemma OthersOfImage(b: Block)
    ensures Others(Image(b)) == OtherOf(b)
  {
    if Image(b) != [] {
      var x := Image(b)[0];
      OthersOfOne(x);
      assert Image(b) == [x] && OtherOf(x) == OtherOf(b);
    }
  }

  lemma {:induction false} OthersOfImages(blocks: seq<Block>)
    ensures Others(Images(blocks)) == Others(blocks)
  {
    if blocks != [] {
      var front, b := blocks[..|blocks| - 1], blocks[|blocks| - 1];
      OthersOfImages(front);
      OthersAppend(Images(front), Image(b));
      OthersOfImage(b);
    }
  }

  /** `a` can be read off `b` in order, skipping elements. */
  predicate Within(a: seq<Block>, b: seq<Block>) {
    if a == [] then true
    else if b == [] then false
    else if a[|a| - 1] == b[|b| - 1] then Within(a[..|a| - 1], b[..|b| - 1])
    else Within(a, b[..|b| - 1])
  }

  function Survivors(blocks: seq<Block>): seq<Block> {
    if blocks == [] then []
    else Survivors(blocks[..|blocks| - 1]) + if Survives(blocks[|blocks| - 1]) then [blocks[|blocks| - 1]] else []
  }

  lemma {:induction false} WithinLonger(a: seq<Block>, b: seq<Block>, x: Block)
    requires Within(a, b)
    ensures Within(a, b + [x])
    decreases |b|
  {
    assert (b + [x])[..|b|] == b;
    if a != [] && a[|a| - 1] == x {
      if a[|a| - 1] == b[|b| - 1] {
        assert b == b[..|b| - 1] + [x];
        WithinLonger(a[..|a| - 1], b[..|b| - 1], x);
      } else {
        WithinLess(a, b[..|b| - 1]);
        WithinLonger(a[..|a| - 1], b[..|b| - 1], b[|b| - 1]);
        assert b == b[..|b| - 1] + [b[|b| - 1]];
      }
    }
  }

  lemma {:induction false} WithinLess(a: seq<Block>, b: seq<Block>)
    requires a != [] && Within(a, b)
    ensures Within(a[..|a| - 1], b)
    decreases |b|
  {
    if a[|a| - 1] == b[|b| - 1] {
      WithinLonger(a[..|a| - 1], b[..|b| - 1], b[|b| - 1]);
      assert b == b[..|b| - 1] + [b[|b| - 1]];
    } else {
      WithinLess(a, b[..|b| - 1]);
      WithinLonger(a[..|a| - 1], b[..|b| - 1], b[|b| - 1]);
      assert b == b[..|b| - 1] + [b[|b| - 1]];
    }
  }

  lemma {:induction false} SurvivorsInImages(blocks: seq<Block>)
    ensures Within(Survivors(blocks), Images(blocks))
  {
    if blocks != [] {
      var front, b := blocks[..|blocks| - 1], blocks[|blocks| - 1];
      SurvivorsInImages(front);
      if Survives(b) {
        assert (Survivors(front) + [b])[..|Survivors(front)|] == Survivors(front);
        assert (Images(front) + [b])[..|Images(front)|] == Images(front);
      } else if Image(b) != [] {
        WithinLonger(Survivors(front), Images(front), Image(b)[0]);
        assert Survivors(blocks) == Survivors(front) && Images(blocks) == Images(front) + [Image(b)[0]];
      } else {
        assert Survivors(blocks) == Survivors(front) && Images(blocks) == Images(front);
      }
    }
  }

  /** Every block that is neither thinking nor empty is still there, unchanged and in order. */
  lemma SurvivorsWithin(blocks: seq<Block>)
    ensures Within(Survivors(blocks), Cleaned(blocks))
  {
    SurvivorsInImages(blocks);
  }

  predicate NoClears(clears: seq<bool>) {
    forall i :: 0 <= i < |clears| ==> !clears[i]
  }

  lemma {:induction false} KeptHasNoClears(clears: seq<bool>)
    ensures NoClears(Kept(clears)) && |Kept(clears)| <= |clears|
    ensures |Kept(clears)| == |clears| ==> NoClears(clears)
  {
    if clears != [] {
      KeptHasNoClears(clears[..|clears| - 1]);
    }
  }

  lemma {:induction false} NoClearsStays(clears: seq<bool>)
    requires NoClears(clears)
    ensures Kept(clears) == clears
  {
    if clears != [] {
      NoClearsStays(clears[..|clears| - 1]);
      assert clears == clears[..|clears| - 1] + [clears[|clears| - 1]];
    }
  }

  lemma KeptIsClean(clears: seq<bool>)
    ensures NoClears(Kept(clears)) && Kept(Kept(clears)) == Kept(clears)
    ensures Kept(clears) == clears <==> NoClears(clears)
  {
    KeptHasNoClears(clears);
    NoClearsStays(Kept(clears));
    if NoClears(clears) {
      NoClearsStays(clears);
    }
  }

  /** The edit reports a change exactly when it makes one. */
  lemma ReportsChanges(b: Body, repair: Repair)
    ensures Rectified(b, repair).1 <==> Rectified(b, repair).0 != b
  {
    if repair == DropThinking && b.messages.List? {
      var contents := b.messages.contents;
      if AnyNeedsCleaning(contents) {
        var i :| 0 <= i < |contents| && contents[i].Blocks? && NeedsCleaning(contents[i].blocks);
        CleanedIsClean(contents[i].blocks);
        assert CleanContents(contents)[i] != contents[i];
      }
      if SomeClear(b.management) {
        KeptIsClean(b.management.edits.clears);
      }
    }
  }

  /** Main result: after one edit, the same message calls for no further one. */
  lemma RectifyOnce(b: Body, repair: Repair)
    ensures var c := Rectified(b, repair).0; Rectified(c, repair) == (c, false)
  {
    if repair == DropThinking && b.messages.List? && Rectified(b, repair).1 {
      var contents := b.messages.contents;
      forall i | 0 <= i < |contents| && contents[i].Blocks? ensures !NeedsCleaning(CleanContents(contents)[i].blocks) {
        CleanedIsClean(contents[i].blocks);
      }
      if b.management.Managed? && b.management.edits.Edits? {
        KeptIsClean(b.management.edits.clears);
      }
    }
  }

  predicate SameLength(a: Messages, b: Messages) {
    a.List? && b.List? && |a.contents| == |b.contents|
  }

  predicate Nonempty(m: Messages) {
    m.List? ==> forall i :: 0 <= i < |m.contents| && m.contents[i].Blocks? ==> m.contents[i].blocks != []
  }

  /** No content list is left empty. */
  lemma ContentsStayNonempty(b: Body)
    requires Rectified(b, DropThinking).1
    ensures Rectified(b, DropThinking).0.thinking == Absent
      && SameLength(b.messages, Rectified(b, DropThinking).0.messages)
    ensures Nonempty(Rectified(b, DropThinking).0.messages)
  {
    var contents := b.messages.contents;
    forall i | 0 <= i < |contents| && contents[i].Blocks? ensures Cleaned(contents[i].blocks) != [] {
      CleanedIsClean(contents[i].blocks);
    }
  }

  /** In the budget repair the thinking budget ends below the output limit. */
  lemma BudgetBelowLimit(b: Body)
    requires b.thinking != NotThinking && !(b.thinking.Options? && b.thinking.kind == "adaptive")
    ensures var c := Rectified(b, RaiseBudget).0;
      c.thinking.Options? && c.thinking.kind == "enabled" && c.thinking.budget == BUDGET < c.maxTokens
    ensures Rectified(b, RaiseBudget).0.maxTokens == b.maxTokens || Rectified(b, RaiseBudget).0.maxTokens == RAISED
  {
  }

  // ---- The edit as the source makes it --------------------------------------------------------------------

  /** The loop over one content list. */
  method CleanBlocks(blocks: seq<Block>) returns (out: seq<Block>, changed: bool)
    ensures out == Cleaned(blocks) && (changed <==> NeedsCleaning(blocks))
  {
    out, changed := [], false;
    assert blocks[..0] == [];
    for i := 0 to |blocks|
      invariant out == Images(blocks[..i]) && (changed <==> exists k :: 0 <= k < i && !Survives(blocks[k]))
    {
      assert blocks[..i + 1][..i] == blocks[..i];
      var b := blocks[i];
      if IsThought(b) {
        changed := true;
        if b.thinking != "" {
          out := out + [TextBlock(b.thinking)];
        }
      } else if IsDropped(b) {
        changed := true;
      } else {
        out := out + [b];
      }
    }
    assert blocks[..|blocks|] == blocks;
    if out == [] {
      out, changed := [REMOVED], true;
      if blocks != [] && !NeedsCleaning(blocks) {
        SurvivorsStay(blocks);
      }
    }
  }

  method CleanAll(contents: seq<Content>) returns (out: seq<Content>, changed: bool)
    ensures out == CleanContents(contents) && (changed <==> AnyNeedsCleaning(contents))
  {
    out, changed := [], false;
    for i := 0 to |contents|
      invariant |out| == i && forall k :: 0 <= k < i ==> out[k] == CleanContent(contents[k])
      invariant changed <==> exists k :: 0 <= k < i && contents[k].Blocks? && NeedsCleaning(contents[k].blocks)
    {
      var c := contents[i];
      if c.Blocks? {
        var blocks, more := CleanBlocks(c.blocks);
        out := out + [Blocks(blocks)];
        changed := changed || more;
      } else {
        out := out + [c];
      }
    }
  }

  method CleanEdits(m: Management) returns (out: Management, changed: bool)
    ensures out == CleanManagement(m) && (changed <==> SomeClear(m))
  {
    out, changed := m, false;
    if m.Managed? && m.edits.Edits? {
      var clears := m.edits.clears;
      var kept: seq<bool> := [];
      assert clears[..0] == [];
      for i := 0 to |clears|
        invariant kept == Kept(clears[..i]) && (changed <==> exists k :: 0 <= k < i && clears[k])
      {
        assert clears[..i + 1][..i] == clears[..i];
        if clears[i] {
          changed := true;
        } else {
          kept := kept + [false];
        }
      }
      assert clears[..|clears|] == clears;
      out := Managed(if kept == [] then NoEdits else Edits(kept));
    }
  }

  method Rectify(b: Body, settings: Settings, model: string, says: string -> bool) returns (out: Body, changed: bool)
    ensures (out, changed) == Rectified(b, Choose(settings, model, says))
  {
    out, changed := b, false;
    var repair := Choose(settings, model, says);
    if repair == DropThinking {
      if b.thinking != Absent {
        changed := true;
      }
      if !b.messages.List? {
        return b, false;
      }
      var contents, some := CleanAll(b.messages.contents);
      var management, cleared := CleanEdits(b.management);
      changed := changed || some || cleared;
      out := Body(Absent, List(contents), management, b.maxTokens);
    } else if repair == RaiseBudget {
      if b.thinking == NotThinking || (b.thinking.Options? && b.thinking.kind == "adaptive") {
        return b, false;
      }
      changed := !b.thinking.Options? || b.thinking.kind != "enabled" || b.thinking.budget != BUDGET
      || b.maxTokens < BUDGET + 1;
      out := b.(thinking := Options("enabled", BUDGET, if b.thinking.Options? then b.thinking.rest else 0));
      if b.maxTokens < BUDGET + 1 {
        out := out.(maxTokens := RAISED);
      }
    }
    if !changed {
      out := b;
    }
  }
}
