/** Fallback pointers between groups: which edits are accepted, what they keep, and how a request follows them. */
module GroupFallback {
  import opened Outcomes
  import Runs

  const MAX_CHAIN := 32

  /** `supported`: a supported or composite platform; `plain`: a standard subscription that is not OAuth only. */
  datatype Group = Group(live: bool, active: bool, supported: bool, plain: bool, codeOnly: bool, fallback: Option<nat>)

  type Groups = map<nat, Group>

  datatype EditError = Missing | TargetIsCodeOnly | CycleOrLong | NoTarget | BadTarget

  datatype RouteError = ClientsOnly | BadChain | Unavailable | Unsupported

  predicate Live(g: Groups, id: nat) {
    id in g && g[id].live
  }

  predicate Eligible(x: Group) {
    x.supported && x.plain && !x.codeOnly
  }

  predicate Referenced(g: Groups, id: nat) {
    exists k :: k in g && g[k].live && g[k].fallback == Some(id)
  }

  /** The chain check: every target is new, live and eligible, and at most 32 follow. */
  function CheckChain(g: Groups, next: Option<nat>, seen: set<nat>): Option<EditError>
    decreases MAX_CHAIN + 1 - |seen|
  {
    if next.None? then None
    else if next.value in seen || |seen| > MAX_CHAIN then Some(CycleOrLong)
    else if !Live(g, next.value) then Some(NoTarget)
    else if !Eligible(g[next.value]) then Some(BadTarget)
    else CheckChain(g, g[next.value].fallback, seen + {next.value})
  }

  function Check(g: Groups, id: nat, checkTarget: bool): Option<EditError>
    requires id in g
  {
    if g[id].codeOnly && Referenced(g, id) then Some(TargetIsCodeOnly)
    else if !checkTarget then None
    else CheckChain(g, g[id].fallback, {id})
  }

  /** The fallback given on an update: nothing, cleared, or set. */
  datatype Given = Unchanged | Cleared | Set(target: nat)

  datatype Edit =
    | Create(id: nat, group: Group)
    | Update(id: nat, codeOnly: Option<bool>, active: Option<bool>, fallback: Given)
    | Delete(id: nat)

  function Patched(x: Group, codeOnly: Option<bool>, active: Option<bool>, fallback: Given): Group {
    x.(codeOnly := if codeOnly.Some? then codeOnly.value else x.codeOnly,
       active := if active.Some? then active.value else x.active,
       fallback := match fallback case Unchanged => x.fallback case Cleared => None case Set(target) => Some(target))
  }

  /** An edit commits or leaves the groups as they were; a new group takes an unused identity. */
  function AfterEdit(g: Groups, e: Edit): Groups {
    match e
    case Create(id, group) =>
      var h := g[id := group.(live := true)];
      if id in g || Check(h, id, true).Some? then g else h
    case Update(id, codeOnly, active, fallback) =>
      if !Live(g, id) then g
      else
        var h := g[id := Patched(g[id], codeOnly, active, fallback)];
        if Check(h, id, fallback.Set?).Some? then g else h
    case Delete(id) => if Live(g, id) then g[id := g[id].(live := false, active := false)] else g
  }

  // ---- Walks along live pointers --------------------------------------------------------------------------

  function Hop(g: Groups, x: Option<nat>): Option<nat> {
    if x.None? || !Live(g, x.value) || g[x.value].fallback.None? || !Live(g, g[x.value].fallback.value) then None
    else g[x.value].fallback
  }

  function Walk(g: Groups, x: Option<nat>, n: nat): Option<nat> {
    if n == 0 then x else Hop(g, Walk(g, x, n - 1))
  }

  lemma {:induction false} WalkSplit(g: Groups, x: Option<nat>, m: nat, n: nat)
    ensures Walk(g, x, m + n) == Walk(g, Walk(g, x, m), n)
  {
    if n > 0 {
      WalkSplit(g, x, m, n - 1);
      assert m + n - 1 == m + (n - 1);
    }
  }

  lemma {:induction false} WalkNone(g: Groups, n: nat)
    ensures Walk(g, None, n) == None
  {
    if n > 0 {
      WalkNone(g, n - 1);
    }
  }

  lemma WalkEnds(g: Groups, x: Option<nat>, m: nat, n: nat)
    requires m <= n && Walk(g, x, m) == None
    ensures Walk(g, x, n) == None
  {
    WalkSplit(g, x, m, n - m);
    WalkNone(g, n - m);
  }

  /** No walk comes back to where it started. */
  ghost predicate Acyclic(g: Groups) {
    forall x: nat, n: nat :: n > 0 && Live(g, x) ==> Walk(g, Some(x), n) != Some(x)
  }

  /** A live group points to no live group reserved for Claude Code clients. */
  ghost predicate OpenTargets(g: Groups) {
    forall x: nat :: Live(g, x) ==> OpenTarget(g, x)
  }

  predicate OpenTarget(g: Groups, x: nat)
    requires Live(g, x)
  {
    var t := g[x].fallback;
    t.Some? && Live(g, t.value) ==> !g[t.value].codeOnly
  }

  /** Pointers name groups that exist, deleted or not, so a new group is not yet a target. */
  predicate Known(g: Groups) {
    forall x :: x in g && g[x].live && g[x].fallback.Some? ==> g[x].fallback.value in g
  }

  ghost predicate Inv(g: Groups) {
    Acyclic(g) && OpenTargets(g) && Known(g)
  }

  /** An accepted chain ends within the limit. */
  lemma {:induction false} ChainEnds(g: Groups, x: nat, seen: set<nat>) returns (n: nat)
    requires Live(g, x) && CheckChain(g, g[x].fallback, seen).None?
    ensures n > 0 && Walk(g, Some(x), n) == None
    decreases MAX_CHAIN + 1 - |seen|
  {
    var next := g[x].fallback;
    if next.None? {
      n := 1;
      assert Walk(g, Some(x), 0) == Some(x);
    } else {
      var m := ChainEnds(g, next.value, seen + {next.value});
      n := m + 1;
      assert Walk(g, Some(x), 0) == Some(x) && Walk(g, Some(x), 1) == next;
      WalkSplit(g, Some(x), 1, m);
    }
  }

  lemma {:induction false} Returns(g: Groups, x: nat, n: nat, k: nat)
    requires n > 0 && Walk(g, Some(x), n) == Some(x)
    ensures Walk(g, Some(x), k) != None
    decreases k
  {
    if k < n {
      if Walk(g, Some(x), k) == None {
        WalkEnds(g, Some(x), k, n);
      }
    } else {
      WalkSplit(g, Some(x), n, k - n);
      Returns(g, x, n, k - n);
    }
  }

  /** The two graphs differ only at one group, so a walk that avoids it is the same in both. */
  lemma {:induction false} WalkSame(g: Groups, h: Groups, id: nat, x: Option<nat>, n: nat)
    requires forall y :: y != id ==> (Live(g, y) <==> Live(h, y)) && (Live(g, y) ==> g[y].fallback == h[y].fallback)
    requires Live(g, id) <==> Live(h, id)
    requires forall k: nat :: k < n ==> Walk(h, x, k) != Some(id)
    ensures Walk(g, x, n) == Walk(h, x, n)
  {
    if n > 0 {
      WalkSame(g, h, id, x, n - 1);
      assert Walk(h, x, n - 1) != Some(id);
    }
  }

  /** A cycle through a changed group would come back to it. */
  lemma {:induction false} CycleThrough(h: Groups, x: nat, id: nat, n: nat, j: nat)
    requires n > 0 && Walk(h, Some(x), n) == Some(x) && j < n && Walk(h, Some(x), j) == Some(id)
    ensures Walk(h, Some(id), n) == Some(id)
  {
    WalkSplit(h, Some(x), j, n - j);
    WalkSplit(h, Some(id), n - j, j);
  }

  /** Changing one group keeps the graph acyclic when the walk from that group ends. */
  lemma ChangeKeepsAcyclic(g: Groups, h: Groups, id: nat, stop: nat)
    requires Acyclic(g) && stop > 0 && Walk(h, Some(id), stop) == None
    requires forall y :: y != id ==> (Live(g, y) <==> Live(h, y)) && (Live(g, y) ==> g[y].fallback == h[y].fallback)
    requires Live(g, id) <==> Live(h, id)
    ensures Acyclic(h)
  {
    forall x: nat, n: nat | n > 0 && Live(h, x) ensures Walk(h, Some(x), n) != Some(x) {
      NoCycle(g, h, id, stop, x, n);
    }
  }

  lemma NoCycle(g: Groups, h: Groups, id: nat, stop: nat, x: nat, n: nat)
    requires Acyclic(g) && stop > 0 && Walk(h, Some(id), stop) == None && n > 0 && Live(h, x)
    requires forall y :: y != id ==> (Live(g, y) <==> Live(h, y)) && (Live(g, y) ==> g[y].fallback == h[y].fallback)
    requires Live(g, id) <==> Live(h, id)
    ensures Walk(h, Some(x), n) != Some(x)
  {
    assert Live(g, x);
    if Walk(h, Some(x), n) == Some(x) {
      if j: nat :| j < n && Walk(h, Some(x), j) == Some(id) {
        CycleThrough(h, x, id, n, j);
        Returns(h, id, n, stop);
      } else {
        WalkSame(g, h, id, Some(x), n);
      }
    }
  }

  // ---- Edits keep the invariant ---------------------------------------------------------------------------

  /** Deleting only removes hops. */
  lemma {:induction false} DeleteWalk(g: Groups, id: nat, x: Option<nat>, n: nat)
    requires Live(g, id)
    ensures var h := g[id := g[id].(live := false, active := false)]; Walk(h, x, n) == None || Walk(h, x, n) == Walk(g,
        x, n)
  {
    if n > 0 {
      DeleteWalk(g, id, x, n - 1);
    }
  }

  lemma DeleteKeeps(g: Groups, id: nat)
    requires Inv(g) && Live(g, id)
    ensures Inv(g[id := g[id].(live := false, active := false)])
  {
    var h := g[id := g[id].(live := false, active := false)];
    forall x: nat, n: nat | n > 0 && Live(h, x) ensures Walk(h, Some(x), n) != Some(x) {
      DeleteWalk(g, id, Some(x), n);
      assert Live(g, x);
    }
    forall x: nat | Live(h, x) ensures OpenTarget(h, x) {
      assert Live(g, x) && OpenTarget(g, x);
    }
  }

  /** An unchanged or cleared pointer adds no walk. */
  lemma {:induction false} FewerWalks(g: Groups, h: Groups, id: nat, x: Option<nat>, n: nat)
    requires Live(g, id) && h.Keys == g.Keys && (forall y :: y in g && y != id ==> h[y] == g[y])
    requires h[id].live && (h[id].fallback == g[id].fallback || h[id].fallback == None)
    ensures Walk(h, x, n) == None || Walk(h, x, n) == Walk(g, x, n)
  {
    if n > 0 {
      FewerWalks(g, h, id, x, n - 1);
    }
  }

  lemma PatchKeepsOpen(g: Groups, h: Groups, id: nat)
    requires OpenTargets(g) && Live(g, id) && h.Keys == g.Keys && (forall y :: y in g && y != id ==> h[y] == g[y])
      && h[id].live
    requires h[id].codeOnly ==> !Referenced(h, id)
    requires OpenTarget(h, id)
    ensures OpenTargets(h)
  {
    forall x: nat | Live(h, x) ensures OpenTarget(h, x) {
      if x != id {
        assert Live(g, x) && OpenTarget(g, x);
        assert h[x].fallback == Some(id) ==> Referenced(h, id);
      }
    }
  }

  lemma FewerKeepsAcyclic(g: Groups, h: Groups, id: nat)
    requires Acyclic(g) && Live(g, id) && h.Keys == g.Keys && (forall y :: y in g && y != id ==> h[y] == g[y])
    requires h[id].live && (h[id].fallback == g[id].fallback || h[id].fallback == None)
    ensures Acyclic(h)
  {
    forall x: nat, n: nat | n > 0 && Live(h, x) ensures Walk(h, Some(x), n) != Some(x) {
      FewerWalks(g, h, id, Some(x), n);
      assert Live(g, x);
    }
  }

  lemma SetTargetOpen(h: Groups, id: nat)
    requires Live(h, id) && CheckChain(h, h[id].fallback, {id}).None?
    ensures OpenTarget(h, id) && (h[id].fallback.Some? ==> h[id].fallback.value in h)
  {
  }

  lemma UpdateKeeps(g: Groups, id: nat, codeOnly: Option<bool>, active: Option<bool>, fallback: Given)
    requires Inv(g) && Live(g, id)
    ensures Inv(AfterEdit(g, Update(id, codeOnly, active, fallback)))
  {
    var h := g[id := Patched(g[id], codeOnly, active, fallback)];
    if Check(h, id, fallback.Set?).None? {
      if fallback.Set? {
        SetTargetOpen(h, id);
        var stop := ChainEnds(h, id, {id});
        ChangeKeepsAcyclic(g, h, id, stop);
      } else {
        FewerKeepsAcyclic(g, h, id);
        UnchangedTarget(g, h, id);
      }
      PatchKeepsOpen(g, h, id);
    }
  }

  /** A kept pointer still names an open target; a group that refers to itself is referenced. */
  lemma UnchangedTarget(g: Groups, h: Groups, id: nat)
    requires OpenTargets(g) && Live(g, id) && h.Keys == g.Keys && (forall y :: y in g && y != id ==> h[y] == g[y])
      && h[id].live
    requires h[id].fallback == g[id].fallback || h[id].fallback == None
    requires h[id].codeOnly ==> !Referenced(h, id)
    ensures OpenTarget(h, id)
  {
    assert OpenTarget(g, id);
    assert h[id].fallback == Some(id) ==> Referenced(h, id);
  }

  lemma CreateKeeps(g: Groups, id: nat, group: Group)
    requires Inv(g) && id !in g
    ensures Inv(AfterEdit(g, Create(id, group)))
  {
    var h := g[id := group.(live := true)];
    if Check(h, id, true).None? {
      SetTargetOpen(h, id);
      var stop := ChainEnds(h, id, {id});
      forall x: nat, n: nat | n > 0 && Live(h, x) ensures Walk(h, Some(x), n) != Some(x) {
        NewIsUnseen(g, h, id, stop, x, n);
      }
      forall x: nat | Live(h, x) ensures OpenTarget(h, x) {
        if x != id {
          assert Live(g, x) && OpenTarget(g, x);
        }
      }
    }
  }

  /** No old pointer names the new group, so old walks are unchanged. */
  lemma {:induction false} OldWalk(g: Groups, h: Groups, id: nat, x: nat, n: nat)
    requires Known(g) && id !in g && h.Keys == g.Keys + {id} && (forall y :: y in g ==> h[y] == g[y]) && x != id
    ensures Walk(h, Some(x), n) == Walk(g, Some(x), n) && Walk(h, Some(x), n) != Some(id)
  {
    if n > 0 {
      OldWalk(g, h, id, x, n - 1);
    }
  }

  lemma NewIsUnseen(g: Groups, h: Groups, id: nat, stop: nat, x: nat, n: nat)
    requires Inv(g) && id !in g && h.Keys == g.Keys + {id} && (forall y :: y in g ==> h[y] == g[y])
    requires stop > 0 && Walk(h, Some(id), stop) == None && n > 0 && Live(h, x)
    ensures Walk(h, Some(x), n) != Some(x)
  {
    if x == id {
      if Walk(h, Some(id), n) == Some(id) {
        Returns(h, id, n, stop);
      }
    } else {
      OldWalk(g, h, id, x, n);
      assert Live(g, x);
    }
  }

  /** Every edit keeps the pointers acyclic and every live target of a live group open to all clients. */
  lemma EditKeepsInv(g: Groups, e: Edit)
    requires Inv(g)
    ensures Inv(AfterEdit(g, e))
  {
    match e
    case Create(id, group) => if id !in g { CreateKeeps(g, id, group); }
    case Update(id, codeOnly, active, fallback) => if Live(g, id) { UpdateKeeps(g, id, codeOnly, active, fallback); }
    case Delete(id) => if Live(g, id) { DeleteKeeps(g, id); }
  }

  lemma EmptyInv()
    ensures Inv(map[])
  {
  }

  /** So does every sequence of edits from an empty installation. */
  lemma {:induction false} EditsKeepInv(edits: seq<Edit>)
    ensures Inv(Runs.Run(AfterEdit, map[], edits))
  {
    if edits == [] {
      EmptyInv();
    } else {
      EditsKeepInv(edits[..|edits| - 1]);
      EditKeepsInv(Runs.Run(AfterEdit, map[], edits[..|edits| - 1]), edits[|edits| - 1]);
    }
  }

  // ---- What an accepted chain means -----------------------------------------------------------------------

  /** The target a pointer names is there and may be used. */
  predicate Usable(g: Groups, x: Option<nat>) {
    x.Some? && Live(g, x.value) && g[x.value].fallback.Some? ==>
      Live(g, g[x.value].fallback.value) && Eligible(g[g[x.value].fallback.value])
  }

  /** The walk from the group ends within `limit` hops and uses only usable targets. */
  ghost predicate GoodWalk(g: Groups, x: nat, limit: nat) {
    Walk(g, Some(x), limit + 1) == None && forall k: nat :: Usable(g, Walk(g, Some(x), k))
  }

  lemma GoodWalkNext(g: Groups, x: nat, limit: nat)
    requires Live(g, x) && g[x].fallback.Some? && Live(g, g[x].fallback.value) && limit > 0
    ensures GoodWalk(g, x, limit) <==> Eligible(g[g[x].fallback.value]) && GoodWalk(g, g[x].fallback.value, limit - 1)
  {
    var t := g[x].fallback.value;
    assert Walk(g, Some(x), 0) == Some(x) && Walk(g, Some(x), 1) == Some(t);
    WalkSplit(g, Some(x), 1, limit);
    if GoodWalk(g, x, limit) {
      assert Usable(g, Walk(g, Some(x), 0));
      forall k: nat ensures Usable(g, Walk(g, Some(t), k)) {
        WalkSplit(g, Some(x), 1, k);
        assert Usable(g, Walk(g, Some(x), 1 + k));
      }
    }
    if Eligible(g[t]) && GoodWalk(g, t, limit - 1) {
      forall k: nat ensures Usable(g, Walk(g, Some(x), k)) {
        if k > 0 {
          WalkSplit(g, Some(x), 1, k - 1);
          assert Usable(g, Walk(g, Some(t), k - 1));
        }
      }
    }
  }

  /** Seen groups are those from which the walk reaches the current one. */
  ghost predicate Leads(g: Groups, seen: set<nat>, x: nat) {
    forall y :: y in seen ==> exists m: nat :: Walk(g, Some(y), m) == Some(x)
  }

  lemma LeadsOn(g: Groups, seen: set<nat>, x: nat, t: nat)
    requires Leads(g, seen, x) && Live(g, x) && g[x].fallback == Some(t) && Live(g, t)
    ensures Leads(g, seen + {t}, t)
  {
    forall y | y in seen + {t} ensures exists m: nat :: Walk(g, Some(y), m) == Some(t) {
      if y in seen {
        var m: nat :| Walk(g, Some(y), m) == Some(x);
        assert Walk(g, Some(y), m + 1) == Some(t);
      } else {
        assert Walk(g, Some(t), 0) == Some(t);
      }
    }
  }

  /** A walk that ends does not come back to a seen group. */
  lemma EndsMeansNew(g: Groups, seen: set<nat>, x: nat, t: nat, limit: nat)
    requires Leads(g, seen, x) && x in seen && Live(g, x) && g[x].fallback == Some(t) && Live(g, t)
      && GoodWalk(g, x, limit)
    ensures t !in seen
  {
    if t in seen {
      var m: nat :| Walk(g, Some(t), m) == Some(x);
      assert Walk(g, Some(t), m + 1) == Some(t);
      Returns(g, t, m + 1, limit);
      assert Walk(g, Some(x), 0) == Some(x) && Walk(g, Some(x), 1) == Some(t);
      WalkSplit(g, Some(x), 1, limit);
    }
  }

  /** The chain check accepts exactly the chains that end within the remaining hops and use only usable targets. */
  lemma {:induction false} ChainMeans(g: Groups, x: nat, seen: set<nat>)
    requires Live(g, x) && x in seen && Leads(g, seen, x) && |seen| <= MAX_CHAIN + 1
    ensures CheckChain(g, g[x].fallback, seen).None? <==> GoodWalk(g, x, MAX_CHAIN + 1 - |seen|)
    decreases MAX_CHAIN + 1 - |seen|
  {
    var next, limit := g[x].fallback, MAX_CHAIN + 1 - |seen|;
    assert Walk(g, Some(x), 0) == Some(x);
    if next.None? || !Live(g, next.value) {
      assert Walk(g, Some(x), 1) == None;
      EndsAtOnce(g, x, limit);
    } else {
      if limit == 0 {
        assert Walk(g, Some(x), 1) == next;
      } else {
        if GoodWalk(g, x, limit) {
          EndsMeansNew(g, seen, x, next.value, limit);
        }
        if next.value !in seen {
          LeadsOn(g, seen, x, next.value);
          GoodWalkNext(g, x, limit);
          if Eligible(g[next.value]) {
            ChainMeans(g, next.value, seen + {next.value});
          }
        }
      }
    }
  }

  lemma EndsAtOnce(g: Groups, x: nat, limit: nat)
    requires Live(g, x) && Walk(g, Some(x), 1) == None
    ensures GoodWalk(g, x, limit) <==> Usable(g, Some(x))
  {
    assert Walk(g, Some(x), 0) == Some(x);
    forall k: nat | k > 0 ensures Walk(g, Some(x), k) == None {
      WalkEnds(g, Some(x), 1, k);
    }
    if Usable(g, Some(x)) {
      forall k: nat ensures Usable(g, Walk(g, Some(x), k)) {
        if k > 0 { assert Walk(g, Some(x), k) == None; }
      }
    }
  }

  /** For a group being saved: its chain is accepted exactly when it ends within 32 hops over usable targets. */
  lemma SavedChainMeans(g: Groups, id: nat)
    requires Live(g, id)
    ensures CheckChain(g, g[id].fallback, {id}).None? <==> GoodWalk(g, id, MAX_CHAIN)
  {
    assert Walk(g, Some(id), 0) == Some(id);
    assert Leads(g, {id}, id);
    ChainMeans(g, id, {id});
  }

  // ---- Following the pointers at request time -------------------------------------------------------------

  predicate Reachable(g: Groups, id: nat) {
    id in g && g[id].live && g[id].active && g[id].plain
  }

  /** `resolveClientGroup` for a request that is not from Claude Code. */
  function Resolve(g: Groups, group: Group, seen: set<nat>): Result<Group, RouteError>
    decreases MAX_CHAIN + 1 - |seen|
  {
    if !group.codeOnly then Ok(group)
    else if group.fallback.None? then Err(ClientsOnly)
    else if group.fallback.value in seen || |seen| > MAX_CHAIN then Err(BadChain)
    else if !Reachable(g, group.fallback.value) then Err(Unavailable)
    else if !g[group.fallback.value].supported then Err(Unsupported)
    else Resolve(g, g[group.fallback.value], seen + {group.fallback.value})
  }

  /** In any state the edits reach, a request takes at most one hop, the chain branch is never taken, and the outcome
      depends only on the group and its target. */
  lemma OneHop(g: Groups, id: nat)
    requires Inv(g) && Live(g, id)
    ensures Resolve(g, g[id], {id}) ==
      if !g[id].codeOnly then Ok(g[id])
      else if g[id].fallback.None? then Err(ClientsOnly)
      else if !Reachable(g, g[id].fallback.value) then Err(Unavailable)
      else if !g[g[id].fallback.value].supported then Err(Unsupported)
      else Ok(g[g[id].fallback.value])
  {
    if g[id].codeOnly && g[id].fallback.Some? {
      var t := g[id].fallback.value;
      assert OpenTarget(g, id);
      assert Walk(g, Some(id), 0) == Some(id);
      assert Walk(g, Some(id), 1) == Hop(g, Some(id));
      assert t == id ==> Hop(g, Some(id)) == Some(id);
    }
  }

  /** The target of a hop, if the request may go there. */
  predicate Hops(g: Groups, target: Option<nat>) {
    target.Some? && Reachable(g, target.value) && g[target.value].supported
  }

  /** What a hop that fails, or needs no further one, gives. */
  function Landing(g: Groups, target: Option<nat>): Result<Group, RouteError> {
    if target.None? then Err(ClientsOnly)
    else if !Reachable(g, target.value) then Err(Unavailable)
    else if !g[target.value].supported then Err(Unsupported)
    else Ok(g[target.value])
  }

  lemma SecondHop(g: Groups, id: nat, t: nat)
    requires Live(g, t) && OpenTarget(g, t) && g[t].codeOnly && g[t].fallback != Some(t) && t != id
    ensures Resolve(g, g[t], {id, t}) == if g[t].fallback == Some(id) then Err(BadChain) else Landing(g, g[t].fallback)
  {
    assert |{id, t}| == 2;
  }

  /** A request carries a copy of its group, loaded before later edits. Whatever the copy, the walk takes at most two
      hops, the second only when the copy's target has become restricted since; and the chain branch is taken exactly
      when that target's own fallback is the request's group. */
  lemma CopyHops(g: Groups, id: nat, copy: Group)
    requires Inv(g) && copy.codeOnly && copy.fallback != Some(id)
    ensures var r := Resolve(g, copy, {id}); var restricted := Hops(g, copy.fallback)
      && g[copy.fallback.value].codeOnly;
      && (!restricted ==> r == Landing(g, copy.fallback))
      && (restricted && g[copy.fallback.value].fallback != Some(id) ==> r == Landing(g,
          g[copy.fallback.value].fallback))
      && (r == Err(BadChain) <==> restricted && g[copy.fallback.value].fallback == Some(id))
  {
    if Hops(g, copy.fallback) && g[copy.fallback.value].codeOnly {
      var t := copy.fallback.value;
      assert OpenTarget(g, t);
      assert Walk(g, Some(t), 0) == Some(t);
      assert Walk(g, Some(t), 1) == Hop(g, Some(t));
      assert g[t].fallback == Some(t) ==> Hop(g, Some(t)) == Some(t);
      SecondHop(g, id, t);
      assert {id} + {t} == {id, t};
    }
  }

  /** The graph as the source keeps and edits it. */
  class GroupStore {
    var groups: Groups

    constructor ()
      ensures groups == map[]
    {
      groups := map[];
    }

    /** `validateGroupFallback`. */
    method Validate(id: nat, checkTarget: bool) returns (err: Option<EditError>)
      requires id in groups
      ensures err == Check(groups, id, checkTarget)
    {
      if groups[id].codeOnly && exists k | k in groups :: groups[k].live && groups[k].fallback == Some(id) {
        return Some(TargetIsCodeOnly);
      }
      if !checkTarget {
        return None;
      }
      var next := groups[id].fallback;
      var seen := {id};
      while next.Some?
        invariant CheckChain(groups, groups[id].fallback, {id}) == CheckChain(groups, next, seen)
        decreases MAX_CHAIN + 1 - |seen|, next.Some?
      {
        var t := next.value;
        if t in seen || |seen| > MAX_CHAIN {
          return Some(CycleOrLong);
        }
        if t !in groups || !groups[t].live {
          return Some(NoTarget);
        }
        if !groups[t].supported || !groups[t].plain || groups[t].codeOnly {
          return Some(BadTarget);
        }
        seen, next := seen + {t}, groups[t].fallback;
      }
      err := None;
    }

    method CreateGroup(id: nat, group: Group) returns (err: Option<EditError>)
      requires id !in groups
      modifies this
      ensures groups == AfterEdit(old(groups), Create(id, group))
    {
      var before := groups;
      groups := groups[id := group.(live := true)];
      err := Validate(id, true);
      if err.Some? {
        groups := before;
      }
    }

    method UpdateGroup(id: nat, codeOnly: Option<bool>, active: Option<bool>,
        fallback: Given) returns (err: Option<EditError>)
      modifies this
      ensures groups == AfterEdit(old(groups), Update(id, codeOnly, active, fallback))
    {
      if id !in groups || !groups[id].live {
        return Some(Missing);
      }
      var before := groups;
      groups := groups[id := Patched(groups[id], codeOnly, active, fallback)];
      err := Validate(id, fallback.Set?);
      if err.Some? {
        groups := before;
      }
    }

    /** The walk of `resolveClientGroup`; it ends in any graph. */
    method ResolveGroup(id: nat, group: Group) returns (r: Result<Group, RouteError>)
      ensures r == Resolve(groups, group, {id})
    {
      var current := group;
      var seen := {id};
      while current.codeOnly
        invariant Resolve(groups, group, {id}) == Resolve(groups, current, seen)
        decreases MAX_CHAIN + 1 - |seen|
      {
        if current.fallback.None? {
          return Err(ClientsOnly);
        }
        var t := current.fallback.value;
        if t in seen || |seen| > MAX_CHAIN {
          return Err(BadChain);
        }
        seen := seen + {t};
        if t !in groups || !groups[t].live || !groups[t].active || !groups[t].plain {
          return Err(Unavailable);
        }
        current := groups[t];
        if !current.supported {
          return Err(Unsupported);
        }
      }
      r := Ok(current);
    }
  }
}
