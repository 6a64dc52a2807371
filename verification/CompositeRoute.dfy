/** Which route, owner or account list a model resolves to, whatever order rows and map entries come in. */
module CompositeRoute {
  import opened Outcomes

  datatype MatchType = Exact | Prefix | OtherMatch

  datatype Route = Route(id: int, enabled: bool, endpoint: string, kind: MatchType, model: string, priority: int,
      target: string, upstream: string)

  // ---- The best route -------------------------------------------------------------------------------------

  predicate Candidate(r: Route, model: string, endpoint: string) {
    && r.enabled && (r.endpoint == "any" || r.endpoint == endpoint)
    && ((r.kind == Exact && r.model == model) || (r.kind == Prefix && r.model <= model))
  }

  /** `betterCompositeRoute`. */
  predicate Better(a: Route, b: Route, endpoint: string) {
    if a.kind != b.kind then a.kind == Exact
    else if (a.endpoint == endpoint) != (b.endpoint == endpoint) then a.endpoint == endpoint
    else if |a.model| != |b.model| then |a.model| > |b.model|
    else if a.priority != b.priority then a.priority < b.priority
    else a.id < b.id
  }

  lemma BetterIsStrict(a: Route, b: Route, endpoint: string)
    requires a.kind != OtherMatch && b.kind != OtherMatch
    ensures !Better(a, a, endpoint) && !(Better(a, b, endpoint) && Better(b, a, endpoint))
    ensures a.id != b.id ==> Better(a, b, endpoint) || Better(b, a, endpoint)
  {
  }

  lemma BetterIsTransitive(a: Route, b: Route, c: Route, endpoint: string)
    requires a.kind != OtherMatch && b.kind != OtherMatch && c.kind != OtherMatch
    requires Better(a, b, endpoint) && Better(b, c, endpoint)
    ensures Better(a, c, endpoint)
  {
  }

  predicate DistinctIds(routes: seq<Route>) {
    forall i, k :: 0 <= i < k < |routes| ==> routes[i].id != routes[k].id
  }

  /** The fold of `resolve`. */
  function Best(routes: seq<Route>, model: string, endpoint: string): Option<Route> {
    if routes == [] then None
    else
      var best, r := Best(routes[..|routes| - 1], model, endpoint), routes[|routes| - 1];
      if Candidate(r, model, endpoint) && (best.None? || Better(r, best.value, endpoint)) then Some(r) else best
  }

  /** The route is a candidate and beats every other candidate. */
  predicate Wins(routes: seq<Route>, model: string, endpoint: string, r: Route) {
    && r in routes && Candidate(r, model, endpoint)
    && forall k :: 0 <= k < |routes| && Candidate(routes[k], model, endpoint) && routes[k] != r ==>
         Better(r, routes[k], endpoint)
  }

  lemma {:induction false} BestWins(routes: seq<Route>, model: string, endpoint: string)
    requires DistinctIds(routes)
    ensures match Best(routes, model, endpoint)
      case None => forall k :: 0 <= k < |routes| ==> !Candidate(routes[k], model, endpoint)
      case Some(r) => Wins(routes, model, endpoint, r)
  {
    if routes != [] {
      var front, r := routes[..|routes| - 1], routes[|routes| - 1];
      forall k | 0 <= k < |front| ensures routes[k] == front[k] {}
      BestWins(front, model, endpoint);
      var best := Best(front, model, endpoint);
      if best.Some? && Candidate(r, model, endpoint) {
        BetterIsStrict(r, best.value, endpoint);
        assert r.id != best.value.id;
        forall k | 0 <= k < |front| && Candidate(front[k], model, endpoint) && front[k] != best.value
        && Better(r, best.value, endpoint)
          ensures Better(r, front[k], endpoint)
        {
          BetterIsTransitive(r, best.value, front[k], endpoint);
        }
      }
    }
  }

  lemma OneWinner(routes: seq<Route>, model: string, endpoint: string, a: Route, b: Route)
    requires Wins(routes, model, endpoint, a) && Wins(routes, model, endpoint, b)
    ensures a == b
  {
    if a != b {
      BetterIsStrict(a, b, endpoint);
    }
  }

  /** Main result: the fold finds the one candidate that beats all others, so the order of the routes does not
      matter. */
  lemma BestIsTheWinner(routes: seq<Route>, model: string, endpoint: string, r: Route)
    requires DistinctIds(routes)
    ensures Best(routes, model, endpoint) == Some(r) <==> Wins(routes, model, endpoint, r)
  {
    BestWins(routes, model, endpoint);
    if Wins(routes, model, endpoint, r) {
      OneWinner(routes, model, endpoint, r, Best(routes, model, endpoint).value);
    }
  }

  lemma OrderDoesNotMatter(a: seq<Route>, b: seq<Route>, model: string, endpoint: string)
    requires DistinctIds(a) && DistinctIds(b) && (forall r :: r in a <==> r in b)
    ensures Best(a, model, endpoint) == Best(b, model, endpoint)
  {
    BestWins(a, model, endpoint);
    BestWins(b, model, endpoint);
    match Best(a, model, endpoint)
    case None =>
    case Some(r) =>
      forall k | 0 <= k < |b| && Candidate(b[k], model, endpoint) && b[k] != r ensures Better(r, b[k], endpoint) {
        assert b[k] in a;
      }
      BestIsTheWinner(b, model, endpoint, r);
  }

  // ---- Account owners -------------------------------------------------------------------------------------

  /** A platform whose account offers a model. Platforms are never empty. */
  datatype Claim = Claim(model: string, platform: string)

  /** The fold of `loadComposite`: an empty owner marks a model offered by several platforms. */
  function Owners(claims: seq<Claim>): map<string, string> {
    if claims == [] then map[]
    else
      var owners, c := Owners(claims[..|claims| - 1]), claims[|claims| - 1];
      owners[c.model := if c.model in owners && owners[c.model] != c.platform then "" else c.platform]
  }

  function Platforms(claims: seq<Claim>, model: string): set<string> {
    set k | 0 <= k < |claims| && claims[k].model == model :: claims[k].platform
  }

  lemma PlatformsSnoc(claims: seq<Claim>, c: Claim, model: string)
    ensures Platforms(claims + [c], model) ==
      if c.model == model then Platforms(claims, model) + {c.platform} else Platforms(claims, model)
  {
    var all := claims + [c];
    forall p | p in Platforms(claims, model) ensures p in Platforms(all, model) {
      var k :| 0 <= k < |claims| && claims[k].model == model && claims[k].platform == p;
      assert all[k] == claims[k];
    }
    if c.model == model {
      assert all[|claims|] == c;
    }
  }

  /** Main result: no owner when no platform offers the model, that platform when exactly one does, and the empty mark
      exactly when two or more do. */
  lemma {:induction false} OwnersMean(claims: seq<Claim>, model: string)
    requires forall k :: 0 <= k < |claims| ==> claims[k].platform != ""
    ensures model !in Owners(claims) <==> Platforms(claims, model) == {}
    ensures forall p :: p != "" ==>
      (model in Owners(claims) && Owners(claims)[model] == p <==> Platforms(claims, model) == {p})
    ensures model in Owners(claims) && Owners(claims)[model] == "" <==> |Platforms(claims, model)| >= 2
  {
    if claims != [] {
      var front, c := claims[..|claims| - 1], claims[|claims| - 1];
      assert claims == front + [c];
      OwnersMean(front, model);
      PlatformsSnoc(front, c, model);
      if c.model == model {
        OwnerStep(Platforms(front, model), c.platform);
      }
    }
  }

  lemma OwnerStep(before: set<string>, p: string)
    ensures before == {} ==> before + {p} == {p}
    ensures forall q :: before == {q} && q != p ==> |before + {p}| == 2
    ensures |before| >= 2 ==> |before + {p}| >= 2
    ensures before == {p} ==> before + {p} == {p}
    ensures forall q :: before + {p} == {q} ==> |before + {p}| == 1 && q == p
    ensures |before| == 1 ==> exists q :: before == {q}
  {
    if |before| >= 2 {
      assert before + {p} == before || |before + {p}| == |before| + 1;
    }
    if |before| == 1 {
      var q :| q in before;
      assert |before - {q}| == 0;
      assert before == {q};
    }
    forall q | before + {p} == {q} ensures |before + {p}| == 1 && q == p {
      assert p in before + {p};
    }
    forall q | before == {q} && q != p ensures |before + {p}| == 2 {
      assert before + {p} == {q, p};
    }
  }

  // ---- The decision ---------------------------------------------------------------------------------------

  datatype Decision = ToRoute(route: Route, upstream: string) | BadTarget | ToAccount(platform: string) | Several
    | Detected(platform: string) | NoMatch

  /** `supported` stands for the table of platforms, which the model leaves open; what the other table guesses from a
      model's name is the parameter `detected`. */
  datatype Composite = Composite(routes: seq<Route>, owners: map<string, string>, supported: set<string>)

  function Decide(c: Composite, model: string, endpoint: string, detected: string): Decision {
    match Best(c.routes, model, endpoint)
    case Some(r) =>
      if r.target !in c.supported then BadTarget else ToRoute(r, if r.upstream == "" then model else r.upstream)
    case None =>
      if model in c.owners then if c.owners[model] == "" then Several else ToAccount(c.owners[model])
      else if detected != "" then Detected(detected)
      else NoMatch
  }

  method Resolve(c: Composite, model: string, endpoint: string, detected: string) returns (d: Decision)
    ensures d == Decide(c, model, endpoint, detected)
  {
    var best: Option<Route> := None;
    assert c.routes[..0] == [];
    for i := 0 to |c.routes|
      invariant best == Best(c.routes[..i], model, endpoint)
    {
      assert c.routes[..i + 1][..i] == c.routes[..i];
      var r := c.routes[i];
      if r.enabled && (r.endpoint == "any" || r.endpoint == endpoint) {
        if (r.kind == Exact && r.model == model) || (r.kind == Prefix && r.model <= model) {
          if best.None? || Better(r, best.value, endpoint) {
            best := Some(r);
          }
        }
      }
    }
    assert c.routes[..|c.routes|] == c.routes;
    if best.Some? {
      if best.value.target !in c.supported {
        return BadTarget;
      }
      return ToRoute(best.value, if best.value.upstream == "" then model else best.value.upstream);
    }
    if model in c.owners {
      if c.owners[model] == "" {
        return Several;
      }
      return ToAccount(c.owners[model]);
    }
    if detected != "" {
      return Detected(detected);
    }
    d := NoMatch;
  }

  method FoldOwners(claims: seq<Claim>) returns (owners: map<string, string>)
    ensures owners == Owners(claims)
  {
    owners := map[];
    assert claims[..0] == [];
    for i := 0 to |claims|
      invariant owners == Owners(claims[..i])
    {
      assert claims[..i + 1][..i] == claims[..i];
      var c := claims[i];
      if c.model in owners && owners[c.model] != c.platform {
        owners := owners[c.model := ""];
      } else {
        owners := owners[c.model := c.platform];
      }
    }
    assert claims[..|claims|] == claims;
  }

  // ---- Preferred accounts ---------------------------------------------------------------------------------

  type Routing = map<string, seq<int>>

  function Accounts(routing: Routing, pattern: string): seq<int> {
    if pattern in routing then routing[pattern] else []
  }

  /** A prefix rule with accounts that covers the model. */
  predicate Covers(routing: Routing, model: string, pattern: string) {
    pattern in routing && |routing[pattern]| > 0 && |pattern| > 0 && pattern[|pattern| - 1] == '*'
    && pattern[..|pattern| - 1] <= model
  }

  predicate Longest(routing: Routing, model: string, best: string) {
    if best == "" then forall p :: p in routing ==> !Covers(routing, model, p)
    else Covers(routing, model, best) && forall p :: p in routing && Covers(routing, model, p) ==> |p| <= |best|
  }

  /** The longest covering rule among those visited. */
  predicate LongestSoFar(routing: Routing, model: string, rest: set<string>, best: string) {
    && (best == "" || (best !in rest && Covers(routing, model, best)))
    && forall p :: p in routing && p !in rest && Covers(routing, model, p) ==> |p| <= |best|
  }

  lemma VisitOne(routing: Routing, model: string, rest: set<string>, best: string, p: string)
    requires rest <= routing.Keys && LongestSoFar(routing, model, rest, best) && p in rest
    ensures LongestSoFar(routing, model, rest - {p}, if Covers(routing, model, p) && |p| > |best| then p else best)
  {
  }

  lemma VisitedAll(routing: Routing, model: string, best: string)
    requires LongestSoFar(routing, model, {}, best)
    ensures Longest(routing, model, best)
  {
  }

  /** Rules of one length covering the same model are the same rule, so the longest is unique. */
  lemma LongestIsUnique(routing: Routing, model: string, a: string, b: string)
    requires Longest(routing, model, a) && Longest(routing, model, b)
    ensures a == b
  {
    if a != "" && b != "" {
      assert a == model[..|a| - 1] + ['*'];
      assert b == model[..|b| - 1] + ['*'];
    }
  }

  /** `routingAccounts`, visiting the rules in any order: the exact rule with accounts, else the longest covering
      prefix. */
  method RoutingAccounts(routing: Routing, enabled: bool, platform: string, model: string) returns (ids: seq<int>,
      ghost best: string)
    ensures !enabled || (platform != "openai" && platform != "anthropic") ==> ids == []
    ensures enabled && (platform == "openai" || platform == "anthropic") && Accounts(routing, model) != [] ==>
      ids == routing[model]
    ensures enabled && (platform == "openai" || platform == "anthropic") && Accounts(routing, model) == [] ==>
      Longest(routing, model, best) && ids == Accounts(routing, best)
  {
    best := "";
    if !enabled || (platform != "openai" && platform != "anthropic") {
      return [], "";
    }
    if model in routing && |routing[model]| > 0 {
      return routing[model], "";
    }
    var longest := "";
    var rest := routing.Keys;
    while rest != {}
      invariant rest <= routing.Keys && LongestSoFar(routing, model, rest, longest)
      decreases |rest|
    {
      var p :| p in rest;
      VisitOne(routing, model, rest, longest, p);
      if |routing[p]| > 0 && |p| > 0 && p[|p| - 1] == '*' && p[..|p| - 1] <= model && |p| > |longest| {
        longest := p;
      }
      rest := rest - {p};
    }
    VisitedAll(routing, model, longest);
    ids := if longest in routing then routing[longest] else [];
    best := longest;
  }
}
