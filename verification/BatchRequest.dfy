/** Reading a batch request into items with distinct IDs, and finding a job again on the provider's side. */
module BatchRequest {
  import opened Outcomes
  import opened BatchPricing
  import opened BatchState
  import opened BatchLedger

  const MAX_ITEMS := 200

  /** One requested item after its ID and prompt were trimmed; `count` 0 means one. */
  datatype Input = Input(id: string, prompt: string, count: int)

  datatype RequestError = BadItemCount | BadIdOrPrompt | BadOutputCount | DuplicateId

  function Digit(n: nat): char
    requires n < 10
  {
    "0123456789"[n]
  }

  /** `n` in decimal with at least `width` digits, as `%0*d` prints it. */
  function Padded(n: nat, width: nat): string {
    if n < 10 && width <= 1 then [Digit(n)]
    else Padded(n / 10, if width == 0 then 0 else width - 1) + [Digit(n % 10)]
  }

  function ItemId(items: seq<Input>, i: nat): string
    requires i < |items|
  {
    if items[i].id == "" then "item_" + Padded(i + 1, 6) else items[i].id
  }

  function Copies(item: Input): int {
    if item.count == 0 then 1 else item.count
  }

  predicate PlainId(id: string) {
    |id| <= 250 && '\r' !in id && '\n' !in id && '\0' !in id
  }

  predicate ValidItem(items: seq<Input>, i: nat)
    requires i < |items|
  {
    PlainId(ItemId(items, i)) && 0 < |items[i].prompt| <= 8000 && 1 <= Copies(items[i]) <= 4
  }

  /** The IDs one item expands to: itself, or numbered copies. */
  function CopyIds(id: string, copies: nat, n: nat): seq<string>
    requires n <= copies
  {
    seq(n, k requires 0 <= k < n => if copies > 1 then id + "_" + Padded(k + 1, 2) else id)
  }

  /** The IDs of the first `n` items, in order. */
  function ExpandedIds(items: seq<Input>, n: nat): seq<string>
    requires n <= |items|
    requires forall i: nat :: i < n ==> ValidItem(items, i)
  {
    if n == 0 then []
    else
      assert ValidItem(items, n - 1);
      ExpandedIds(items, n - 1) + CopyIds(ItemId(items, n - 1), Copies(items[n - 1]), Copies(items[n - 1]))
  }

  predicate Distinct(ids: seq<string>) {
    forall i, k :: 0 <= i < k < |ids| ==> ids[i] != ids[k]
  }

  /** What the first `n` items must satisfy for the request to be read that far. */
  predicate ReadsTo(items: seq<Input>, n: nat)
    requires n <= |items|
  {
    && (forall i: nat :: i < n ==> ValidItem(items, i))
    && |ExpandedIds(items, n)| <= MAX_ITEMS
    && Distinct(ExpandedIds(items, n))
  }

  lemma {:induction false} ReadsToLess(items: seq<Input>, n: nat, m: nat)
    requires m <= n <= |items| && ReadsTo(items, n)
    ensures ReadsTo(items, m) && ExpandedIds(items, m) <= ExpandedIds(items, n)
  {
    if m < n {
      assert ExpandedIds(items, n - 1) <= ExpandedIds(items, n);
      assert forall k :: 0 <= k < |ExpandedIds(items, n - 1)| ==>
        ExpandedIds(items, n - 1)[k] == ExpandedIds(items, n)[k];
      ReadsToLess(items, n - 1, m);
    }
  }

  predicate Seen(ids: seq<string>, seen: set<string>) {
    (forall k :: 0 <= k < |ids| ==> ids[k] in seen) && forall id :: id in seen ==> id in ids
  }

  /** Append an item's copies, stopping at the first ID already taken. */
  method AddCopies(ids: seq<string>, seen: set<string>, id: string, copies: nat) returns (ok: bool,
      ids': seq<string>, seen': set<string>)
    requires Distinct(ids) && Seen(ids, seen)
    ensures ok <==> Distinct(ids + CopyIds(id, copies, copies))
    ensures ok ==> ids' == ids + CopyIds(id, copies, copies) && Seen(ids', seen')
  {
    ids', seen' := ids, seen;
    for repeat := 0 to copies
      invariant ids' == ids + CopyIds(id, copies, repeat) && Distinct(ids') && Seen(ids', seen')
    {
      var copy := if copies > 1 then id + "_" + Padded(repeat + 1, 2) else id;
      assert CopyIds(id, copies, repeat + 1) == CopyIds(id, copies, repeat) + [copy];
      if copy in seen' {
        RepeatedCopy(ids, id, copies, repeat, copy);
        return false, ids', seen';
      }
      seen' := seen' + {copy};
      ids' := ids' + [copy];
    }
    ok := true;
  }

  lemma RepeatedCopy(ids: seq<string>, id: string, copies: nat, repeat: nat, copy: string)
    requires repeat < copies && CopyIds(id, copies, repeat + 1) == CopyIds(id, copies, repeat) + [copy]
    requires copy in ids + CopyIds(id, copies, repeat)
    ensures !Distinct(ids + CopyIds(id, copies, copies))
  {
    var front, all := ids + CopyIds(id, copies, repeat), ids + CopyIds(id, copies, copies);
    assert front == all[..|front|];
    assert all[|front|] == CopyIds(id, copies, repeat + 1)[repeat] == copy;
    var i :| 0 <= i < |front| && front[i] == copy;
    assert all[i] == copy;
  }

  /** `normalize`'s item loop: the request is accepted exactly when every item is valid, the copies number at most
      two hundred and no two of their IDs coincide; the result lists the copies in order. */
  method Normalize(items: seq<Input>) returns (r: Result<seq<string>, RequestError>)
    ensures r.Ok? <==> 0 < |items| <= MAX_ITEMS && ReadsTo(items, |items|)
    ensures r.Ok? ==> r.value == ExpandedIds(items, |items|) && Distinct(r.value) && 0 < |r.value| <= MAX_ITEMS
  {
    if |items| == 0 || |items| > MAX_ITEMS {
      return Err(BadItemCount);
    }
    var ids: seq<string> := [];
    var seen: set<string> := {};
    for i := 0 to |items|
      invariant ReadsTo(items, i) && ids == ExpandedIds(items, i) && Seen(ids, seen)
      invariant i > 0 ==> ids != []
    {
      if ReadsTo(items, |items|) {
        ReadsToLess(items, |items|, i + 1);
      }
      var id := ItemId(items, i);
      if !PlainId(id) || items[i].prompt == "" || |items[i].prompt| > 8000 {
        assert !ValidItem(items, i);
        return Err(BadIdOrPrompt);
      }
      var copies := Copies(items[i]);
      if copies < 1 || copies > 4 {
        assert !ValidItem(items, i);
        return Err(BadOutputCount);
      }
      assert ValidItem(items, i);
      if |ids| + copies > MAX_ITEMS {
        return Err(BadOutputCount);
      }
      var ok;
      ok, ids, seen := AddCopies(ids, seen, id, copies);
      if !ok {
        return Err(DuplicateId);
      }
    }
    r := Ok(ids);
  }

  /** A normalized request with an accepted price snapshot meets everything the ledger asks of a submission. */
  lemma NormalizedIsWellPriced(items: seq<Input>, g: GroupPricing, catalogue: CataloguePrice, accountRate: real,
      s: Submission)
    requires |items| <= MAX_ITEMS && ReadsTo(items, |items|) && s.ids == ExpandedIds(items, |items|)
    requires BatchPrice(g, catalogue, accountRate, |s.ids|) == Ok(s.price)
    ensures WellPriced(s)
  {
    HoldCoversEveryOutcome(g, catalogue, accountRate, |s.ids|, |s.ids|);
  }

  // ---- Recovery by display name ---------------------------------------------------------------------------

  /** A provider job as listed; `safe` says its name is a plain batch resource name, hence not empty. */
  datatype ListedJob = ListedJob(name: string, display: string, safe: bool)

  /** The provider's answer to one page request. */
  datatype Page = Page(jobs: seq<ListedJob>, next: string)

  datatype FindError = Ambiguous | BadPagination | TooManyPages

  const MAX_PAGES := 100

  function Listing(pages: seq<Page>, n: nat): seq<ListedJob>
    requires n <= |pages|
  {
    if n == 0 then [] else Listing(pages, n - 1) + pages[n - 1].jobs
  }

  predicate Continues(pages: seq<Page>, i: nat)
    requires i < |pages|
  {
    pages[i].next != "" && (i > 0 ==> pages[i].next != pages[i - 1].next)
  }

  /** The listing is complete after page `n`. */
  predicate EndsAt(pages: seq<Page>, n: nat) {
    n < MAX_PAGES && n < |pages| && pages[n].next == "" && forall i: nat :: i < n ==> Continues(pages, i)
  }

  /** Everything listed under `id` has one safe name. */
  predicate OneJob(jobs: seq<ListedJob>, id: string) {
    && (forall i :: 0 <= i < |jobs| && jobs[i].display == id ==> jobs[i].safe)
    && (forall i, k :: 0 <= i < |jobs| && 0 <= k < |jobs| && jobs[i].display == id && jobs[k].display == id ==>
         jobs[i].name == jobs[k].name)
  }

  predicate FoundIn(jobs: seq<ListedJob>, id: string, found: Option<string>) {
    match found
    case None => forall i :: 0 <= i < |jobs| ==> jobs[i].display != id
    case Some(name) => exists i :: 0 <= i < |jobs| && jobs[i].display == id && jobs[i].name == name
  }

  lemma {:induction false} ListingPrefix(pages: seq<Page>, m: nat, n: nat)
    requires m <= n <= |pages|
    ensures Listing(pages, m) <= Listing(pages, n)
  {
    if m < n { ListingPrefix(pages, m, n - 1); }
  }

  lemma OneJobOfPrefix(jobs: seq<ListedJob>, more: seq<ListedJob>, id: string)
    requires jobs <= more && OneJob(more, id)
    ensures OneJob(jobs, id)
  {
    assert forall i :: 0 <= i < |jobs| ==> jobs[i] == more[i];
  }

  /** Look through one page, remembering the job found so far. */
  method ScanPage(id: string, ghost before: seq<ListedJob>, jobs: seq<ListedJob>,
      found: Option<string>) returns (ok: bool, found': Option<string>)
    requires OneJob(before, id) && FoundIn(before, id, found)
    ensures ok <==> OneJob(before + jobs, id)
    ensures ok ==> FoundIn(before + jobs, id, found')
  {
    found' := found;
    assert before + jobs[..0] == before;
    for k := 0 to |jobs|
      invariant OneJob(before + jobs[..k], id) && FoundIn(before + jobs[..k], id, found')
    {
      ghost var so := before + jobs[..k];
      assert before + jobs[..k + 1] == so + [jobs[k]];
      assert so + [jobs[k]] <= before + jobs;
      if jobs[k].display == id {
        assert (before + jobs)[|so|] == jobs[k];
        if !jobs[k].safe || (found'.Some? && found'.value != jobs[k].name) {
          if found'.Some? {
            ghost var i :| 0 <= i < |so| && so[i].display == id && so[i].name == found'.value;
            assert (before + jobs)[i] == so[i];
          }
          return false, found';
        }
        FoundMore(so, jobs[k], id, found');
        found' := Some(jobs[k].name);
        assert (so + [jobs[k]])[|so|] == jobs[k];
      } else {
        FoundElsewhere(so, jobs[k], id, found');
      }
    }
    assert jobs[..|jobs|] == jobs;
    ok := true;
  }

  lemma EndIsUnique(pages: seq<Page>, m: nat, n: nat)
    requires EndsAt(pages, m) && EndsAt(pages, n)
    ensures m == n
  {
    assert (m < n ==> Continues(pages, m)) && (n < m ==> Continues(pages, n));
  }

  /** `findProviderBatch`: an answer is given exactly when the listing ends within the page limit and names at most
      one job for `id`; it is that job, or none. */
  method FindProviderBatch(id: string, pages: seq<Page>) returns (r: Result<Option<string>, FindError>)
    requires |pages| >= MAX_PAGES
    ensures r.Ok? <==> exists n: nat :: EndsAt(pages, n) && OneJob(Listing(pages, n + 1), id)
    ensures forall n: nat :: r.Ok? && EndsAt(pages, n) ==> FoundIn(Listing(pages, n + 1), id, r.value)
  {
    var found: Option<string> := None;
    var next := "";
    for page := 0 to MAX_PAGES
      invariant forall i: nat :: i < page ==> Continues(pages, i)
      invariant next == if page == 0 then "" else pages[page - 1].next
      invariant OneJob(Listing(pages, page), id) && FoundIn(Listing(pages, page), id, found)
    {
      var ok;
      ok, found := ScanPage(id, Listing(pages, page), pages[page].jobs, found);
      forall n: nat | EndsAt(pages, n) ensures n >= page {
        assert n < page ==> Continues(pages, n);
      }
      if !ok {
        forall n: nat | EndsAt(pages, n) ensures !OneJob(Listing(pages, n + 1), id) {
          ListingPrefix(pages, page + 1, n + 1);
          if OneJob(Listing(pages, n + 1), id) { OneJobOfPrefix(Listing(pages, page + 1), Listing(pages, n + 1), id); }
        }
        return Err(Ambiguous);
      }
      if pages[page].next == "" {
        assert EndsAt(pages, page);
        forall n: nat | EndsAt(pages, n) ensures n == page {
          EndIsUnique(pages, page, n);
        }
        return Ok(found);
      }
      if pages[page].next == next {
        forall n: nat ensures !EndsAt(pages, n) {
          assert EndsAt(pages, n) && n > page ==> Continues(pages, page);
        }
        return Err(BadPagination);
      }
      next := pages[page].next;
      assert Continues(pages, page);
    }
    forall n: nat ensures !EndsAt(pages, n) {
      assert n < MAX_PAGES ==> Continues(pages, n);
    }
    r := Err(TooManyPages);
  }

  lemma FoundMore(jobs: seq<ListedJob>, job: ListedJob, id: string, found: Option<string>)
    requires OneJob(jobs, id) && FoundIn(jobs, id, found) && job.display == id && job.safe
      && (found.Some? ==> found.value == job.name)
    ensures OneJob(jobs + [job], id)
  {
    forall i | 0 <= i < |jobs| && jobs[i].display == id ensures jobs[i].name == job.name {}
  }

  lemma FoundElsewhere(jobs: seq<ListedJob>, job: ListedJob, id: string, found: Option<string>)
    requires OneJob(jobs, id) && FoundIn(jobs, id, found) && job.display != id
    ensures OneJob(jobs + [job], id) && FoundIn(jobs + [job], id, found)
  {
    if found.Some? {
      var i :| 0 <= i < |jobs| && jobs[i].display == id && jobs[i].name == found.value;
      assert (jobs + [job])[i] == jobs[i];
    }
  }
}
