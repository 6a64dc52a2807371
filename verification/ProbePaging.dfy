/** Choosing which billing probes to run: a paged scan that keeps only the 20 earliest due ones so far. */
module ProbePaging {

  const PAGE := 100
  const KEPT := 20

  /** An enabled account; `at` is the time its next probe is due, the smallest time when it has never run. */
  datatype Account = Account(id: int, at: int)

  predicate Earlier(a: Account, b: Account) {
    a.at < b.at || (a.at == b.at && a.id < b.id)
  }

  predicate Ordered(s: seq<Account>) {
    forall i, k :: 0 <= i < k < |s| ==> !Earlier(s[k], s[i])
  }

  /** Place an account before the first later one. */
  function Insert(s: seq<Account>, x: Account): seq<Account> {
    if s == [] then [x] else if Earlier(x, s[0]) then [x] + s else [s[0]] + Insert(s[1..], x)
  }

  /** The list sorted by time and identity. */
  function Sort(s: seq<Account>): seq<Account> {
    if s == [] then [] else Insert(Sort(s[..|s| - 1]), s[|s| - 1])
  }

  function Take(s: seq<Account>, n: nat): seq<Account> {
    if |s| <= n then s else s[..n]
  }

  lemma {:induction false} InsertFacts(s: seq<Account>, x: Account)
    requires Ordered(s)
    ensures Ordered(Insert(s, x)) && |Insert(s, x)| == |s| + 1 && multiset(Insert(s, x)) == multiset(s) + multiset{x}
    ensures forall y :: y in Insert(s, x) <==> y == x || y in s
  {
    if s != [] {
      assert s == [s[0]] + s[1..];
      if !Earlier(x, s[0]) {
        InsertFacts(s[1..], x);
        forall k | 0 <= k < |Insert(s[1..], x)| ensures !Earlier(Insert(s[1..], x)[k], s[0]) {
          assert Insert(s[1..], x)[k] in Insert(s[1..], x);
        }
      }
    }
  }

  lemma {:induction false} SortFacts(s: seq<Account>)
    ensures Ordered(Sort(s)) && |Sort(s)| == |s| && multiset(Sort(s)) == multiset(s)
  {
    if s != [] {
      SortFacts(s[..|s| - 1]);
      InsertFacts(Sort(s[..|s| - 1]), s[|s| - 1]);
      assert s == s[..|s| - 1] + [s[|s| - 1]];
    }
  }

  /** A later account goes to the end. */
  lemma {:induction false} InsertLast(s: seq<Account>, x: Account)
    requires forall k :: 0 <= k < |s| ==> !Earlier(x, s[k])
    ensures Insert(s, x) == s + [x]
  {
    if s != [] {
      InsertLast(s[1..], x);
      assert s == [s[0]] + s[1..];
    }
  }

  lemma {:induction false} SortedStays(s: seq<Account>)
    requires Ordered(s)
    ensures Sort(s) == s
  {
    if s != [] {
      var front, x := s[..|s| - 1], s[|s| - 1];
      SortedStays(front);
      InsertLast(front, x);
      assert s == front + [x];
    }
  }

  /** Truncation before an insertion does not change what is left after truncation. */
  lemma {:induction false} InsertTruncated(s: seq<Account>, x: Account, n: nat)
    ensures Take(Insert(Take(s, n), x), n) == Take(Insert(s, x), n)
  {
    if n == 0 {
    } else if s == [] || Earlier(x, s[0]) {
      if |s| > n {
        assert ([x] + s)[..n] == [x] + s[..n - 1];
        assert ([x] + s[..n])[..n] == [x] + s[..n - 1];
      }
    } else {
      InsertTruncated(s[1..], x, n - 1);
      TakeCons(s[0], s[1..], n);
      assert s == [s[0]] + s[1..];
      assert Take(s, n) == [s[0]] + Take(s[1..], n - 1);
      assert Take(s, n)[1..] == Take(s[1..], n - 1);
      TakeCons(s[0], Insert(s[1..], x), n);
      TakeCons(s[0], Insert(Take(s[1..], n - 1), x), n);
    }
  }

  lemma TakeCons(a: Account, s: seq<Account>, n: nat)
    requires n > 0
    ensures Take([a] + s, n) == [a] + Take(s, n - 1)
  {
  }

  lemma SortSnoc(s: seq<Account>, x: Account)
    ensures Sort(s + [x]) == Insert(Sort(s), x)
  {
    assert (s + [x])[..|s|] == s;
  }

  lemma TruncatedStep(s: seq<Account>, t: seq<Account>, x: Account, n: nat)
    requires Take(s, n) == Take(t, n)
    ensures Take(Insert(s, x), n) == Take(Insert(t, x), n)
  {
    InsertTruncated(s, x, n);
    InsertTruncated(t, x, n);
  }

  lemma KeptIsSorted(a: seq<Account>, n: nat)
    ensures Sort(Take(Sort(a), n)) == Take(Sort(a), n)
  {
    SortFacts(a);
    SortedStays(Take(Sort(a), n));
  }

  /** Sorting and truncating a truncated list with more accounts is sorting and truncating all of them. */
  lemma {:induction false} SortTruncated(a: seq<Account>, b: seq<Account>, n: nat, kept: seq<Account>)
    requires kept == Take(Sort(a), n)
    ensures Take(Sort(kept + b), n) == Take(Sort(a + b), n)
  {
    if b == [] {
      KeptIsSorted(a, n);
      assert kept + b == kept && a + b == a;
    } else {
      var front, x := b[..|b| - 1], b[|b| - 1];
      SortTruncated(a, front, n, kept);
      assert kept + b == (kept + front) + [x] && a + b == (a + front) + [x];
      SortSnoc(kept + front, x);
      SortSnoc(a + front, x);
      TruncatedStep(Sort(kept + front), Sort(a + front), x, n);
    }
  }

  // ---- The whole table ------------------------------------------------------------------------------------

  /** The rows of the table in the order of their identities, which are positive and distinct. */
  predicate Table(rows: seq<Account>) {
    && (forall i :: 0 <= i < |rows| ==> rows[i].id > 0)
    && (forall i, k :: 0 <= i < k < |rows| ==> rows[i].id < rows[k].id)
  }

  function Due(rows: seq<Account>, now: int): seq<Account> {
    if rows == [] then []
    else Due(rows[..|rows| - 1], now) + if rows[|rows| - 1].at <= now then [rows[|rows| - 1]] else []
  }

  lemma {:induction false} DueAppend(a: seq<Account>, b: seq<Account>, now: int)
    ensures Due(a + b, now) == Due(a, now) + Due(b, now)
  {
    if b == [] {
      assert a + b == a;
    } else {
      assert (a + b)[..|a + b| - 1] == a + b[..|b| - 1];
      DueAppend(a, b[..|b| - 1], now);
    }
  }

  /** The 20 earliest due accounts of the whole table. */
  function Earliest(rows: seq<Account>, now: int): seq<Account> {
    Take(Sort(Due(rows, now)), KEPT)
  }

  /** The rows a page query returns: those past `last`, at most a page of them. */
  function Page(rows: seq<Account>, last: int): seq<Account> {
    Take(Past(rows, last), PAGE)
  }

  function Past(rows: seq<Account>, last: int): seq<Account> {
    if rows == [] then []
    else Past(rows[..|rows| - 1], last) + if rows[|rows| - 1].id > last then [rows[|rows| - 1]] else []
  }

  lemma {:induction false} PastIsRest(rows: seq<Account>, last: int, k: nat)
    requires Table(rows) && k <= |rows| && (forall i :: 0 <= i < k ==> rows[i].id <= last)
    requires (forall i :: k <= i < |rows| ==> rows[i].id > last)
    ensures Past(rows, last) == rows[k..]
  {
    if |rows| > 0 {
      var front := rows[..|rows| - 1];
      if k <= |front| {
        PastIsRest(front, last, k);
        assert rows[k..] == front[k..] + [rows[|rows| - 1]];
      } else {
        PastIsRest(front, last, |front|);
      }
    }
  }

  /** What the kept list is: due, in order, as many as fit, and nothing due and left out comes before anything kept. */
  lemma EarliestMeans(rows: seq<Account>, now: int)
    ensures var kept := Earliest(rows, now); var due := Due(rows, now);
      && Ordered(kept) && |kept| == (if |due| < KEPT then |due| else KEPT) && multiset(kept) <= multiset(due)
      && forall x, y :: x in multiset(due) - multiset(kept) && y in kept ==> !Earlier(x, y)
  {
    var due := Due(rows, now);
    var all := Sort(due);
    SortFacts(due);
    var kept := Take(all, KEPT);
    var rest := all[|kept|..];
    assert all == kept + rest;
    LeftOut(kept, rest, multiset(due));
  }

  lemma LeftOut(kept: seq<Account>, rest: seq<Account>, due: multiset<Account>)
    requires Ordered(kept + rest) && multiset(kept + rest) == due
    ensures Ordered(kept) && multiset(kept) <= due
    ensures forall x, y :: x in due - multiset(kept) && y in kept ==> !Earlier(x, y)
  {
    assert multiset(kept + rest) == multiset(kept) + multiset(rest);
    assert due - multiset(kept) == multiset(rest);
    forall x, y | x in multiset(rest) && y in kept ensures !Earlier(x, y) {
      KeptBefore(kept, rest, x, y);
    }
    forall i, k | 0 <= i < k < |kept| ensures !Earlier(kept[k], kept[i]) {
      assert (kept + rest)[i] == kept[i] && (kept + rest)[k] == kept[k];
    }
  }

  lemma KeptBefore(kept: seq<Account>, rest: seq<Account>, x: Account, y: Account)
    requires Ordered(kept + rest) && x in rest && y in kept
    ensures !Earlier(x, y)
  {
    var i :| 0 <= i < |kept| && kept[i] == y;
    var k :| 0 <= k < |rest| && rest[k] == x;
    assert (kept + rest)[i] == y && (kept + rest)[|kept| + k] == x;
  }

  /** One page's due rows, appended to the kept list, sorted and truncated. */
  lemma PageStep(rows: seq<Account>, now: int, k: nat, m: nat, list: seq<Account>)
    requires k <= m <= |rows| && list == Earliest(rows[..k], now)
    ensures Take(Sort(list + Due(rows[k..m], now)), KEPT) == Earliest(rows[..m], now)
  {
    assert rows[..m] == rows[..k] + rows[k..m];
    DueAppend(rows[..k], rows[k..m], now);
    SortTruncated(Due(rows[..k], now), Due(rows[k..m], now), KEPT, list);
  }

  method AppendDue(list: seq<Account>, page: seq<Account>, now: int) returns (r: seq<Account>, last: int)
    requires page != []
    ensures r == list + Due(page, now) && last == page[|page| - 1].id
  {
    r, last := list, 0;
    assert page[..0] == [];
    for i := 0 to |page|
      invariant r == list + Due(page[..i], now) && (i > 0 ==> last == page[i - 1].id)
    {
      assert page[..i + 1][..i] == page[..i];
      last := page[i].id;
      if page[i].at <= now {
        r := r + [page[i]];
      }
    }
    assert page[..|page|] == page;
  }

  /** The scan after the first `k` rows. */
  ghost predicate Scanned(rows: seq<Account>, now: int, k: nat, last: int, list: seq<Account>) {
    && k <= |rows| && list == Earliest(rows[..k], now)
    && (forall i :: 0 <= i < k ==> rows[i].id <= last) && (forall i :: k <= i < |rows| ==> rows[i].id > last)
  }

  lemma ScannedPage(rows: seq<Account>, now: int, k: nat, last: int, list: seq<Account>)
    requires Table(rows) && Scanned(rows, now, k, last, list)
    ensures var page := Page(rows, last); var m := k + |page|;
      && m <= |rows| && page == rows[k..m] && (|page| < PAGE ==> m == |rows|)
      && Take(Sort(list + Due(page, now)), KEPT) == Earliest(rows[..m], now)
      && (page != [] ==> Scanned(rows, now, m, page[|page| - 1].id, Earliest(rows[..m], now)))
  {
    PastIsRest(rows, last, k);
    PageStep(rows, now, k, k + |Page(rows, last)|, list);
  }

  /** `runBillingProbes`' selection: page by page, it ends and keeps exactly the 20 earliest due accounts of the
      table. */
  method SelectProbes(rows: seq<Account>, now: int) returns (list: seq<Account>)
    requires Table(rows)
    ensures list == Earliest(rows, now)
  {
    list := [];
    var last := 0;
    ghost var k := 0;
    assert rows[..0] == [];
    while true
      invariant Scanned(rows, now, k, last, list)
      decreases |rows| - k
    {
      var page := Page(rows, last);
      ScannedPage(rows, now, k, last, list);
      if page == [] {
        assert list + [] == list;
        list := Take(Sort(list), KEPT);
        assert rows[..k] == rows;
        return;
      }
      list, last := AppendDue(list, page, now);
      list := Take(Sort(list), KEPT);
      k := k + |page|;
      if |page| < PAGE {
        assert rows[..k] == rows;
        return;
      }
    }
  }
}
