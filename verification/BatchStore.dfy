/** The batch tables as the source updates them: statement by statement inside a transaction, rolled back when a
    statement refuses. Each method is tied to the transaction function whose properties BatchLedger proves. */
module BatchStore {
  import opened Outcomes
  import opened Money
  import opened BatchPricing
  import opened BatchState

  predicate Lists(lines: seq<ResultLine>, id: string) {
    exists k :: 0 <= k < |lines| && lines[k].id == id
  }

  predicate CountsOf(lines: seq<ResultLine>, counts: ImageCounts) {
    && (forall k :: 0 <= k < |lines| ==> lines[k].id in counts && counts[lines[k].id] == lines[k].images)
    && (forall id :: id in counts ==> Lists(lines, id))
  }

  /** The visitor of `readBatchOutput`: collect the result lines, refusing unexpected and repeated items. */
  method CollectResults(items: seq<Item>, lines: seq<ResultLine>) returns (r: Result<ImageCounts, Refusal>)
    ensures r.Ok? <==> Readable(items, lines)
    ensures r.Ok? ==> r.value == CountsFrom(lines) && CountsOf(lines, r.value)
  {
    var expected := set i | 0 <= i < |items| :: items[i].id;
    var results: ImageCounts := map[];
    for k := 0 to |lines|
      invariant Readable(items, lines[..k]) && CountsOf(lines[..k], results) && results == CountsFrom(lines[..k])
    {
      var line := lines[k];
      if line.id !in expected {
        assert lines[k].id !in expected;
        return Err(UnexpectedItem);
      }
      if line.id in results {
        assert Lists(lines[..k], line.id);
        return Err(DuplicateItem);
      }
      CountsNext(items, lines, k, results);
      results := results[line.id := line.images];
    }
    assert lines[..|lines|] == lines;
    r := Ok(results);
  }

  lemma CountsNext(items: seq<Item>, lines: seq<ResultLine>, k: nat, results: ImageCounts)
    requires k < |lines| && Readable(items, lines[..k]) && CountsOf(lines[..k], results)
      && results == CountsFrom(lines[..k])
    requires lines[k].id !in results && exists i :: 0 <= i < |items| && items[i].id == lines[k].id
    ensures Readable(items, lines[..k + 1]) && results[lines[k].id := lines[k].images] == CountsFrom(lines[..k + 1])
    ensures CountsOf(lines[..k + 1], results[lines[k].id := lines[k].images])
  {
    assert lines[..k + 1] == lines[..k] + [lines[k]] && lines[..k + 1][..k] == lines[..k];
    ReadableMore(items, lines[..k], lines[k], results);
    CountsMore(lines[..k], lines[k], results);
  }

  lemma ReadableMore(items: seq<Item>, front: seq<ResultLine>, line: ResultLine, results: ImageCounts)
    requires Readable(items, front) && CountsOf(front, results) && line.id !in results
    requires exists i :: 0 <= i < |items| && items[i].id == line.id
    ensures Readable(items, front + [line])
  {
    forall k | 0 <= k < |front| ensures front[k].id != line.id {}
  }

  lemma CountsMore(front: seq<ResultLine>, line: ResultLine, results: ImageCounts)
    requires CountsOf(front, results) && line.id !in results
    ensures CountsOf(front + [line], results[line.id := line.images])
  {
    var all := front + [line];
    assert all[|front|] == line;
    forall id | id in results ensures Lists(all, id) {
      var k :| 0 <= k < |front| && front[k].id == id;
      assert all[k].id == id;
    }
    forall k | 0 <= k < |front| ensures front[k].id != line.id && all[k] == front[k] {}
  }

  class Store {
    var users: map<int, User>
    var claims: map<Claim, Fingerprint>
    var archive: map<Claim, Fingerprint>
    var jobs: seq<Job>

    ghost function View(): Db
      reads this
    {
      Db(users, claims, archive, jobs)
    }

    constructor (users: map<int, User>)
      ensures View() == Db(users, map[], map[], [])
    {
      this.users, claims, archive, jobs := users, map[], map[], [];
    }

    method BatchBalance(id: nat, operation: Operation, actual: int, payload: Payload) returns (err: Option<Refusal>)
      requires id < |jobs|
      modifies this`users, this`claims
      ensures match Balance(old(View()), id, operation, actual, payload)
        case Ok(db) => err == None && View() == db
        case Err(e) => err == Some(e) && View() == old(View())
    {
      var j := jobs[id];
      var request := Claim(operation, id, j.key);
      var fingerprint := Fingerprint(j.user, j.key, id, j.hold, actual, payload);
      if request in claims || request in archive {
        var existing := if request in claims then claims[request] else archive[request];
        return if existing != fingerprint then Some(FingerprintConflict) else None;
      }
      if operation != Hold {
        var hold, other := Claim(Hold, id, j.key), Claim(if operation == Capture then Release else Capture, id, j.key);
        var held := hold in claims || hold in archive;
        var finished := other in claims || other in archive;
        if !held || finished {
          return Some(NotHeldOrFinalized);
        }
      }
      if actual < 0 || actual > j.hold {
        return Some(ExceedsHold);
      }
      var held, cost := To8(j.hold), To8(actual);
      if operation == Hold {
        if j.user !in users || !users[j.user].active || users[j.user].balance < held {
          return Some(InsufficientBalance);
        }
        users := users[j.user := users[j.user].(balance := users[j.user].balance - held,
            frozen := users[j.user].frozen + held)];
      } else {
        if j.user !in users || users[j.user].frozen < held {
          return Some(FrozenInconsistent);
        }
        users := users[j.user := users[j.user].(balance := users[j.user].balance + held - cost,
            frozen := users[j.user].frozen - held)];
      }
      claims := claims[request := fingerprint];
      err := None;
    }

    method SubmitBatchImage(s: Submission) returns (err: Option<Refusal>)
      modifies this
      ensures match SubmitTx(old(View()), s)
        case Ok(db) => err == None && View() == db
        case Err(e) => err == Some(e) && View() == old(View())
    {
      if s.idem != "" {
        var i := 0;
        while i < |jobs|
          invariant 0 <= i <= |jobs| && View() == old(View())
          invariant forall k :: 0 <= k < i && SameRequestKey(jobs[k], s) ==> jobs[k].hash == s.hash
        {
          if SameRequestKey(jobs[i], s) && jobs[i].hash != s.hash {
            return Some(IdempotencyConflict);
          }
          i := i + 1;
        }
        if exists k | 0 <= k < |jobs| :: SameRequestKey(jobs[k], s) {
          return None;
        }
      }
      var id := |jobs|;
      var before := jobs;
      jobs := jobs + [NewJob(s)];
      err := BatchBalance(id, Hold, 0, Request(s.hash));
      if err.Some? {
        jobs := before;
        return;
      }
      assert NewItems(s.ids[..0]) == [];
      for n := 0 to |s.ids|
        invariant jobs == before + [NewJob(s).(items := NewItems(s.ids[..n]))]
        invariant users == Balance(old(View()).(jobs := before + [NewJob(s)]), id, Hold, 0, Request(s.hash)).value.users
        invariant claims ==
          Balance(old(View()).(jobs := before + [NewJob(s)]), id, Hold, 0, Request(s.hash)).value.claims
        invariant archive == old(archive)
      {
        assert NewItems(s.ids[..n + 1]) == NewItems(s.ids[..n]) + [Item(s.ids[n], Pending, 0)];
        jobs := jobs[id := jobs[id].(items := jobs[id].items + [Item(s.ids[n], Pending, 0)])];
      }
      assert s.ids[..|s.ids|] == s.ids;
    }

    method FailBatchImage(id: nat, status: Status) returns (err: Option<Refusal>)
      requires id < |jobs| && (status == Failed || status == Cancelled)
      modifies this
      ensures match FailTx(old(View()), id, status)
        case Ok(db) => err == None && View() == db
        case Err(e) => err == Some(e) && View() == old(View())
    {
      var j := jobs[id];
      if Terminal(j.status) {
        return None;
      }
      if j.status == Indexing || j.status == Settling {
        return Some(MustSettle);
      }
      err := BatchBalance(id, Release, 0, Request(j.hash));
      if err.Some? {
        return;
      }
      var items := j.items;
      for i := 0 to |items|
        invariant |items| == |j.items|
        invariant forall k :: 0 <= k < i ==>
          items[k] == Closed(j.items, if status == Failed then ItemFailed else ItemCancelled)[k]
        invariant forall k :: i <= k < |items| ==> items[k] == j.items[k]
      {
        if items[i].status == Pending {
          items := items[i := items[i].(status := if status == Failed then ItemFailed else ItemCancelled)];
        }
      }
      assert items == Closed(j.items, if status == Failed then ItemFailed else ItemCancelled);
      jobs := jobs[id := j.(status := status, actual := Some(0), failed := if status == Failed then j.count else 0,
          items := items)];
    }

    /** Indexing is all or nothing: an output that names an unknown item or repeats one changes no row. */
    method IndexBatchImage(id: nat, lines: seq<ResultLine>) returns (err: Option<Refusal>)
      requires id < |jobs|
      modifies this`jobs
      ensures err.None? <==> Readable(old(jobs[id].items), lines)
      ensures err.Some? ==> View() == old(View())
      ensures err.None? ==> CountsOf(lines, CountsFrom(lines)) && View() == IndexTx(old(View()), id, CountsFrom(lines))
    {
      var j := jobs[id];
      var results := CollectResults(j.items, lines);
      if results.Err? {
        return Some(results.error);
      }
      if j.status != Indexing {
        return None;
      }
      var counts := results.value;
      var items := j.items;
      var success, failed := 0, 0;
      for i := 0 to |items|
        invariant |items| == |j.items|
        invariant success == Successes(j.items[..i], counts) && failed == i - success
        invariant forall k :: 0 <= k < i ==> items[k] == Indexed(j.items, counts, j.unit)[k]
        invariant forall k :: i <= k < |items| ==> items[k] == j.items[k]
      {
        assert j.items[..i + 1][..i] == j.items[..i];
        if items[i].id in counts && counts[items[i].id] > 0 {
          items := items[i := Item(items[i].id, ItemSuccess, j.unit)];
          success := success + 1;
        } else {
          items := items[i := Item(items[i].id, ItemFailed, 0)];
          failed := failed + 1;
        }
      }
      assert j.items[..|j.items|] == j.items;
      assert items == Indexed(j.items, counts, j.unit);
      var manifest := Manifest(id, j.providerJob, j.output, success, failed, j.count);
      jobs := jobs[id := j.(status := Settling, success := success, failed := failed, items := items,
          manifest := Some(manifest))];
      err := None;
    }

    method SettleBatchImage(id: nat) returns (err: Option<Refusal>)
      requires id < |jobs|
      modifies this
      ensures match SettleTx(old(View()), id)
        case Ok(db) => err == None && View() == db
        case Err(e) => err == Some(e) && View() == old(View())
    {
      var j := jobs[id];
      if j.status == Completed {
        return None;
      }
      if j.status != Settling {
        return Some(NotReadyToSettle);
      }
      if j.success < 0 || j.failed < 0 || j.success + j.failed != j.count {
        return Some(InconsistentCounts);
      }
      if j.manifest.None? {
        return Some(MissingManifest);
      }
      var actual := Total(j.unit, j.success);
      err := BatchBalance(id, Capture, actual, Results(j.manifest.value));
      if err.Some? {
        return;
      }
      jobs := jobs[id := j.(status := Completed, actual := Some(actual))];
    }
  }
}
