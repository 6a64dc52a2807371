/** What every committed state of the batch tables keeps: each user's frozen balance is exactly the holds still
    outstanding, and each job's claims agree with its status. */
module BatchLedger {
  import opened Outcomes
  import opened Money
  import opened BatchPricing
  import opened BatchState
  import opened Sums

  predicate Outstanding(db: Db, id: nat)
    requires id < |db.jobs|
  {
    Has(db, Hold, id) && !Has(db, Capture, id) && !Has(db, Release, id)
  }

  /** What job `id` contributes to the frozen balance of `user`. */
  function HeldOf(db: Db, user: int, id: nat): int
    requires id < |db.jobs|
  {
    if db.jobs[id].user == user && Outstanding(db, id) then To8(db.jobs[id].hold) else 0
  }

  /** What job `id` has finally cost `user`. */
  function CapturedOf(db: Db, user: int, id: nat): int
    requires id < |db.jobs|
  {
    if db.jobs[id].user == user && Has(db, Capture, id) && db.jobs[id].actual.Some? then To8(db.jobs[id].actual.value)
    else 0
  }

  function Helds(db: Db, user: int): seq<int> {
    seq(|db.jobs|, i requires 0 <= i < |db.jobs| => HeldOf(db, user, i))
  }

  function Captureds(db: Db, user: int): seq<int> {
    seq(|db.jobs|, i requires 0 <= i < |db.jobs| => CapturedOf(db, user, i))
  }

  function FrozenDue(db: Db, user: int): int {
    Sum(Helds(db, user))
  }

  function CapturedTotal(db: Db, user: int): int {
    Sum(Captureds(db, user))
  }

  /** Everything the batch ledger accounts for on behalf of one user. */
  function Worth(db: Db, user: int): int
    requires user in db.users
  {
    db.users[user].balance + db.users[user].frozen + CapturedTotal(db, user)
  }

  predicate DistinctIds(items: seq<Item>) {
    forall i, k :: 0 <= i < k < |items| ==> items[i].id != items[k].id
  }

  function Bills(items: seq<Item>): seq<int> {
    seq(|items|, i requires 0 <= i < |items| => items[i].billed)
  }

  predicate Priced(j: Job) {
    0 <= j.unit && Total(j.unit, j.count) <= j.hold && |j.items| == j.count && DistinctIds(j.items)
  }

  predicate Counted(j: Job) {
    0 <= j.success && 0 <= j.failed && j.success + j.failed == j.count
    && Sum(Bills(j.items)) == Total(j.unit, j.success)
  }

  /** A job's finalization claims are exactly what its status says. */
  predicate Finalized(db: Db, id: nat)
    requires id < |db.jobs|
  {
    var captured, released := Has(db, Capture, id), Has(db, Release, id);
    match db.jobs[id].status
    case Completed => captured && !released
    case Failed => released && !captured
    case Cancelled => released && !captured
    case OutputDeleted => captured != released
    case _ => !captured && !released
  }

  predicate JobOk(db: Db, id: nat)
    requires id < |db.jobs|
  {
    var j := db.jobs[id];
    && j.user in db.users
    && Priced(j)
    && Has(db, Hold, id)
    && Finalized(db, id)
    && (j.status == Settling ==> Counted(j) && j.manifest.Some?)
    && (Has(db, Capture, id) ==> Counted(j) && j.actual == Some(Total(j.unit, j.success)))
    && (Has(db, Release, id) ==> j.actual == Some(0))
  }

  ghost predicate ClaimsBelongToJobs(db: Db) {
    forall c: Claim :: Known(db, c) ==> c.job < |db.jobs|
  }

  /** An idempotency key stands for one job of its client key. */
  predicate UniqueRequestKeys(db: Db) {
    forall i, k :: 0 <= i < k < |db.jobs| ==>
      db.jobs[i].idem == "" || db.jobs[i].user != db.jobs[k].user || db.jobs[i].key != db.jobs[k].key
      || db.jobs[i].idem != db.jobs[k].idem
  }

  ghost predicate Ledger(db: Db) {
    && UniqueRequestKeys(db)
    && ClaimsBelongToJobs(db)
    && (forall id: nat :: id < |db.jobs| ==> JobOk(db, id))
    && (forall user :: user in db.users ==> db.users[user].frozen == FrozenDue(db, user))
  }

  /** The columns no transaction rewrites. */
  predicate SameIdentity(j: Job, k: Job) {
    && k.user == j.user && k.key == j.key && k.idem == j.idem && k.hash == j.hash
    && k.count == j.count && k.unit == j.unit && k.hold == j.hold
  }

  /** The change keeps every row but `id` and leaves their claims alone. */
  ghost predicate OnlyJob(db: Db, after: Db, id: nat) {
    && id < |db.jobs| == |after.jobs|
    && db.users.Keys == after.users.Keys
    && (forall i: nat :: i < |db.jobs| && i != id ==> after.jobs[i] == db.jobs[i])
    && (forall c: Claim :: c.job != id ==> (Known(after, c) <==> Known(db, c)))
    && SameIdentity(db.jobs[id], after.jobs[id])
  }

  lemma OtherJobsUnchanged(db: Db, after: Db, id: nat, other: nat)
    requires OnlyJob(db, after, id) && other < |db.jobs| && other != id
    ensures forall op :: Has(after, op, other) == Has(db, op, other)
    ensures JobOk(db, other) ==> JobOk(after, other)
    ensures forall user ::
      && HeldOf(after, user, other) == HeldOf(db, user, other)
      && CapturedOf(after, user, other) == CapturedOf(db, user, other)
  {
    forall op ensures Has(after, op, other) == Has(db, op, other) {
      assert Known(after, Claim(op, other, db.jobs[other].key)) == Known(db, Claim(op, other, db.jobs[other].key));
    }
  }

  /** Only the changed job's contribution moves the two totals of a user. */
  lemma TotalsMoveByOneJob(db: Db, after: Db, id: nat, user: int)
    requires OnlyJob(db, after, id)
    ensures FrozenDue(after, user) == FrozenDue(db, user) - HeldOf(db, user, id) + HeldOf(after, user, id)
    ensures CapturedTotal(after, user) ==
      CapturedTotal(db, user) - CapturedOf(db, user, id) + CapturedOf(after, user, id)
  {
    forall i: nat | i < |db.jobs| && i != id {
      OtherJobsUnchanged(db, after, id, i);
    }
    assert Helds(after, user) == Helds(db, user)[id := HeldOf(after, user, id)];
    SumUpdate(Helds(db, user), id, HeldOf(after, user, id));
    assert Captureds(after, user) == Captureds(db, user)[id := CapturedOf(after, user, id)];
    SumUpdate(Captureds(db, user), id, CapturedOf(after, user, id));
  }

  /** A change confined to one job keeps the ledger when that job stays well formed and its user's frozen balance
      follows the job's contribution. */
  lemma LedgerFollows(db: Db, after: Db, id: nat)
    requires Ledger(db) && OnlyJob(db, after, id) && JobOk(after, id)
    requires forall user :: user in db.users ==>
      after.users[user].frozen - db.users[user].frozen == HeldOf(after, user, id) - HeldOf(db, user, id)
    ensures Ledger(after)
  {
    forall c | Known(after, c) ensures c.job < |after.jobs| {
      if c.job != id { assert Known(db, c); }
    }
    forall i: nat | i < |after.jobs| ensures JobOk(after, i) {
      if i != id { OtherJobsUnchanged(db, after, id, i); }
    }
    forall user | user in after.users ensures after.users[user].frozen == FrozenDue(after, user) {
      TotalsMoveByOneJob(db, after, id, user);
    }
  }

  /** An outstanding hold is always covered by its user's frozen balance. */
  lemma FrozenCoversHold(db: Db, id: nat)
    requires Ledger(db) && id < |db.jobs| && Outstanding(db, id)
    ensures db.jobs[id].user in db.users && To8(db.jobs[id].hold) <= db.users[db.jobs[id].user].frozen
  {
    var user := db.jobs[id].user;
    assert JobOk(db, id);
    forall k: nat | k < |db.jobs| ensures HeldOf(db, user, k) >= 0 {
      assert JobOk(db, k);
      HoldNonnegative(db.jobs[k]);
    }
    SumBoundsElement(Helds(db, user), id);
  }

  lemma HoldNonnegative(j: Job)
    requires Priced(j)
    ensures 0 <= j.hold
  {
  }

  /** Success counts are within the item count, so the cost of a counted job is covered by its hold. */
  lemma CostWithinHold(j: Job)
    requires Priced(j) && Counted(j)
    ensures 0 <= Total(j.unit, j.success) <= j.hold
  {
    CountsOrdered(j.unit, j.unit, j.success, j.count);
  }

  /** The step keeps the ledger and creates or destroys no money. */
  ghost predicate KeepsLedger(db: Db, after: Db) {
    && Ledger(after)
    && after.users.Keys == db.users.Keys
    && forall user :: user in db.users ==> Worth(after, user) == Worth(db, user)
  }

  predicate Charged(j: Job, amount: int) {
    j.status == Completed && j.actual == Some(amount)
  }

  // ---- Single transactions --------------------------------------------------------------------------------

  /** Finalizing an outstanding hold is never refused, whatever happened before: neither the claim checks nor the
      amount check nor the frozen-balance guard can fail. */
  lemma FinalizeAccepted(db: Db, id: nat, op: Operation, actual: int, payload: Payload)
    requires Ledger(db) && id < |db.jobs| && Outstanding(db, id) && op != Hold && 0 <= actual <= db.jobs[id].hold
    ensures var j := db.jobs[id];
      && j.user in db.users
      && Balance(db, id, op, actual, payload) == Ok(Moved(db, j.user, To8(j.hold) - To8(actual), -To8(j.hold),
           Claim(op, id, j.key), Fingerprint(j.user, j.key, id, j.hold, actual, payload)))
  {
    FrozenCoversHold(db, id);
  }

  /** Releasing keeps the ledger and moves the user's worth by nothing. */
  lemma FailKeepsLedger(db: Db, id: nat, status: Status)
    requires Ledger(db) && id < |db.jobs| && (status == Failed || status == Cancelled)
    ensures var r := FailTx(db, id, status); var before := db.jobs[id].status;
      && (r.Err? <==> before == Indexing || before == Settling)
      && (r.Ok? ==> KeepsLedger(db, r.value))
      && (r.Ok? && !Terminal(before) ==> OnlyJob(db, r.value, id) && r.value.jobs[id].status == status)
  {
    var j := db.jobs[id];
    assert JobOk(db, id);
    if !Terminal(j.status) && j.status != Indexing && j.status != Settling {
      HoldNonnegative(j);
      FinalizeAccepted(db, id, Release, 0, Request(j.hash));
      var after := FailTx(db, id, status).value;
      assert OnlyJob(db, after, id);
      assert Has(after, Release, id) && !Has(after, Capture, id) && Has(after, Hold, id);
      assert DistinctIds(after.jobs[id].items);
      LedgerFollows(db, after, id);
      forall user | user in db.users ensures Worth(after, user) == Worth(db, user) {
        TotalsMoveByOneJob(db, after, id, user);
      }
    }
  }

  /** Settlement is never refused once results are indexed, and it charges exactly the sum of the items' bills. */
  lemma SettleKeepsLedger(db: Db, id: nat)
    requires Ledger(db) && id < |db.jobs|
    ensures var r := SettleTx(db, id); var j := db.jobs[id];
      && (r.Ok? <==> j.status == Settling || j.status == Completed)
      && (r.Ok? ==> KeepsLedger(db, r.value))
      && (j.status == Settling ==> OnlyJob(db, r.value, id) && Charged(r.value.jobs[id], Sum(Bills(j.items))))
  {
    var j := db.jobs[id];
    assert JobOk(db, id);
    if j.status == Settling {
      CostWithinHold(j);
      var actual := Total(j.unit, j.success);
      FinalizeAccepted(db, id, Capture, actual, Results(j.manifest.value));
      var after := SettleTx(db, id).value;
      assert OnlyJob(db, after, id);
      assert Has(after, Capture, id) && !Has(after, Release, id) && Has(after, Hold, id);
      LedgerFollows(db, after, id);
      forall user | user in db.users ensures Worth(after, user) == Worth(db, user) {
        TotalsMoveByOneJob(db, after, id, user);
      }
    }
  }

  lemma {:induction false} IndexedSums(items: seq<Item>, counts: ImageCounts, unit: int)
    ensures Successes(items, counts) <= |items|
    ensures Sum(Bills(Indexed(items, counts, unit))) == Total(unit, Successes(items, counts))
  {
    var bills := Bills(Indexed(items, counts, unit));
    if items != [] {
      var front := items[..|items| - 1];
      IndexedSums(front, counts, unit);
      assert bills == Bills(Indexed(front, counts, unit)) + [bills[|items| - 1]];
      SumAppend(Bills(Indexed(front, counts, unit)), bills[|items| - 1]);
    }
  }

  /** Indexing counts every item exactly once and bills exactly the successful ones. */
  lemma IndexKeepsLedger(db: Db, id: nat, counts: ImageCounts)
    requires Ledger(db) && id < |db.jobs|
    ensures var after := IndexTx(db, id, counts);
      && KeepsLedger(db, after)
      && (db.jobs[id].status == Indexing ==>
           OnlyJob(db, after, id) && after.jobs[id].status == Settling && Counted(after.jobs[id]))
  {
    var j := db.jobs[id];
    assert JobOk(db, id);
    if j.status == Indexing {
      var after := IndexTx(db, id, counts);
      IndexedSums(j.items, counts, j.unit);
      StatusOnly(db, after, id);
    }
  }

  /** A change of one job row that leaves claims, amounts and users alone keeps the ledger, provided the new status
      calls for the same claims. */
  lemma StatusOnly(db: Db, after: Db, id: nat)
    requires Ledger(db) && id < |db.jobs|
    requires |after.jobs| == |db.jobs| && after == db.(jobs := db.jobs[id := after.jobs[id]])
    requires var j, k := db.jobs[id], after.jobs[id];
      && SameIdentity(j, k) && k.actual == j.actual
    requires JobOk(after, id)
    ensures OnlyJob(db, after, id) && Ledger(after)
    ensures forall user :: user in db.users ==> Worth(after, user) == Worth(db, user)
  {
    forall op ensures Has(after, op, id) == Has(db, op, id) {}
    LedgerFollows(db, after, id);
    forall user | user in db.users ensures Worth(after, user) == Worth(db, user) {
      TotalsMoveByOneJob(db, after, id, user);
    }
  }

  predicate AtProvider(s: Status) {
    s == Submitted || s == Running
  }

  /** The unguarded row updates keep the ledger exactly when the row is still open; writing "running" or "indexing"
      over a finished row would detach its claims from its status. */
  lemma UnguardedUpdates(db: Db, id: nat, output: string)
    requires Ledger(db) && id < |db.jobs|
    ensures Ledger(RunningTx(db, id)) <==> !Terminal(db.jobs[id].status)
    ensures Ledger(OutputReadyTx(db, id, output)) <==> !Terminal(db.jobs[id].status)
    ensures !Terminal(db.jobs[id].status) ==>
      KeepsLedger(db, RunningTx(db, id)) && KeepsLedger(db, OutputReadyTx(db, id, output))
  {
    assert JobOk(db, id);
    var running, ready := RunningTx(db, id), OutputReadyTx(db, id, output);
    assert forall op :: Has(running, op, id) == Has(db, op, id) && Has(ready, op, id) == Has(db, op, id);
    if Terminal(db.jobs[id].status) {
      assert !JobOk(running, id) && !JobOk(ready, id);
    } else {
      StatusOnly(db, running, id);
      StatusOnly(db, ready, id);
    }
  }

  /** Updates of the job row's status and references keep the ledger, and deleting output is refused exactly on open
      jobs. */
  lemma RowUpdate(db: Db, id: nat, after: Db)
    requires Ledger(db) && id < |db.jobs|
    requires |after.jobs| == |db.jobs| && after == db.(jobs := db.jobs[id := after.jobs[id]])
    requires var j, k := db.jobs[id], after.jobs[id];
      && k == j.(status := k.status, providerJob := k.providerJob, output := k.output,
          cancelRequested := k.cancelRequested)
      && (k.status == j.status || (Terminal(j.status) && k.status == OutputDeleted)
        || (!Terminal(j.status) && !Terminal(k.status) && k.status != Settling))
    ensures KeepsLedger(db, after)
  {
    assert JobOk(db, id);
    assert forall op :: Has(after, op, id) == Has(db, op, id);
    StatusOnly(db, after, id);
  }

  // ---- Submission and the outside world -------------------------------------------------------------------

  predicate WellPriced(s: Submission) {
    && 0 <= s.price.unit && Total(s.price.unit, |s.ids|) <= s.price.held
    && forall i, k :: 0 <= i < k < |s.ids| ==> s.ids[i] != s.ids[k]
  }

  ghost predicate Replayed(db: Db, s: Submission) {
    exists i :: 0 <= i < |db.jobs| && SameRequestKey(db.jobs[i], s)
  }

  /** A submission is one of three things: a replay, which changes nothing and exists at most once; a refusal, which
      changes nothing; or a new job whose whole hold moved from the spendable to the frozen balance. */
  lemma SubmitKeepsLedger(db: Db, s: Submission)
    requires Ledger(db) && WellPriced(s)
    ensures var r := SubmitTx(db, s);
      && (Replayed(db, s) ==> r == Ok(db) || r == Err(IdempotencyConflict))
      && (!Replayed(db, s) ==>
            (r.Ok? <==> s.user in db.users && db.users[s.user].active && To8(s.price.held) <= db.users[s.user].balance))
      && (r.Ok? ==> KeepsLedger(db, r.value))
      && (r.Ok? && !Replayed(db, s) ==> IsAppended(db, r.value, s))
  {
    var r := SubmitTx(db, s);
    if !Replayed(db, s) {
      var id := |db.jobs|;
      var inserted := db.(jobs := db.jobs + [NewJob(s)]);
      assert forall op :: !Known(db, Claim(op, id, s.key));
      assert forall op :: !Has(inserted, op, id);
      if r.Ok? {
        AppendKeepsLedger(db, r.value, s);
      }
    }
  }

  ghost predicate IsAppended(db: Db, after: Db, s: Submission) {
    && s.user in db.users
    && |after.jobs| == |db.jobs| + 1
    && after.jobs[..|db.jobs|] == db.jobs
    && after.jobs[|db.jobs|] == NewJob(s).(items := NewItems(s.ids))
    && after.users == db.users[s.user := db.users[s.user].(
         balance := db.users[s.user].balance - To8(s.price.held), frozen := db.users[s.user].frozen +
           To8(s.price.held))]
    && after.archive == db.archive
    && (forall c: Claim :: Known(after, c) <==> (Known(db, c) || c == Claim(Hold, |db.jobs|, s.key)))
  }

  lemma AppendKeepsRow(db: Db, after: Db, s: Submission, i: nat)
    requires Ledger(db) && IsAppended(db, after, s) && i < |db.jobs|
    ensures after.jobs[i] == db.jobs[i] && JobOk(after, i)
    ensures forall user ::
      HeldOf(after, user, i) == HeldOf(db, user, i) && CapturedOf(after, user, i) == CapturedOf(db, user, i)
  {
    assert after.jobs[i] == after.jobs[..|db.jobs|][i];
    assert JobOk(db, i);
    assert forall op :: Has(after, op, i) == Has(db, op, i);
  }

  lemma AppendedRow(db: Db, after: Db, s: Submission)
    requires Ledger(db) && WellPriced(s) && IsAppended(db, after, s)
    ensures var id := |db.jobs|; Outstanding(after, id) && JobOk(after, id)
  {
    var id := |db.jobs|;
    assert forall op :: !Known(db, Claim(op, id, s.key));
    assert Has(after, Hold, id) && !Has(after, Capture, id) && !Has(after, Release, id);
  }

  /** The new row holds its amount and has captured nothing. */
  lemma AppendedAmounts(db: Db, after: Db, s: Submission, user: int)
    requires Ledger(db) && WellPriced(s) && IsAppended(db, after, s)
    ensures HeldOf(after, user, |db.jobs|) == (if user == s.user then To8(s.price.held) else 0)
      && CapturedOf(after, user, |db.jobs|) == 0
  {
    AppendedRow(db, after, s);
  }

  lemma AppendedTotals(db: Db, after: Db, s: Submission, user: int)
    requires Ledger(db) && WellPriced(s) && IsAppended(db, after, s)
    ensures Helds(after, user) == Helds(db, user) + [HeldOf(after, user, |db.jobs|)]
    ensures Captureds(after, user) == Captureds(db, user) + [CapturedOf(after, user, |db.jobs|)]
  {
    forall i: nat | i < |db.jobs|
      ensures Helds(after, user)[i] == Helds(db, user)[i] && Captureds(after, user)[i] == Captureds(db, user)[i]
    {
      AppendKeepsRow(db, after, s, i);
    }
  }

  lemma AppendMovesHold(db: Db, after: Db, s: Submission, user: int)
    requires Ledger(db) && WellPriced(s) && IsAppended(db, after, s) && user in db.users
    ensures after.users[user].frozen == FrozenDue(after, user) && Worth(after, user) == Worth(db, user)
  {
    var held, captured := HeldOf(after, user, |db.jobs|), CapturedOf(after, user, |db.jobs|);
    AppendedAmounts(db, after, s, user);
    AppendedTotals(db, after, s, user);
    SumAppend(Helds(db, user), held);
    SumAppend(Captureds(db, user), captured);
  }

  lemma AppendKeepsLedger(db: Db, after: Db, s: Submission)
    requires Ledger(db) && WellPriced(s) && !Replayed(db, s) && IsAppended(db, after, s)
    ensures KeepsLedger(db, after)
  {
    forall i: nat | i < |after.jobs| ensures JobOk(after, i) {
      if i < |db.jobs| { AppendKeepsRow(db, after, s, i); } else { AppendedRow(db, after, s); }
    }
    forall user | user in db.users {
      AppendMovesHold(db, after, s, user);
    }
    AppendKeepsKeys(db, after, s);
  }

  lemma AppendKeepsKeys(db: Db, after: Db, s: Submission)
    requires UniqueRequestKeys(db) && !Replayed(db, s) && IsAppended(db, after, s)
    ensures UniqueRequestKeys(after)
  {
    forall i: nat | i < |db.jobs| ensures after.jobs[i] == db.jobs[i] && !SameRequestKey(db.jobs[i], s) {
      assert after.jobs[i] == after.jobs[..|db.jobs|][i];
    }
  }

  lemma ActivateKeepsLedger(db: Db, user: int, active: bool)
    requires Ledger(db)
    ensures KeepsLedger(db, ActivateTx(db, user, active))
  {
    SameClaims(db, ActivateTx(db, user, active));
  }

  lemma ArchiveKeepsLedger(db: Db, c: Claim)
    requires Ledger(db)
    ensures KeepsLedger(db, ArchiveTx(db, c))
  {
    SameClaims(db, ArchiveTx(db, c));
  }

  lemma AdjustKeepsLedger(db: Db, user: int, delta: int)
    requires Ledger(db)
    ensures Ledger(AdjustTx(db, user, delta)) && AdjustTx(db, user, delta).users.Keys == db.users.Keys
    ensures forall u :: u in db.users ==>
      Worth(AdjustTx(db, user, delta), u) == Worth(db, u) + if u == user then delta else 0
  {
    SameClaims(db, AdjustTx(db, user, delta));
  }

  /** Top-ups, other charges, suspensions and archiving never touch frozen money; only an adjustment moves worth. */
  lemma OutsideKeepsLedger(db: Db, user: int, delta: int, active: bool, c: Claim)
    requires Ledger(db)
    ensures KeepsLedger(db, ActivateTx(db, user, active)) && KeepsLedger(db, ArchiveTx(db, c))
    ensures Ledger(AdjustTx(db, user, delta)) && AdjustTx(db, user, delta).users.Keys == db.users.Keys
    ensures forall u :: u in db.users ==>
      Worth(AdjustTx(db, user, delta), u) == Worth(db, u) + if u == user then delta else 0
  {
    ActivateKeepsLedger(db, user, active);
    ArchiveKeepsLedger(db, c);
    AdjustKeepsLedger(db, user, delta);
  }

  lemma SameClaims(db: Db, after: Db)
    requires Ledger(db) && after.jobs == db.jobs && after.users.Keys == db.users.Keys
    requires forall k :: Known(after, k) <==> Known(db, k)
    requires forall u :: u in db.users ==> after.users[u].frozen == db.users[u].frozen
    ensures Ledger(after)
    ensures forall u :: u in db.users ==> CapturedTotal(after, u) == CapturedTotal(db, u)
  {
    forall u: int ensures FrozenDue(after, u) == FrozenDue(db, u) && CapturedTotal(after, u) == CapturedTotal(db, u) {
      SameContributions(db, after, u);
    }
    forall id: nat | id < |after.jobs| ensures JobOk(after, id) {
      assert JobOk(db, id);
    }
  }

  lemma SameContributions(db: Db, after: Db, u: int)
    requires after.jobs == db.jobs && forall k :: Known(after, k) <==> Known(db, k)
    ensures FrozenDue(after, u) == FrozenDue(db, u) && CapturedTotal(after, u) == CapturedTotal(db, u)
  {
    forall id: nat | id < |db.jobs|
      ensures HeldOf(after, u, id) == HeldOf(db, u, id) && CapturedOf(after, u, id) == CapturedOf(db, u, id)
    {
      assert forall op :: Has(after, op, id) == Has(db, op, id);
    }
    assert Helds(after, u) == Helds(db, u) && Captureds(after, u) == Captureds(db, u);
  }
}
