/** The rows a batch image job lives in, and what each of its transactions commits.

    A job's batch ID is its row index: the source draws a fresh random ID, so distinct rows have distinct IDs.
    Balances count 1e-8 units, prices and costs 1e-10 units. */
module BatchState {
  import opened Outcomes
  import opened Money
  import opened BatchPricing

  datatype User = User(balance: int, frozen: int, active: bool)

  datatype Status = Created | Uploading | Submitted | Running | Indexing | Settling
                  | Completed | Failed | Cancelled | OutputDeleted

  datatype ItemStatus = Pending | ItemSuccess | ItemFailed | ItemCancelled

  datatype Item = Item(id: string, status: ItemStatus, billed: int)

  /** The manifest digest: an injective function of everything it is computed from. */
  datatype Manifest = Manifest(job: nat, providerJob: Option<string>, output: Option<string>, success: int,
      failed: int, count: nat)

  datatype Job = Job(
    user: int, key: int, idem: string, hash: string, count: nat, unit: int, hold: int,
    status: Status, success: int, failed: int, actual: Option<int>, manifest: Option<Manifest>,
    providerJob: Option<string>, output: Option<string>, items: seq<Item>, cancelRequested: bool)

  datatype Operation = Hold | Capture | Release

  /** A row of the dedup table: operation and job make the request ID. */
  datatype Claim = Claim(op: Operation, job: nat, key: int)

  datatype Payload = Request(hash: string) | Results(manifest: Manifest)

  datatype Fingerprint = Fingerprint(user: int, key: int, job: nat, hold: int, actual: int, payload: Payload)

  datatype Db = Db(
    users: map<int, User>, claims: map<Claim, Fingerprint>, archive: map<Claim, Fingerprint>, jobs: seq<Job>)

  datatype Refusal = FingerprintConflict | NotHeldOrFinalized | ExceedsHold | InsufficientBalance | FrozenInconsistent
                   | MustSettle | NotReadyToSettle | InconsistentCounts | MissingManifest | IdempotencyConflict
                   | UnexpectedItem | DuplicateItem | OutputNotReady

  predicate Terminal(s: Status) {
    s == Completed || s == Failed || s == Cancelled || s == OutputDeleted
  }

  predicate Known(db: Db, c: Claim) {
    c in db.claims || c in db.archive
  }

  function Recorded(db: Db, c: Claim): Fingerprint
    requires Known(db, c)
  {
    if c in db.claims then db.claims[c] else db.archive[c]
  }

  predicate Has(db: Db, op: Operation, id: nat)
    requires id < |db.jobs|
  {
    Known(db, Claim(op, id, db.jobs[id].key))
  }

  function Opposite(op: Operation): Operation {
    match op case Hold => Hold case Capture => Release case Release => Capture
  }

  /** `batchBalance`: move a job's hold between the spendable and the frozen balance, once per operation. */
  function Balance(db: Db, id: nat, op: Operation, actual: int, payload: Payload): Result<Db, Refusal>
    requires id < |db.jobs|
  {
    var j := db.jobs[id];
    var c := Claim(op, id, j.key);
    var fingerprint := Fingerprint(j.user, j.key, id, j.hold, actual, payload);
    if Known(db, c) then
      if Recorded(db, c) == fingerprint then Ok(db) else Err(FingerprintConflict)
    else if op != Hold && (!Has(db, Hold, id) || Has(db, Opposite(op), id)) then Err(NotHeldOrFinalized)
    else if actual < 0 || actual > j.hold then Err(ExceedsHold)
    else
      var held, cost := To8(j.hold), To8(actual);
      if op == Hold then
        if j.user in db.users && db.users[j.user].active && db.users[j.user].balance >= held then
          Ok(Moved(db, j.user, -held, held, c, fingerprint))
        else Err(InsufficientBalance)
      else
        if j.user in db.users && db.users[j.user].frozen >= held then
          Ok(Moved(db, j.user, held - cost, -held, c, fingerprint))
        else Err(FrozenInconsistent)
  }

  function Moved(db: Db, user: int, spendable: int, frozen: int, c: Claim, f: Fingerprint): Db
    requires user in db.users
  {
    var u := db.users[user];
    db.(users := db.users[user := u.(balance := u.balance + spendable, frozen := u.frozen + frozen)],
        claims := db.claims[c := f])
  }

  function PutJob(db: Db, id: nat, j: Job): Db
    requires id < |db.jobs|
  {
    db.(jobs := db.jobs[id := j])
  }

  /** What a client asks for, after its request was normalized and priced. */
  datatype Submission = Submission(user: int, key: int, idem: string, hash: string, ids: seq<string>, price: Price)

  predicate SameRequestKey(j: Job, s: Submission) {
    j.idem != "" && j.user == s.user && j.key == s.key && j.idem == s.idem
  }

  function NewJob(s: Submission): Job {
    Job(s.user, s.key, s.idem, s.hash, |s.ids|, s.price.unit, s.price.held, Created, 0, 0, None, None, None, None, [],
        false)
  }

  function NewItems(ids: seq<string>): seq<Item> {
    seq(|ids|, i requires 0 <= i < |ids| => Item(ids[i], Pending, 0))
  }

  /** `submitBatchImage`'s transaction: a replayed key changes nothing, a new one inserts job, hold and items
      together. */
  function SubmitTx(db: Db, s: Submission): Result<Db, Refusal> {
    if exists i | 0 <= i < |db.jobs| :: SameRequestKey(db.jobs[i], s) then
      if forall i | 0 <= i < |db.jobs| && SameRequestKey(db.jobs[i], s) :: db.jobs[i].hash == s.hash then Ok(db)
      else Err(IdempotencyConflict)
    else
      var id := |db.jobs|;
      match Balance(db.(jobs := db.jobs + [NewJob(s)]), id, Hold, 0, Request(s.hash))
      case Err(e) => Err(e)
      case Ok(held) => Ok(PutJob(held, id, NewJob(s).(items := NewItems(s.ids))))
  }

  function Closed(items: seq<Item>, status: ItemStatus): seq<Item> {
    seq(|items|, i requires 0 <= i < |items| =>
      if items[i].status == Pending then items[i].(status := status) else items[i])
  }

  /** `failBatchImage`: end a job that produced nothing and give the whole hold back. */
  function FailTx(db: Db, id: nat, status: Status): Result<Db, Refusal>
    requires id < |db.jobs| && (status == Failed || status == Cancelled)
  {
    var j := db.jobs[id];
    if Terminal(j.status) then Ok(db)
    else if j.status == Indexing || j.status == Settling then Err(MustSettle)
    else match Balance(db, id, Release, 0, Request(j.hash))
      case Err(e) => Err(e)
      case Ok(released) =>
        Ok(PutJob(released, id, j.(status := status, actual := Some(0),
          failed := if status == Failed then j.count else 0,
                                   items := Closed(j.items, if status == Failed then ItemFailed else ItemCancelled))))
  }

  /** How many images the provider's output holds for each item it mentions. */
  type ImageCounts = map<string, nat>

  /** One line of a provider job's output: the item it is for and how many images it holds. */
  datatype ResultLine = ResultLine(id: string, images: nat)

  /** Every line names an expected item, and no item twice. */
  predicate Readable(items: seq<Item>, lines: seq<ResultLine>) {
    && (forall k :: 0 <= k < |lines| ==> exists i :: 0 <= i < |items| && items[i].id == lines[k].id)
    && (forall k, l :: 0 <= k < l < |lines| ==> lines[k].id != lines[l].id)
  }

  function CountsFrom(lines: seq<ResultLine>): ImageCounts {
    if lines == [] then map[]
    else CountsFrom(lines[..|lines| - 1])[lines[|lines| - 1].id := lines[|lines| - 1].images]
  }

  predicate Produced(counts: ImageCounts, item: Item) {
    item.id in counts && counts[item.id] > 0
  }

  function Indexed(items: seq<Item>, counts: ImageCounts, unit: int): seq<Item> {
    seq(|items|, i requires 0 <= i < |items| =>
      if Produced(counts, items[i]) then Item(items[i].id, ItemSuccess, unit) else Item(items[i].id, ItemFailed, 0))
  }

  function Successes(items: seq<Item>, counts: ImageCounts): nat {
    if items == [] then 0
    else Successes(items[..|items| - 1], counts) + if Produced(counts, items[|items| - 1]) then 1 else 0
  }

  /** `indexBatchImage`'s transaction over the output it has already read. */
  function IndexTx(db: Db, id: nat, counts: ImageCounts): Db
    requires id < |db.jobs|
  {
    var j := db.jobs[id];
    if j.status != Indexing then db
    else
      var success := Successes(j.items, counts);
      var failed := |j.items| - success;
      PutJob(db, id, j.(status := Settling, success := success, failed := failed,
                        items := Indexed(j.items, counts, j.unit),
                        manifest := Some(Manifest(id, j.providerJob, j.output, success, failed, j.count))))
  }

  /** `settleBatchImage`: capture what the successful items cost and return the rest of the hold. */
  function SettleTx(db: Db, id: nat): Result<Db, Refusal>
    requires id < |db.jobs|
  {
    var j := db.jobs[id];
    if j.status == Completed then Ok(db)
    else if j.status != Settling then Err(NotReadyToSettle)
    else if j.success < 0 || j.failed < 0 || j.success + j.failed != j.count then Err(InconsistentCounts)
    else if j.manifest.None? then Err(MissingManifest)
    else
      var actual := Total(j.unit, j.success);
      match Balance(db, id, Capture, actual, Results(j.manifest.value))
      case Err(e) => Err(e)
      case Ok(captured) => Ok(PutJob(captured, id, j.(status := Completed, actual := Some(actual))))
  }

  /** The single-row updates between provider calls; the first two are guarded by status in the source, the rest are
      not. */
  function UploadTx(db: Db, id: nat): Db
    requires id < |db.jobs|
  {
    if db.jobs[id].status == Created then PutJob(db, id, db.jobs[id].(status := Uploading)) else db
  }

  function BindTx(db: Db, id: nat, name: string): Db
    requires id < |db.jobs|
  {
    if db.jobs[id].status == Uploading then
      PutJob(db, id, db.jobs[id].(status := Submitted, providerJob := Some(name)))
    else db
  }

  function RunningTx(db: Db, id: nat): Db
    requires id < |db.jobs|
  {
    PutJob(db, id, db.jobs[id].(status := Running))
  }

  function OutputReadyTx(db: Db, id: nat, output: string): Db
    requires id < |db.jobs|
  {
    PutJob(db, id, db.jobs[id].(status := Indexing, output := Some(output)))
  }

  function CancelIntentTx(db: Db, id: nat): Db
    requires id < |db.jobs|
  {
    PutJob(db, id, db.jobs[id].(cancelRequested := true))
  }

  /** `removeBatchOutput` once the provider's file is gone. */
  function RemoveOutputTx(db: Db, id: nat): Result<Db, Refusal>
    requires id < |db.jobs|
  {
    var j := db.jobs[id];
    if j.status == OutputDeleted then Ok(db)
    else if !Terminal(j.status) then Err(OutputNotReady)
    else Ok(PutJob(db, id, j.(status := OutputDeleted)))
  }

  /** Everything else that touches a user row or the dedup tables: top-ups and other charges, account state,
      archiving. */
  function AdjustTx(db: Db, user: int, delta: int): Db {
    if user in db.users then
      db.(users := db.users[user := db.users[user].(balance := db.users[user].balance + delta)])
    else db
  }

  function ActivateTx(db: Db, user: int, active: bool): Db {
    if user in db.users then db.(users := db.users[user := db.users[user].(active := active)]) else db
  }

  function ArchiveTx(db: Db, c: Claim): Db {
    if c in db.claims && c !in db.archive then
      db.(claims := db.claims - {c}, archive := db.archive[c := db.claims[c]])
    else db
  }
}
