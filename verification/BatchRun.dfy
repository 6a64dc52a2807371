/** Batch image jobs over whole runs: the worker's cycle cut at any point by a crash, client calls, the provider
    acting on its own, and unrelated account activity, in any order.

    `batchMu` is the worker field: a client call that takes the mutex is enabled only while the worker is idle, and
    a crash makes it idle again, as does a cycle that returns early with an error. A committed transaction is one
    step. The provider may refuse or never receive a call, drop a job from its listings or forget it, refuse to cancel
    it, end it in a state the worker does not know, or answer with an output that cannot be used. */
module BatchRun {
  import opened Outcomes
  import opened BatchState
  import opened BatchLedger
  import Runs

  /** A finished job's output: its reference, whether that is a plain file name, and its lines unless they cannot be
      fetched or parsed. */
  datatype Output = Output(ref: string, plain: bool, lines: Option<seq<ResultLine>>)

  /** `Unrecognized` is a final state the worker does not know; one that passes is like `Queued` to it. */
  datatype ProviderState =
    Queued | InProgress | Succeeded(output: Output) | ProviderFailed | Expired | ProviderCancelled | Unrecognized

  /** `plain` says the job's name is a plain batch resource name, `listed` that listings still contain the job,
      `answers` that asking for it by name still gives it, and `cancellable` that a cancel call is still accepted. */
  datatype ProviderJob = ProviderJob(
    display: nat, plain: bool, listed: bool, answers: bool, cancellable: bool, state: ProviderState)

  /** Where the worker stands between two committed effects of `processBatchImage` on a new job. */
  datatype Worker = Idle | ReadyToCreate(id: nat) | AwaitingReply(id: nat) | ReadyToBind(id: nat, name: string)

  /** `attempts` counts the create calls sent for a job, `inflight` the calls that may still reach the provider, and
      `reported` the jobs for which a poll has returned failed, expired or cancelled. */
  datatype Sys = Sys(
    db: Db, provider: map<string, ProviderJob>, attempts: map<nat, nat>, inflight: set<nat>, reported: set<nat>,
    worker: Worker)

  datatype Step =
    // client calls and unrelated activity that do not take the mutex
    | Submit(request: Submission)
    | Adjust(user: int, delta: int)
    | Activate(user: int, active: bool)
    | Archive(claim: Claim)
    // the provider
    | ProviderAccepts(id: nat, name: string, plain: bool)
    | CallLost(id: nat)
    | ProviderMoves(name: string, state: ProviderState)
    | JobUnlisted(name: string)
    | JobForgotten(name: string)
    | CancelRefused(name: string)
    | FileLost(name: string)
    // the worker
    | CommitUploading(id: nat)
    | SendCreate
    | ReplyArrives(name: string)
    | Bind
    | Reconcile(id: nat, name: string)
    | Poll(id: nat)
    | Index(id: nat)
    | Settle(id: nat)
    | CancelUnstarted(id: nat)
    | ExpireOutput(id: nat)
    | Crash
    // client calls under the mutex
    | UserCancel(id: nat)
    | UserDeletesOutput(id: nat)

  function Attempts(s: Sys, id: nat): nat {
    if id in s.attempts then s.attempts[id] else 0
  }

  predicate Final(p: ProviderState) {
    p.Succeeded? || p.Unrecognized? || RefundState(p)
  }

  predicate RefundState(p: ProviderState) {
    p == ProviderFailed || p == Expired || p == ProviderCancelled
  }

  /** A refused transaction rolls back. */
  function Commit(db: Db, r: Result<Db, Refusal>): Db {
    if r.Ok? then r.value else db
  }

  /** A poll gets as far as the job's state: the cancel call, sent in every cycle once a wish to cancel is recorded, is
      accepted, and the job is still there. */
  predicate Polls(j: Job, p: ProviderJob) {
    (j.cancelRequested ==> p.cancellable) && p.answers
  }

  function PollJob(s: Sys, id: nat): Sys
    requires id < |s.db.jobs|
  {
    var j := s.db.jobs[id];
    if j.providerJob.None? || j.providerJob.value !in s.provider || !Polls(j, s.provider[j.providerJob.value]) then s
    else match s.provider[j.providerJob.value].state
      case Queued => s
      case Unrecognized => s
      case InProgress => s.(db := RunningTx(s.db, id))
      case Succeeded(output) => if output.plain then s.(db := OutputReadyTx(s.db, id, output.ref)) else s
      case ProviderFailed => s.(db := Commit(s.db, FailTx(s.db, id, Failed)), reported := s.reported + {id})
      case Expired => s.(db := Commit(s.db, FailTx(s.db, id, Failed)), reported := s.reported + {id})
      case ProviderCancelled => s.(db := Commit(s.db, FailTx(s.db, id, Cancelled)), reported := s.reported + {id})
  }

  /** The output can be indexed for job `id`: it is there, parses, and names expected items once each. */
  predicate Usable(s: Sys, id: nat, output: Output)
    requires id < |s.db.jobs|
  {
    output.lines.Some? && Readable(s.db.jobs[id].items, output.lines.value)
  }

  /** Indexing reads the whole output first and commits only if every line is acceptable. */
  function IndexJob(s: Sys, id: nat): Sys
    requires id < |s.db.jobs|
  {
    var j := s.db.jobs[id];
    if j.status != Indexing || j.providerJob.None? || j.providerJob.value !in s.provider then s
    else match s.provider[j.providerJob.value].state
      case Succeeded(output) =>
        if Usable(s, id, output) then s.(db := IndexTx(s.db, id, CountsFrom(output.lines.value))) else s
      case _ => s
  }

  predicate Free(s: Sys, id: nat) {
    s.worker == Idle && id < |s.db.jobs|
  }

  /** The effect of one step; a step that is not enabled changes nothing. */
  function Next(s: Sys, step: Step): Sys {
    match step
    case Submit(request) => if WellPriced(request) then s.(db := Commit(s.db, SubmitTx(s.db, request))) else s
    case Adjust(user, delta) => s.(db := AdjustTx(s.db, user, delta))
    case Activate(user, active) => s.(db := ActivateTx(s.db, user, active))
    case Archive(claim) => s.(db := ArchiveTx(s.db, claim))
    case ProviderAccepts(id, name, plain) =>
      if id in s.inflight && name !in s.provider then
        s.(provider := s.provider[name := ProviderJob(id, plain, true, true, true, Queued)],
            inflight := s.inflight - {id})
      else s
    case CallLost(id) => s.(inflight := s.inflight - {id})
    case ProviderMoves(name, state) =>
      if name in s.provider && !Final(s.provider[name].state) then
        s.(provider := s.provider[name := s.provider[name].(state := state)])
      else s
    case JobUnlisted(name) =>
      if name in s.provider then s.(provider := s.provider[name := s.provider[name].(listed := false)]) else s
    case JobForgotten(name) =>
      if name in s.provider then
        s.(provider := s.provider[name := s.provider[name].(listed := false, answers := false)])
      else s
    case CancelRefused(name) =>
      if name in s.provider then s.(provider := s.provider[name := s.provider[name].(cancellable := false)]) else s
    case FileLost(name) =>
      if name in s.provider && s.provider[name].state.Succeeded? then
        s.(provider := s.provider[name :=
          s.provider[name].(state := Succeeded(s.provider[name].state.output.(lines := None)))])
      else s
    case CommitUploading(id) =>
      if Free(s, id) && s.db.jobs[id].status == Created then s.(db := UploadTx(s.db, id), worker := ReadyToCreate(id))
      else s
    case SendCreate =>
      if s.worker.ReadyToCreate? then
        var id := s.worker.id;
        s.(attempts := s.attempts[id := Attempts(s, id) + 1], inflight := s.inflight + {id},
            worker := AwaitingReply(id))
      else s
    case ReplyArrives(name) =>
      if s.worker.AwaitingReply? && Owns(s, name, s.worker.id)
      && s.provider[name].plain then s.(worker := ReadyToBind(s.worker.id, name))
      else s
    case Bind =>
      if s.worker.ReadyToBind? && s.worker.id < |s.db.jobs| then
        s.(db := BindTx(s.db, s.worker.id, s.worker.name), worker := Idle)
      else s
    case Reconcile(id, name) =>
      if Free(s, id) && s.db.jobs[id].status == Uploading && Found(s, name, id) then s.(db := BindTx(s.db, id, name))
      else s
    case Poll(id) => if Free(s, id) && AtProvider(s.db.jobs[id].status) then PollJob(s, id) else s
    case Index(id) => if Free(s, id) then IndexJob(s, id) else s
    case Settle(id) => if Free(s, id) then s.(db := Commit(s.db, SettleTx(s.db, id))) else s
    case CancelUnstarted(id) =>
      if Free(s, id) && s.db.jobs[id].status == Created then s.(db := Commit(s.db, FailTx(s.db, id, Cancelled))) else s
    case ExpireOutput(id) => if Free(s, id) then s.(db := Commit(s.db, RemoveOutputTx(s.db, id))) else s
    case Crash => s.(worker := Idle)
    case UserCancel(id) =>
      if !Free(s, id) then s
      else if s.db.jobs[id].status == Created then s.(db := Commit(s.db, FailTx(s.db, id, Cancelled)))
      else if s.db.jobs[id].status == Uploading || AtProvider(s.db.jobs[id].status) then s.(db := CancelIntentTx(s.db,
          id))
      else s
    case UserDeletesOutput(id) => if Free(s, id) then s.(db := Commit(s.db, RemoveOutputTx(s.db, id))) else s
  }

  function Run(s: Sys, steps: seq<Step>): Sys {
    Runs.Run(Next, s, steps)
  }

  // ---- The invariant --------------------------------------------------------------------------------------

  /** The provider job that belongs to job `id`, by display name. */
  predicate Owns(s: Sys, name: string, id: nat) {
    name in s.provider && s.provider[name].display == id
  }

  /** What recovery by display name answers: a listed job under a plain name. */
  predicate Found(s: Sys, name: string, id: nat) {
    Owns(s, name, id) && s.provider[name].listed && s.provider[name].plain
  }

  predicate Refundable(s: Sys, id: nat) {
    Attempts(s, id) == 0 || id in s.reported
  }

  predicate BoundStatus(status: Status) {
    AtProvider(status) || status == Indexing || status == Settling || status == Completed
  }

  predicate Dispatched(s: Sys, id: nat)
    requires id < |s.db.jobs|
  {
    var j := s.db.jobs[id];
    && Attempts(s, id) <= 1
    && (j.status == Created ==> Attempts(s, id) == 0)
    && (BoundStatus(j.status) ==>
         j.providerJob.Some? && Owns(s, j.providerJob.value, id) && s.provider[j.providerJob.value].plain)
    && (j.status == Indexing ==> Delivered(s, j))
    && (Has(s.db, Release, id) ==> Refundable(s, id))
  }

  /** The recorded output is that of the job's finished provider job. */
  predicate Delivered(s: Sys, j: Job) {
    && j.providerJob.Some? && j.providerJob.value in s.provider && s.provider[j.providerJob.value].state.Succeeded?
    && j.output == Some(s.provider[j.providerJob.value].state.output.ref)
  }

  predicate WorkerOk(s: Sys) {
    match s.worker
    case Idle => true
    case ReadyToCreate(id) => id < |s.db.jobs| && s.db.jobs[id].status == Uploading && Attempts(s, id) == 0
    case AwaitingReply(id) => id < |s.db.jobs| && s.db.jobs[id].status == Uploading && Attempts(s, id) == 1
    case ReadyToBind(id, name) =>
      id < |s.db.jobs| && s.db.jobs[id].status == Uploading && Owns(s, name, id) && s.provider[name].plain
  }

  ghost predicate ProviderOk(s: Sys) {
    && (forall name :: name in s.provider ==>
         Attempts(s, s.provider[name].display) == 1 && s.provider[name].display !in s.inflight)
    && (forall n, m :: n in s.provider && m in s.provider && s.provider[n].display == s.provider[m].display ==> n == m)
    && (forall id :: id in s.inflight ==> Attempts(s, id) == 1)
    && (forall id :: id in s.attempts ==> id < |s.db.jobs|)
  }

  /** The provider holds a job for `id` and has ended it without results. */
  ghost predicate EndedEmpty(s: Sys, id: nat) {
    exists name :: Owns(s, name, id) && RefundState(s.provider[name].state)
  }

  ghost predicate ReportsOk(s: Sys) {
    forall id :: id in s.reported ==> EndedEmpty(s, id)
  }

  /** A provider job keeps its name and display name, and an ended one its outcome, though not its place in listings,
      its answer or its file. */
  predicate JobGrows(p: ProviderJob, q: ProviderJob) {
    && q.display == p.display && q.plain == p.plain
    && (q.listed ==> p.listed) && (q.answers ==> p.answers) && (q.cancellable ==> p.cancellable)
    && (RefundState(p.state) || p.state.Unrecognized? ==> q.state == p.state)
    && (p.state.Succeeded? ==> q.state.Succeeded? && FileKept(p.state.output, q.state.output))
  }

  predicate FileKept(o: Output, n: Output) {
    n == o || n == o.(lines := None)
  }

  ghost predicate ProviderGrows(s: Sys, t: Sys) {
    forall name :: name in s.provider ==> name in t.provider && JobGrows(s.provider[name], t.provider[name])
  }

  lemma EndedStays(s: Sys, t: Sys, id: nat)
    requires EndedEmpty(s, id) && ProviderGrows(s, t)
    ensures EndedEmpty(t, id)
  {
    var name :| Owns(s, name, id) && RefundState(s.provider[name].state);
    assert Owns(t, name, id) && RefundState(t.provider[name].state);
  }

  ghost predicate Inv(s: Sys) {
    && Ledger(s.db)
    && WorkerOk(s)
    && ProviderOk(s)
    && ReportsOk(s)
    && forall id: nat :: id < |s.db.jobs| ==> Dispatched(s, id)
  }

  /** A fresh deployment: users with nothing frozen, no jobs, no claims. */
  predicate Initial(s: Sys) {
    && s.db.jobs == [] && s.db.claims == map[] && s.db.archive == map[]
    && s.provider == map[] && s.attempts == map[] && s.inflight == {} && s.reported == {} && s.worker == Idle
    && forall user :: user in s.db.users ==> s.db.users[user].frozen == 0
  }

  lemma InitialInv(s: Sys)
    requires Initial(s)
    ensures Inv(s)
    ensures forall user :: user in s.db.users ==> CapturedTotal(s.db, user) == 0
  {
  }

  function MoneyIn(step: Step, user: int): int {
    if step.Adjust? && step.user == user then step.delta else 0
  }

  /** How far a job has come; the four final states are one rank apart from their predecessors only through deletion. */
  function Rank(status: Status): nat {
    match status
    case Created => 0 case Uploading => 1 case Submitted => 2 case Running => 3 case Indexing => 4 case Settling => 5
    case Completed => 6 case Failed => 6 case Cancelled => 6 case OutputDeleted => 7
  }

  /** A job's status only moves forward, and a final status stays, except that its output may be deleted. */
  predicate Forward(before: Status, after: Status) {
    Rank(before) <= Rank(after) && (Terminal(before) ==> after == before || after == OutputDeleted)
  }

  ghost predicate Progress(s: Sys, t: Sys) {
    && |s.db.jobs| <= |t.db.jobs| && s.db.users.Keys == t.db.users.Keys
    && (forall id: nat :: id < |s.db.jobs| ==>
         SameIdentity(s.db.jobs[id], t.db.jobs[id]) && Forward(s.db.jobs[id].status, t.db.jobs[id].status))
    && (forall id: nat :: Attempts(s, id) <= Attempts(t, id))
  }

  /** What one committed change of job `id` must respect for the invariant to survive it. */
  ghost predicate JobMove(s: Sys, t: Sys, id: nat) {
    && id < |s.db.jobs|
    && t == s.(db := t.db, reported := t.reported, worker := t.worker)
    && (t.reported == s.reported || (t.reported == s.reported + {id} && EndedEmpty(s, id)))
    && KeepsLedger(s.db, t.db) && OnlyJob(s.db, t.db, id)
    && Forward(s.db.jobs[id].status, t.db.jobs[id].status)
  }

  lemma JobMoveKeepsInv(s: Sys, t: Sys, id: nat)
    requires Inv(s) && JobMove(s, t, id) && Dispatched(t, id) && WorkerOk(t)
    ensures Inv(t) && Progress(s, t)
  {
    forall i: nat | i < |t.db.jobs| ensures Dispatched(t, i) {
      if i != id {
        OtherJobsUnchanged(s.db, t.db, id, i);
        assert Dispatched(s, i);
      }
    }
    forall k | k in t.reported ensures EndedEmpty(t, k) {
      EndedStays(s, t, k);
    }
  }

  ghost predicate SameWorth(s: Sys, t: Sys) {
    s.db.users.Keys == t.db.users.Keys && forall user :: user in s.db.users ==> Worth(t.db, user) == Worth(s.db, user)
  }

  /** What every internal step achieves. */
  ghost predicate Keeps(s: Sys, t: Sys) {
    Inv(t) && Progress(s, t) && SameWorth(s, t)
  }

  lemma NoStep(s: Sys)
    requires Inv(s)
    ensures Keeps(s, s)
  {
  }

  /** A job is given up only while no provider job can use its hold: before any create call, or after the provider
      reported failure. */
  lemma Refund(s: Sys, id: nat, status: Status, reported: set<nat>)
    requires Inv(s) && id < |s.db.jobs| && s.worker == Idle && (status == Failed || status == Cancelled)
    requires s.db.jobs[id].status == Created || AtProvider(s.db.jobs[id].status)
    requires reported == s.reported || (reported == s.reported + {id} && EndedEmpty(s, id))
    requires Attempts(s, id) == 0 || id in reported
    ensures Keeps(s, s.(db := Commit(s.db, FailTx(s.db, id, status)), reported := reported))
  {
    FailKeepsLedger(s.db, id, status);
    JobMoveKeepsInv(s, s.(db := Commit(s.db, FailTx(s.db, id, status)), reported := reported), id);
  }

  /** A plain update of one job row, with no claim or money involved. */
  lemma RowMove(s: Sys, k: Job, id: nat, worker: Worker)
    requires Inv(s) && id < |s.db.jobs|
    requires WorkerOk(s.(db := PutJob(s.db, id, k), worker := worker))
    requires var j := s.db.jobs[id];
      && k == j.(status := k.status, providerJob := k.providerJob, output := k.output,
          cancelRequested := k.cancelRequested)
      && Forward(j.status, k.status) && k.status != Settling
      && (k.status == j.status || !Terminal(k.status) || (k.status == OutputDeleted && Terminal(j.status)))
      && (k.status == Created ==> j.status == Created)
      && (BoundStatus(k.status) ==>
           k.providerJob.Some? && Owns(s, k.providerJob.value, id) && s.provider[k.providerJob.value].plain)
      && (k.status == Indexing ==> Delivered(s, k))
    ensures Keeps(s, s.(db := PutJob(s.db, id, k), worker := worker))
  {
    var t := s.(db := PutJob(s.db, id, k), worker := worker);
    RowUpdate(s.db, id, t.db);
    assert Dispatched(s, id);
    assert forall op :: Has(t.db, op, id) == Has(s.db, op, id);
    JobMoveKeepsInv(s, t, id);
  }

  // ---- The worker's steps ---------------------------------------------------------------------------------

  lemma UploadingCommitted(s: Sys, id: nat)
    requires Inv(s) && Free(s, id) && s.db.jobs[id].status == Created
    ensures Keeps(s, s.(db := UploadTx(s.db, id), worker := ReadyToCreate(id)))
  {
    assert Dispatched(s, id);
    RowMove(s, s.db.jobs[id].(status := Uploading), id, ReadyToCreate(id));
  }

  lemma Bound(s: Sys, id: nat, name: string)
    requires Inv(s) && id < |s.db.jobs| && s.db.jobs[id].status == Uploading && Owns(s, name, id)
      && s.provider[name].plain
    ensures Keeps(s, s.(db := BindTx(s.db, id, name), worker := Idle))
  {
    RowMove(s, s.db.jobs[id].(status := Submitted, providerJob := Some(name)), id, Idle);
  }

  lemma PolledRunning(s: Sys, id: nat)
    requires Inv(s) && Free(s, id) && AtProvider(s.db.jobs[id].status)
    ensures Keeps(s, s.(db := RunningTx(s.db, id)))
  {
    assert Dispatched(s, id);
    RowMove(s, s.db.jobs[id].(status := Running), id, Idle);
  }

  lemma PolledDone(s: Sys, id: nat, name: string)
    requires Inv(s) && Free(s, id) && AtProvider(s.db.jobs[id].status) && s.db.jobs[id].providerJob == Some(name)
    requires name in s.provider && s.provider[name].state.Succeeded?
    ensures Keeps(s, s.(db := OutputReadyTx(s.db, id, s.provider[name].state.output.ref)))
  {
    assert Dispatched(s, id);
    RowMove(s, s.db.jobs[id].(status := Indexing, output := Some(s.provider[name].state.output.ref)), id, Idle);
  }

  lemma Polled(s: Sys, id: nat)
    requires Inv(s) && Free(s, id) && AtProvider(s.db.jobs[id].status)
    ensures Keeps(s, PollJob(s, id))
  {
    assert Dispatched(s, id);
    NoStep(s);
    var name := s.db.jobs[id].providerJob.value;
    assert Owns(s, name, id);
    match s.provider[name].state
    case Queued =>
    case Unrecognized =>
    case InProgress => PolledRunning(s, id);
    case Succeeded(_) => PolledDone(s, id, name);
    case ProviderFailed => Refund(s, id, Failed, s.reported + {id});
    case Expired => Refund(s, id, Failed, s.reported + {id});
    case ProviderCancelled => Refund(s, id, Cancelled, s.reported + {id});
  }

  lemma IndexedJob(s: Sys, id: nat)
    requires Inv(s) && Free(s, id)
    ensures Keeps(s, IndexJob(s, id))
  {
    var t := IndexJob(s, id);
    if t == s {
      NoStep(s);
    } else {
      assert Dispatched(s, id);
      IndexKeepsLedger(s.db, id, CountsFrom(s.provider[s.db.jobs[id].providerJob.value].state.output.lines.value));
      assert forall op :: Has(t.db, op, id) == Has(s.db, op, id);
      JobMoveKeepsInv(s, t, id);
    }
  }

  lemma SettledJob(s: Sys, id: nat)
    requires Inv(s) && Free(s, id)
    ensures Keeps(s, s.(db := Commit(s.db, SettleTx(s.db, id))))
  {
    if s.db.jobs[id].status == Settling {
      assert Dispatched(s, id);
      SettleKeepsLedger(s.db, id);
      var t := s.(db := Commit(s.db, SettleTx(s.db, id)));
      assert JobOk(t.db, id);
      JobMoveKeepsInv(s, t, id);
    } else {
      NoStep(s);
    }
  }

  lemma CancelledUnstarted(s: Sys, id: nat)
    requires Inv(s) && Free(s, id) && s.db.jobs[id].status == Created
    ensures Keeps(s, s.(db := Commit(s.db, FailTx(s.db, id, Cancelled))))
  {
    assert Dispatched(s, id);
    Refund(s, id, Cancelled, s.reported);
  }

  lemma OutputRemoved(s: Sys, id: nat)
    requires Inv(s) && Free(s, id)
    ensures Keeps(s, s.(db := Commit(s.db, RemoveOutputTx(s.db, id))))
  {
    if Terminal(s.db.jobs[id].status) && s.db.jobs[id].status != OutputDeleted {
      RowMove(s, s.db.jobs[id].(status := OutputDeleted), id, Idle);
    } else {
      NoStep(s);
    }
  }

  lemma CancelAsked(s: Sys, id: nat)
    requires Inv(s) && Free(s, id) && (s.db.jobs[id].status == Uploading || AtProvider(s.db.jobs[id].status))
    ensures Keeps(s, s.(db := CancelIntentTx(s.db, id)))
  {
    assert Dispatched(s, id);
    RowMove(s, s.db.jobs[id].(cancelRequested := true), id, Idle);
  }

  // ---- The provider and the outside world -----------------------------------------------------------------

  predicate FirstAttempt(s: Sys, t: Sys, id: nat) {
    id < |s.db.jobs| && s.db.jobs[id].status == Uploading && Attempts(s, id) == 0 && Attempts(t, id) == 1
  }

  /** Nothing in the database changes; the provider's side stays consistent. */
  lemma ProviderOnly(s: Sys, t: Sys)
    requires Inv(s) && t.db == s.db && t.reported == s.reported && WorkerOk(t) && ProviderOk(t)
    requires forall id: nat :: Attempts(t, id) == Attempts(s, id) || FirstAttempt(s, t, id)
    requires ProviderGrows(s, t)
    ensures Keeps(s, t)
  {
    forall k | k in t.reported ensures EndedEmpty(t, k) {
      EndedStays(s, t, k);
    }
    forall id: nat | id < |t.db.jobs| ensures Dispatched(t, id) {
      assert Dispatched(s, id) && JobOk(s.db, id);
    }
  }

  lemma CreateSent(s: Sys)
    requires Inv(s) && s.worker.ReadyToCreate?
    ensures Keeps(s, Next(s, SendCreate))
  {
    var id := s.worker.id;
    var t := Next(s, SendCreate);
    forall name | name in t.provider ensures t.provider[name].display != id {
      assert Attempts(s, s.provider[name].display) == 1;
    }
    ProviderOnly(s, t);
  }

  lemma ProviderAccepted(s: Sys, id: nat, name: string, plain: bool)
    requires Inv(s) && id in s.inflight && name !in s.provider
    ensures Keeps(s, Next(s, ProviderAccepts(id, name, plain)))
  {
    ProviderOnly(s, Next(s, ProviderAccepts(id, name, plain)));
  }

  /** A provider job changed on its own account. */
  lemma ProviderChanged(s: Sys, name: string, q: ProviderJob)
    requires Inv(s) && name in s.provider && JobGrows(s.provider[name], q)
    ensures Keeps(s, s.(provider := s.provider[name := q]))
  {
    ProviderOnly(s, s.(provider := s.provider[name := q]));
  }

  lemma WorkerOnly(s: Sys, worker: Worker)
    requires Inv(s) && WorkerOk(s.(worker := worker))
    ensures Keeps(s, s.(worker := worker))
  {
    var t := s.(worker := worker);
    ProviderOnly(s, t);
  }

  /** Rows may be added and users changed, but no existing job, claim or provider fact. */
  lemma RowsAppended(s: Sys, db: Db)
    requires Inv(s) && Ledger(db) && db.users.Keys == s.db.users.Keys
    requires |s.db.jobs| <= |db.jobs| && db.jobs[..|s.db.jobs|] == s.db.jobs
    requires forall c: Claim :: c.op == Release ==> (Known(db, c) <==> Known(s.db, c))
    requires forall id: nat :: |s.db.jobs| <= id < |db.jobs| ==> db.jobs[id].status == Created
    ensures Inv(s.(db := db)) && Progress(s, s.(db := db))
  {
    var t := s.(db := db);
    forall id: nat | id < |s.db.jobs| ensures db.jobs[id] == s.db.jobs[id] {
      assert db.jobs[id] == db.jobs[..|s.db.jobs|][id];
    }
    forall id: nat | id < |db.jobs| ensures Dispatched(t, id) {
      if id < |s.db.jobs| {
        assert Dispatched(s, id);
        assert Has(db, Release, id) == Has(s.db, Release, id);
      } else {
        assert JobOk(db, id);
      }
    }
    forall i | i in t.reported ensures EndedEmpty(t, i) {
      EndedStays(s, t, i);
    }
  }

  lemma SubmissionCommitted(s: Sys, request: Submission)
    requires Inv(s) && WellPriced(request)
    ensures Keeps(s, s.(db := Commit(s.db, SubmitTx(s.db, request))))
  {
    SubmitKeepsLedger(s.db, request);
    RowsAppended(s, Commit(s.db, SubmitTx(s.db, request)));
  }

  ghost predicate KeepsPlus(s: Sys, t: Sys, step: Step) {
    && Inv(t) && Progress(s, t)
    && forall user :: user in s.db.users ==> Worth(t.db, user) == Worth(s.db, user) + MoneyIn(step, user)
  }

  lemma OutsideStep(s: Sys, step: Step)
    requires Inv(s) && (step.Adjust? || step.Activate? || step.Archive?)
    ensures KeepsPlus(s, Next(s, step), step)
  {
    match step
    case Adjust(user, delta) =>
      OutsideKeepsLedger(s.db, user, delta, false, Claim(Hold, 0, 0));
      RowsAppended(s, AdjustTx(s.db, user, delta));
    case Activate(user, active) =>
      OutsideKeepsLedger(s.db, user, 0, active, Claim(Hold, 0, 0));
      RowsAppended(s, ActivateTx(s.db, user, active));
    case Archive(claim) =>
      OutsideKeepsLedger(s.db, 0, 0, false, claim);
      RowsAppended(s, ArchiveTx(s.db, claim));
  }

  /** The steps of the worker and the provider, apart from those that move a job's record. */
  lemma WorkerStep(s: Sys, step: Step)
    requires Inv(s)
    requires step.ProviderAccepts? || step.CallLost? || step.SendCreate? || step.ReplyArrives? || step.Crash?
    ensures Keeps(s, Next(s, step))
  {
    NoStep(s);
    match step
    case ProviderAccepts(id, name, plain) =>
      if id in s.inflight && name !in s.provider { ProviderAccepted(s, id, name, plain); }
    case CallLost(id) => ProviderOnly(s, Next(s, step));
    case SendCreate => if s.worker.ReadyToCreate? { CreateSent(s); }
    case ReplyArrives(name) => WorkerOnly(s, Next(s, step).worker);
    case Crash => WorkerOnly(s, Idle);
  }

  lemma ProviderStep(s: Sys, step: Step)
    requires Inv(s)
      && (step.ProviderMoves? || step.JobUnlisted? || step.JobForgotten? || step.CancelRefused? || step.FileLost?)
    ensures Keeps(s, Next(s, step))
  {
    NoStep(s);
    var t := Next(s, step);
    if t != s {
      ProviderChanged(s, step.name, t.provider[step.name]);
    }
  }

  /** The steps with which the worker takes a job to the provider. */
  lemma RecordStep(s: Sys, step: Step)
    requires Inv(s)
    requires step.CommitUploading? || step.Bind? || step.Reconcile?
    ensures Keeps(s, Next(s, step))
  {
    NoStep(s);
    match step
    case CommitUploading(id) => if Free(s, id) && s.db.jobs[id].status == Created { UploadingCommitted(s, id); }
    case Bind => if s.worker.ReadyToBind? { Bound(s, s.worker.id, s.worker.name); }
    case Reconcile(id, name) =>
      if Free(s, id) && s.db.jobs[id].status == Uploading && Found(s, name, id) { Bound(s, id, name); }
  }

  lemma PollStep(s: Sys, id: nat)
    requires Inv(s)
    ensures Keeps(s, Next(s, Poll(id)))
  {
    NoStep(s);
    if Free(s, id) && AtProvider(s.db.jobs[id].status) { Polled(s, id); }
  }

  lemma IndexStep(s: Sys, id: nat)
    requires Inv(s)
    ensures Keeps(s, Next(s, Index(id)))
  {
    NoStep(s);
    if Free(s, id) { IndexedJob(s, id); }
  }

  lemma SettleStep(s: Sys, id: nat)
    requires Inv(s)
    ensures Keeps(s, Next(s, Settle(id)))
  {
    NoStep(s);
    if Free(s, id) { SettledJob(s, id); }
  }

  /** Ending a job or its output without results. */
  lemma ClosingStep(s: Sys, step: Step)
    requires Inv(s) && (step.CancelUnstarted? || step.ExpireOutput? || step.UserDeletesOutput?)
    ensures Keeps(s, Next(s, step))
  {
    NoStep(s);
    match step
    case CancelUnstarted(id) => if Free(s, id) && s.db.jobs[id].status == Created { CancelledUnstarted(s, id); }
    case ExpireOutput(id) => if Free(s, id) { OutputRemoved(s, id); }
    case UserDeletesOutput(id) => if Free(s, id) { OutputRemoved(s, id); }
  }

  lemma UserCancelStep(s: Sys, id: nat)
    requires Inv(s)
    ensures Keeps(s, Next(s, UserCancel(id)))
  {
    NoStep(s);
    if Free(s, id) {
      if s.db.jobs[id].status == Created {
        CancelledUnstarted(s, id);
      } else if s.db.jobs[id].status == Uploading || AtProvider(s.db.jobs[id].status) {
        CancelAsked(s, id);
      }
    }
  }

  lemma SubmitStep(s: Sys, request: Submission)
    requires Inv(s)
    ensures Keeps(s, Next(s, Submit(request)))
  {
    NoStep(s);
    if WellPriced(request) { SubmissionCommitted(s, request); }
  }

  /** Only an adjustment moves worth from outside. */
  lemma NoMoney(s: Sys, t: Sys, step: Step)
    requires Keeps(s, t) && !step.Adjust?
    ensures KeepsPlus(s, t, step)
  {
  }

  lemma InsideStep(s: Sys, step: Step)
    requires Inv(s) && !step.Adjust? && !step.Activate? && !step.Archive?
    ensures Keeps(s, Next(s, step))
  {
    if step.Submit? {
      SubmitStep(s, step.request);
    } else if step.ProviderMoves? || step.JobUnlisted? || step.JobForgotten? || step.CancelRefused? || step.FileLost? {
      ProviderStep(s, step);
    } else if step.ProviderAccepts? || step.CallLost? || step.SendCreate? || step.ReplyArrives? || step.Crash? {
      WorkerStep(s, step);
    } else if step.CommitUploading? || step.Bind? || step.Reconcile? {
      RecordStep(s, step);
    } else if step.Poll? {
      PollStep(s, step.id);
    } else if step.Index? {
      IndexStep(s, step.id);
    } else if step.Settle? {
      SettleStep(s, step.id);
    } else if step.UserCancel? {
      UserCancelStep(s, step.id);
    } else {
      ClosingStep(s, step);
    }
  }

  /** Every step, from every reachable state and with the worker cut anywhere, keeps the invariant, moves jobs only
      forward, and moves a user's worth by exactly what came from outside. */
  lemma StepKeepsInv(s: Sys, step: Step)
    requires Inv(s)
    ensures KeepsPlus(s, Next(s, step), step)
  {
    if step.Adjust? || step.Activate? || step.Archive? {
      OutsideStep(s, step);
    } else {
      InsideStep(s, step);
      NoMoney(s, Next(s, step), step);
    }
  }

  // ---- Whole runs -----------------------------------------------------------------------------------------

  function MoneyInAll(steps: seq<Step>, user: int): int {
    if steps == [] then 0 else MoneyInAll(steps[..|steps| - 1], user) + MoneyIn(steps[|steps| - 1], user)
  }

  lemma {:induction false} RunKeepsInv(s: Sys, steps: seq<Step>)
    requires Inv(s)
    ensures var t := Run(s, steps);
      && Inv(t) && Progress(s, t)
      && forall user :: user in s.db.users ==> Worth(t.db, user) == Worth(s.db, user) + MoneyInAll(steps, user)
  {
    if steps != [] {
      var front := steps[..|steps| - 1];
      RunKeepsInv(s, front);
      StepKeepsInv(Run(s, front), steps[|steps| - 1]);
    }
  }

  /** Conservation over every run: a user's frozen balance is exactly the holds not yet finalized, and balance,
      frozen balance and captured costs together change only by what came from outside. */
  lemma Conservation(s: Sys, steps: seq<Step>, user: int)
    requires Initial(s) && user in s.db.users
    ensures var db := Run(s, steps).db;
      && user in db.users
      && db.users[user].frozen == FrozenDue(db, user)
      && db.users[user].balance + db.users[user].frozen + CapturedTotal(db, user) == s.db.users[user].balance +
        MoneyInAll(steps, user)
  {
    InitialInv(s);
    RunKeepsInv(s, steps);
  }

  /** Exactly-once finalization: an open job is held and nothing else, a completed one captured and not released, a
      failed or cancelled one released and not captured, and deleting output leaves the one claim it had. */
  lemma FinalizedExactlyOnce(s: Sys, steps: seq<Step>, id: nat)
    requires Initial(s) && id < |Run(s, steps).db.jobs|
    ensures var db := Run(s, steps).db; var status := db.jobs[id].status;
      && Has(db, Hold, id)
      && (!Terminal(status) ==> !Has(db, Capture, id) && !Has(db, Release, id))
      && (status == Completed ==> Has(db, Capture, id) && !Has(db, Release, id))
      && (status == Failed || status == Cancelled ==> Has(db, Release, id) && !Has(db, Capture, id))
      && (status == OutputDeleted ==> Has(db, Capture, id) != Has(db, Release, id))
      && (Has(db, Capture, id) ==> db.jobs[id].actual == Some(Sums.Sum(Bills(db.jobs[id].items))))
  {
    InitialInv(s);
    RunKeepsInv(s, steps);
    assert JobOk(Run(s, steps).db, id);
  }

  /** The billable create call is sent at most once per job, the provider never holds two jobs for one of ours, and a
      hold is given back only if no call was ever sent or the provider ended the job without results. */
  lemma CreatedAtMostOnce(s: Sys, steps: seq<Step>, id: nat)
    requires Initial(s) && id < |Run(s, steps).db.jobs|
    ensures var t := Run(s, steps);
      && Attempts(t, id) <= 1
      && (forall n, m :: Owns(t, n, id) && Owns(t, m, id) ==> n == m)
      && (Has(t.db, Release, id) ==> Attempts(t, id) == 0 || EndedEmpty(t, id))
  {
    InitialInv(s);
    RunKeepsInv(s, steps);
    assert Dispatched(Run(s, steps), id);
  }

  /** Once a job is final no later step sends its create call, so a hold returned before dispatch is never used. */
  lemma {:induction false} FinalJobNeverDispatched(s: Sys, steps: seq<Step>, id: nat)
    requires Inv(s) && id < |s.db.jobs| && Terminal(s.db.jobs[id].status)
    ensures Attempts(Run(s, steps), id) == Attempts(s, id)
  {
    if steps != [] {
      var front := steps[..|steps| - 1];
      FinalJobNeverDispatched(s, front, id);
      RunKeepsInv(s, front);
      FinalJobNotSent(Run(s, front), steps[|steps| - 1], id);
    }
  }

  lemma FinalJobNotSent(s: Sys, step: Step, id: nat)
    requires WorkerOk(s) && id < |s.db.jobs| && Terminal(s.db.jobs[id].status)
    ensures Attempts(Next(s, step), id) == Attempts(s, id)
  {
  }

  /** In every reachable state the closing transactions cannot be refused: indexed results always settle, for exactly
      the sum of the item bills, and a job without results can always be given up. */
  lemma ClosingNeverRefused(s: Sys, steps: seq<Step>, id: nat, status: Status)
    requires Initial(s) && id < |Run(s, steps).db.jobs| && (status == Failed || status == Cancelled)
    ensures var db := Run(s, steps).db; var j := db.jobs[id];
      && (j.status == Settling ==> SettleTx(db, id).Ok? && Charged(SettleTx(db, id).value.jobs[id],
          Sums.Sum(Bills(j.items))))
      && (j.status == Created || j.status == Uploading || AtProvider(j.status) ==> FailTx(db, id, status).Ok?)
  {
    InitialInv(s);
    RunKeepsInv(s, steps);
    SettleKeepsLedger(Run(s, steps).db, id);
    FailKeepsLedger(Run(s, steps).db, id, status);
  }
}
