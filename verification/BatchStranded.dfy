/** When an accepted batch job can still reach a final status, and when its hold is frozen for good.

    After the worker commits "uploading" it never sends the create call again and only looks the job up by display
    name; after binding it sends any recorded cancel first and gives up the cycle if that is refused; once results
    exist nothing but indexing them can close the job; and no client call releases the hold of a job in any of these
    positions. So a call that was never sent or never arrived, a job the provider lost, a cancel it refuses, a final
    state the worker does not know, and an output that cannot be used each leave the hold frozen. */
module BatchStranded {
  import opened Outcomes
  import opened BatchState
  import opened BatchLedger
  import opened BatchRun
  import Runs

  /** The provider job can still end job `id`: polls get through, its state is or may become one the worker acts on, and
      if it is done its output can be used. */
  predicate Hopeful(s: Sys, id: nat, name: string)
    requires id < |s.db.jobs| && name in s.provider
  {
    var p := s.provider[name];
    && p.plain && Polls(s.db.jobs[id], p) && !p.state.Unrecognized?
    && (p.state.Succeeded? ==> p.state.output.plain && Usable(s, id, p.state.output))
  }

  /** The worker can still learn of the provider job: from listings, from the reply, or because it holds the name. */
  predicate Learns(s: Sys, id: nat, name: string)
    requires name in s.provider
  {
    s.provider[name].listed || s.worker == AwaitingReply(id) || s.worker == ReadyToBind(id, name)
  }

  ghost predicate Findable(s: Sys, id: nat)
    requires id < |s.db.jobs|
  {
    exists name :: Owns(s, name, id) && Hopeful(s, id, name) && Learns(s, id, name)
  }

  /** Uploading with no call on its way or about to be sent and no provider job to learn of that could end it; or bound
      to a provider job that cannot; or waiting for an output that cannot be used. */
  ghost predicate Stranded(s: Sys, id: nat) {
    id < |s.db.jobs| &&
    var j := s.db.jobs[id];
    match j.status
    case Uploading => s.worker != ReadyToCreate(id) && id !in s.inflight && !Findable(s, id)
    case Submitted => j.providerJob.Some? && j.providerJob.value in s.provider && !Hopeful(s, id, j.providerJob.value)
    case Running => j.providerJob.Some? && j.providerJob.value in s.provider && !Hopeful(s, id, j.providerJob.value)
    case Indexing => Delivered(s, j) && !Usable(s, id, s.provider[j.providerJob.value].state.output)
    case _ => false
  }

  ghost predicate CanFinish(s: Sys, id: nat) {
    exists steps :: id < |Run(s, steps).db.jobs| && Terminal(Run(s, steps).db.jobs[id].status)
  }

  // ---- A stranded job stays stranded --------------------------------------------------------------------------

  /** The step leaves the row alone, but for a recorded wish to cancel, which is never withdrawn. */
  predicate RowKept(s: Sys, t: Sys, id: nat)
    requires id < |s.db.jobs|
  {
    && id < |t.db.jobs| && t.db.jobs[id] == s.db.jobs[id].(cancelRequested := t.db.jobs[id].cancelRequested)
    && (s.db.jobs[id].cancelRequested ==> t.db.jobs[id].cancelRequested)
  }

  /** The provider's side moves on: jobs only lose, calls are only sent for the job the worker is about to send, and a
      new job only comes from a call. */
  ghost predicate ProviderOnward(s: Sys, t: Sys, id: nat) {
    && ProviderGrows(s, t)
    && (id in t.inflight ==> id in s.inflight || s.worker == ReadyToCreate(id))
    && (t.worker == ReadyToCreate(id) ==> s.worker == ReadyToCreate(id))
    && (t.worker == AwaitingReply(id) ==> s.worker == AwaitingReply(id) || s.worker == ReadyToCreate(id))
    && (t.worker.ReadyToBind? && t.worker.id == id ==> s.worker == t.worker || s.worker == AwaitingReply(id))
    && (forall name :: name in t.provider && name !in s.provider ==> t.provider[name].display in s.inflight)
  }

  lemma StrandedKept(s: Sys, t: Sys, id: nat)
    requires Stranded(s, id) && RowKept(s, t, id) && ProviderOnward(s, t, id)
    ensures Stranded(t, id)
  {
    if s.db.jobs[id].status == Uploading {
      forall name | Owns(t, name, id) ensures !(Hopeful(t, id, name) && Learns(t, id, name)) {
        assert Owns(s, name, id) && !(Hopeful(s, id, name) && Learns(s, id, name));
        assert JobGrows(s.provider[name], t.provider[name]);
      }
    } else {
      assert JobGrows(s.provider[s.db.jobs[id].providerJob.value], t.provider[s.db.jobs[id].providerJob.value]);
    }
  }

  lemma OnwardAlways(s: Sys, step: Step, id: nat)
    requires Inv(s) && id < |s.db.jobs| && s.db.jobs[id].status != Created
    ensures ProviderOnward(s, Next(s, step), id)
  {
    if step.ProviderAccepts? || step.CallLost? || step.ProviderMoves? || step.JobUnlisted? || step.JobForgotten?
       || step.CancelRefused? || step.FileLost?
    {
      ProviderMovesOn(s, step, id);
    } else if step.CommitUploading? || step.SendCreate? || step.ReplyArrives? || step.Bind? || step.Crash? {
      WorkerMovesOn(s, step, id);
    } else {
      RecordsOnly(s, step);
    }
  }

  lemma ProviderMovesOn(s: Sys, step: Step, id: nat)
    requires step.ProviderAccepts? || step.CallLost? || step.ProviderMoves? || step.JobUnlisted? || step.JobForgotten?
      || step.CancelRefused? || step.FileLost?
    ensures ProviderOnward(s, Next(s, step), id)
  {
  }

  lemma WorkerMovesOn(s: Sys, step: Step, id: nat)
    requires id < |s.db.jobs| && s.db.jobs[id].status != Created
    requires step.CommitUploading? || step.SendCreate? || step.ReplyArrives? || step.Bind? || step.Crash?
    ensures ProviderOnward(s, Next(s, step), id)
  {
  }

  /** The other steps change records only. */
  lemma RecordsOnly(s: Sys, step: Step)
    requires step.Submit? || step.Adjust? || step.Activate? || step.Archive? || step.Reconcile? || step.Poll?
      || step.Index? || step.Settle? || step.CancelUnstarted? || step.ExpireOutput? || step.UserCancel?
      || step.UserDeletesOutput?
    ensures var t := Next(s, step); t.provider == s.provider && t.inflight == s.inflight && t.worker == s.worker
  {
  }

  /** Binding finds only a provider job that cannot end it. */
  lemma StrandedBound(s: Sys, id: nat, name: string, worker: Worker)
    requires Inv(s) && Stranded(s, id) && s.db.jobs[id].status == Uploading
    requires Owns(s, name, id) && s.provider[name].plain && Learns(s, id, name)
    ensures Stranded(s.(db := BindTx(s.db, id, name), worker := worker), id)
  {
    assert !Hopeful(s, id, name);
  }

  /** A poll gives nothing, "running", or an output that cannot be used. */
  lemma StrandedPolled(s: Sys, id: nat)
    requires Inv(s) && Stranded(s, id) && Free(s, id) && AtProvider(s.db.jobs[id].status)
    ensures Stranded(PollJob(s, id), id)
  {
    var name := s.db.jobs[id].providerJob.value;
    assert Dispatched(s, id) && s.provider[name].plain;
  }

  /** Steps that name another job, or no job. */
  predicate Elsewhere(s: Sys, step: Step, id: nat) {
    match step
    case CommitUploading(i) => i != id
    case Bind => s.worker.ReadyToBind? ==> s.worker.id != id
    case Reconcile(i, _) => i != id
    case Poll(i) => i != id
    case Index(i) => i != id
    case Settle(i) => i != id
    case CancelUnstarted(i) => i != id
    case ExpireOutput(i) => i != id
    case UserCancel(i) => i != id
    case UserDeletesOutput(i) => i != id
    case _ => true
  }

  lemma RowElsewhere(s: Sys, step: Step, id: nat)
    requires id < |s.db.jobs| && Elsewhere(s, step, id)
    ensures RowKept(s, Next(s, step), id)
  {
    match step
    case Submit(_) => RowOutside(s, step, id);
    case Adjust(_, _) => RowOutside(s, step, id);
    case Activate(_, _) => RowOutside(s, step, id);
    case Archive(_) => RowOutside(s, step, id);
    case Settle(k) => SettleElsewhere(s, k, id);
    case UserCancel(k) => UserCancelElsewhere(s, k, id);
    case CancelUnstarted(k) => CancelElsewhere(s, k, id);
    case Poll(k) => PollElsewhere(s, k, id);
    case _ => RowPlain(s, step, id);
  }

  lemma RowOutside(s: Sys, step: Step, id: nat)
    requires id < |s.db.jobs| && (step.Submit? || step.Adjust? || step.Activate? || step.Archive?)
    ensures RowKept(s, Next(s, step), id)
  {
  }

  lemma RowPlain(s: Sys, step: Step, id: nat)
    requires id < |s.db.jobs| && Elsewhere(s, step, id) && !step.Submit? && !step.Settle? && !step.UserCancel?
    requires !step.CancelUnstarted? && !step.Poll?
    ensures RowKept(s, Next(s, step), id)
  {
  }

  lemma SettleElsewhere(s: Sys, k: nat, id: nat)
    requires id < |s.db.jobs| && k != id
    ensures RowKept(s, Next(s, Settle(k)), id)
  {
    if k < |s.db.jobs| { SettleTouchesOnly(s.db, k, id); }
  }

  lemma CancelElsewhere(s: Sys, k: nat, id: nat)
    requires id < |s.db.jobs| && k != id
    ensures RowKept(s, Next(s, CancelUnstarted(k)), id)
  {
    if k < |s.db.jobs| { FailTouchesOnly(s.db, k, id, Cancelled); }
  }

  lemma UserCancelElsewhere(s: Sys, k: nat, id: nat)
    requires id < |s.db.jobs| && k != id
    ensures RowKept(s, Next(s, UserCancel(k)), id)
  {
    if k < |s.db.jobs| { FailTouchesOnly(s.db, k, id, Cancelled); }
  }

  lemma PollElsewhere(s: Sys, k: nat, id: nat)
    requires id < |s.db.jobs| && k != id
    ensures RowKept(s, Next(s, Poll(k)), id)
  {
    if Free(s, k) && AtProvider(s.db.jobs[k].status) && s.db.jobs[k].providerJob.Some?
    && s.db.jobs[k].providerJob.value in s.provider {
      match s.provider[s.db.jobs[k].providerJob.value].state
      case ProviderCancelled => FailTouchesOnly(s.db, k, id, Cancelled);
      case ProviderFailed => FailTouchesOnly(s.db, k, id, Failed);
      case Expired => FailTouchesOnly(s.db, k, id, Failed);
      case _ =>
    }
  }

  lemma SettleTouchesOnly(db: Db, k: nat, id: nat)
    requires id < |db.jobs| && k < |db.jobs| && k != id
    ensures SettleTx(db, k).Ok? ==>
      |SettleTx(db, k).value.jobs| == |db.jobs| && SettleTx(db, k).value.jobs[id] == db.jobs[id]
  {
  }

  lemma FailTouchesOnly(db: Db, k: nat, id: nat, status: Status)
    requires id < |db.jobs| && k < |db.jobs| && k != id && (status == Failed || status == Cancelled)
    ensures var r := FailTx(db, k, status); r.Ok? ==> |r.value.jobs| == |db.jobs| && r.value.jobs[id] == db.jobs[id]
  {
  }

  /** Steps that name the stranded job and find nothing to do. */
  lemma RowHere(s: Sys, step: Step, id: nat)
    requires Inv(s) && Stranded(s, id) && !Elsewhere(s, step, id) && !step.Bind? && !step.Reconcile? && !step.Poll?
    ensures RowKept(s, Next(s, step), id)
  {
  }

  lemma StrandedStep(s: Sys, step: Step, id: nat)
    requires Inv(s) && Stranded(s, id)
    ensures Stranded(Next(s, step), id)
  {
    OnwardAlways(s, step, id);
    if Elsewhere(s, step, id) {
      RowElsewhere(s, step, id);
      StrandedKept(s, Next(s, step), id);
    } else if step.Bind? {
      StrandedBound(s, id, s.worker.name, Idle);
    } else if step.Reconcile? {
      if Free(s, id) && s.db.jobs[id].status == Uploading
      && Found(s, step.name, id) { StrandedBound(s, id, step.name, s.worker); }
    } else if step.Poll? {
      if Free(s, id) && AtProvider(s.db.jobs[id].status) { StrandedPolled(s, id); }
    } else {
      RowHere(s, step, id);
      StrandedKept(s, Next(s, step), id);
    }
  }

  /** A stranded job stays stranded in every continuation, and its hold stays frozen. */
  lemma {:induction false} StrandedForever(s: Sys, steps: seq<Step>, id: nat)
    requires Inv(s) && Stranded(s, id)
    ensures Stranded(Run(s, steps), id) && Outstanding(Run(s, steps).db, id)
  {
    RunKeepsInv(s, steps);
    if steps != [] {
      var front := steps[..|steps| - 1];
      StrandedForever(s, front, id);
      RunKeepsInv(s, front);
      StrandedStep(Run(s, front), steps[|steps| - 1], id);
    }
    assert JobOk(Run(s, steps).db, id);
  }

  // ---- The other direction: every job that is not stranded can be finished -------------------------------------

  lemma FinishAfter(s: Sys, step: Step, id: nat)
    requires CanFinish(Next(s, step), id)
    ensures CanFinish(s, id)
  {
    var steps :| id < |Run(Next(s, step), steps).db.jobs| && Terminal(Run(Next(s, step), steps).db.jobs[id].status);
    Runs.RunAfter(Next, s, step, steps);
    assert Terminal(Run(s, [step] + steps).db.jobs[id].status);
  }

  lemma FinishedNow(s: Sys, id: nat)
    requires id < |s.db.jobs| && Terminal(s.db.jobs[id].status)
    ensures CanFinish(s, id)
  {
    assert Run(s, []) == s;
  }

  lemma FinishIndexing(s: Sys, id: nat)
    requires Inv(s) && Free(s, id) && s.db.jobs[id].status == Indexing && !Stranded(s, id)
    ensures CanFinish(s, id)
  {
    var t := Next(s, Index(id));
    StepKeepsInv(s, Index(id));
    assert Dispatched(s, id);
    assert t.db.jobs[id].status == Settling;
    FinishSettling(t, id);
    FinishAfter(s, Index(id), id);
  }

  lemma FinishSettling(s: Sys, id: nat)
    requires Inv(s) && Free(s, id) && s.db.jobs[id].status == Settling
    ensures CanFinish(s, id)
  {
    SettleKeepsLedger(s.db, id);
    FinishedNow(Next(s, Settle(id)), id);
    FinishAfter(s, Settle(id), id);
  }

  lemma FinishAtProvider(s: Sys, id: nat)
    requires Inv(s) && Free(s, id) && AtProvider(s.db.jobs[id].status) && !Stranded(s, id)
    ensures CanFinish(s, id)
  {
    assert Dispatched(s, id);
    var name := s.db.jobs[id].providerJob.value;
    if Final(s.provider[name].state) {
      FinishEnded(s, id, name);
    } else {
      var t := Next(s, ProviderMoves(name, ProviderFailed));
      StepKeepsInv(s, ProviderMoves(name, ProviderFailed));
      FinishEnded(t, id, name);
      FinishAfter(s, ProviderMoves(name, ProviderFailed), id);
    }
  }

  lemma FinishEnded(s: Sys, id: nat, name: string)
    requires Inv(s) && Free(s, id) && AtProvider(s.db.jobs[id].status)
    requires s.db.jobs[id].providerJob == Some(name) && name in s.provider && Final(s.provider[name].state)
      && Hopeful(s, id, name)
    ensures CanFinish(s, id)
  {
    StepKeepsInv(s, Poll(id));
    PollClosesOrIndexes(s, id, name);
    var t := Next(s, Poll(id));
    if Terminal(t.db.jobs[id].status) {
      FinishedNow(t, id);
    } else {
      FinishIndexing(t, id);
    }
    FinishAfter(s, Poll(id), id);
  }

  lemma PollClosesOrIndexes(s: Sys, id: nat, name: string)
    requires Ledger(s.db) && Free(s, id) && AtProvider(s.db.jobs[id].status)
    requires s.db.jobs[id].providerJob == Some(name) && name in s.provider && Final(s.provider[name].state)
      && Hopeful(s, id, name)
    ensures var t := Next(s, Poll(id));
      Free(t, id) && !Stranded(t, id) && (Terminal(t.db.jobs[id].status) || t.db.jobs[id].status == Indexing)
  {
    match s.provider[name].state
    case Succeeded(output) => PollIndexes(s, id, name, output);
    case _ => PollCloses(s, id, name);
  }

  lemma PollCloses(s: Sys, id: nat, name: string)
    requires Ledger(s.db) && Free(s, id) && AtProvider(s.db.jobs[id].status) && s.db.jobs[id].providerJob == Some(name)
    requires name in s.provider && RefundState(s.provider[name].state) && Polls(s.db.jobs[id], s.provider[name])
    ensures var t := Next(s, Poll(id));
      Free(t, id) && (t.db.jobs[id].status == Failed || t.db.jobs[id].status == Cancelled)
  {
    FailKeepsLedger(s.db, id, if s.provider[name].state == ProviderCancelled then Cancelled else Failed);
  }

  lemma PollIndexes(s: Sys, id: nat, name: string, output: Output)
    requires Free(s, id) && AtProvider(s.db.jobs[id].status) && s.db.jobs[id].providerJob == Some(name)
    requires name in s.provider && s.provider[name].state == Succeeded(output) && Polls(s.db.jobs[id], s.provider[name])
    requires output.plain && Usable(s, id, output)
    ensures var t := Next(s, Poll(id)); Free(t, id) && !Stranded(t, id) && t.db.jobs[id].status == Indexing
  {
    var t := s.(db := OutputReadyTx(s.db, id, output.ref));
    assert Next(s, Poll(id)) == t;
    assert t.db.jobs[id].items == s.db.jobs[id].items;
  }

  lemma FinishFound(s: Sys, id: nat, name: string)
    requires Inv(s) && Free(s, id) && s.db.jobs[id].status == Uploading
    requires Owns(s, name, id) && Hopeful(s, id, name) && s.provider[name].listed
    ensures CanFinish(s, id)
  {
    StepKeepsInv(s, Reconcile(id, name));
    FinishAtProvider(Next(s, Reconcile(id, name)), id);
    FinishAfter(s, Reconcile(id, name), id);
  }

  /** The provider always has a name it has not used. */
  lemma {:induction false} LongerThanAll(names: set<string>) returns (n: nat)
    ensures forall name :: name in names ==> |name| < n
  {
    n := 0;
    if names != {} {
      var one :| one in names;
      n := LongerThanAll(names - {one});
      n := if |one| < n then n else |one| + 1;
    }
  }

  lemma FinishSent(s: Sys, id: nat)
    requires Inv(s) && Free(s, id) && s.db.jobs[id].status == Uploading && id in s.inflight
    ensures CanFinish(s, id)
  {
    var n := LongerThanAll(s.provider.Keys);
    var unused := seq(n, _ => 'x');
    assert unused !in s.provider;
    var accepted := ProviderAccepts(id, unused, true);
    StepKeepsInv(s, accepted);
    FinishFound(Next(s, accepted), id, unused);
    FinishAfter(s, accepted, id);
  }

  lemma FinishIdle(s: Sys, id: nat)
    requires Inv(s) && Free(s, id) && !Stranded(s, id)
    ensures CanFinish(s, id)
  {
    match s.db.jobs[id].status
    case Created =>
      FailKeepsLedger(s.db, id, Cancelled);
      FinishedNow(Next(s, UserCancel(id)), id);
      FinishAfter(s, UserCancel(id), id);
    case Uploading =>
      if id in s.inflight {
        FinishSent(s, id);
      } else {
        var name :| Owns(s, name, id) && Hopeful(s, id, name) && Learns(s, id, name);
        FinishFound(s, id, name);
      }
    case Submitted => FinishAtProvider(s, id);
    case Running => FinishAtProvider(s, id);
    case Indexing => FinishIndexing(s, id);
    case Settling => FinishSettling(s, id);
    case _ => FinishedNow(s, id);
  }

  /** The worker holds the name, or is about to: it binds the job. */
  lemma FinishBinding(s: Sys, id: nat, name: string)
    requires Inv(s) && s.worker == ReadyToBind(id, name) && Hopeful(s, id, name)
    ensures CanFinish(s, id)
  {
    StepKeepsInv(s, Bind);
    FinishAtProvider(Next(s, Bind), id);
    FinishAfter(s, Bind, id);
  }

  lemma FinishReplied(s: Sys, id: nat, name: string)
    requires Inv(s) && s.worker == AwaitingReply(id) && Owns(s, name, id) && Hopeful(s, id, name)
    ensures CanFinish(s, id)
  {
    StepKeepsInv(s, ReplyArrives(name));
    FinishBinding(Next(s, ReplyArrives(name)), id, name);
    FinishAfter(s, ReplyArrives(name), id);
  }

  lemma FinishCrashed(s: Sys, id: nat)
    requires Inv(s) && id < |s.db.jobs| && !Stranded(s.(worker := Idle), id)
    ensures CanFinish(s, id)
  {
    StepKeepsInv(s, Crash);
    FinishIdle(Next(s, Crash), id);
    FinishAfter(s, Crash, id);
  }

  /** A crash strands a job only by losing a reply or a name that listings no longer give. */
  lemma CrashSpares(s: Sys, id: nat)
    requires id < |s.db.jobs| && s.worker != ReadyToCreate(id) && !Stranded(s, id)
    requires forall name :: Owns(s, name, id) && Hopeful(s, id, name) && Learns(s, id, name) ==> s.provider[name].listed
    ensures !Stranded(s.(worker := Idle), id)
  {
    var t := s.(worker := Idle);
    if s.db.jobs[id].status == Uploading && Findable(s, id) {
      var name :| Owns(s, name, id) && Hopeful(s, id, name) && Learns(s, id, name);
      assert Owns(t, name, id) && Hopeful(t, id, name) && Learns(t, id, name);
    }
  }

  lemma FinishWaiting(s: Sys, id: nat)
    requires Inv(s) && id < |s.db.jobs| && s.worker != ReadyToCreate(id) && !Stranded(s, id)
    ensures CanFinish(s, id)
  {
    if name :| Owns(s, name, id) && Hopeful(s, id, name) && Learns(s, id, name) && !s.provider[name].listed {
      if s.worker == AwaitingReply(id) { FinishReplied(s, id, name); } else { FinishBinding(s, id, name); }
    } else {
      CrashSpares(s, id);
      FinishCrashed(s, id);
    }
  }

  lemma FinishReady(s: Sys, id: nat)
    requires Inv(s) && id < |s.db.jobs| && s.worker == ReadyToCreate(id)
    ensures CanFinish(s, id)
  {
    StepKeepsInv(s, SendCreate);
    FinishCrashed(Next(s, SendCreate), id);
    FinishAfter(s, SendCreate, id);
  }

  /** A job can still be finished exactly when it is not stranded. */
  lemma CanFinishUnlessStranded(s: Sys, id: nat)
    requires Inv(s) && id < |s.db.jobs|
    ensures CanFinish(s, id) <==> !Stranded(s, id)
  {
    if Stranded(s, id) {
      forall steps ensures id < |Run(s, steps).db.jobs| ==> !Terminal(Run(s, steps).db.jobs[id].status) {
        StrandedForever(s, steps, id);
      }
    } else if s.worker == ReadyToCreate(id) {
      FinishReady(s, id);
    } else {
      FinishWaiting(s, id);
    }
  }

  // ---- Ways to get there --------------------------------------------------------------------------------------

  /** One crash between the commit and the call is enough, from any state with an idle worker and a new job. */
  lemma CrashStrands(s: Sys, id: nat)
    requires Inv(s) && Free(s, id) && s.db.jobs[id].status == Created
    ensures Stranded(Next(Next(s, CommitUploading(id)), Crash), id)
  {
    assert Dispatched(s, id);
    NeverOwned(s, id);
  }

  /** So is a create call that the provider refuses or that does not arrive. */
  lemma LostCallStrands(s: Sys, id: nat)
    requires Inv(s) && s.worker == AwaitingReply(id) && id in s.inflight
    ensures Stranded(Next(s, CallLost(id)), id)
  {
    forall name ensures !Owns(s, name, id) {
      assert name in s.provider ==> s.provider[name].display !in s.inflight;
    }
  }

  /** And so is an output with an unsafe reference, an unreadable file, or a line for an unknown or repeated item. */
  lemma BadOutputStrands(s: Sys, id: nat, output: Output)
    requires Inv(s) && id < |s.db.jobs| && AtProvider(s.db.jobs[id].status)
    requires var name := s.db.jobs[id].providerJob;
      name.Some? && name.value in s.provider && !Final(s.provider[name.value].state)
    requires !output.plain || !Usable(s, id, output)
    ensures Stranded(Next(s, ProviderMoves(s.db.jobs[id].providerJob.value, Succeeded(output))), id)
  {
  }

  /** The job is bound to a provider job, as every job at the provider is. */
  predicate HasProviderJob(s: Sys, id: nat) {
    id < |s.db.jobs| && s.db.jobs[id].providerJob.Some? && s.db.jobs[id].providerJob.value in s.provider
  }

  /** And so is a wish to cancel that the provider refuses to carry out: every later cycle ends at the cancel call,
      whatever the job has produced. */
  lemma RefusedCancelStrands(s: Sys, id: nat)
    requires Inv(s) && id < |s.db.jobs| && AtProvider(s.db.jobs[id].status) && HasProviderJob(s, id)
    requires s.db.jobs[id].cancelRequested
    ensures Stranded(Next(s, CancelRefused(s.db.jobs[id].providerJob.value)), id)
  {
    assert Dispatched(s, id);
  }

  /** The other way round, a client's cancel strands a job whose provider no longer takes one. */
  lemma LateCancelStrands(s: Sys, id: nat)
    requires Inv(s) && Free(s, id) && AtProvider(s.db.jobs[id].status) && HasProviderJob(s, id)
    requires !s.provider[s.db.jobs[id].providerJob.value].cancellable
    ensures Stranded(Next(s, UserCancel(id)), id)
  {
    assert Dispatched(s, id);
  }

  /** And a provider job that ends in a state the worker does not know. */
  lemma UnknownStateStrands(s: Sys, id: nat)
    requires Inv(s) && id < |s.db.jobs| && AtProvider(s.db.jobs[id].status) && HasProviderJob(s, id)
    requires !Final(s.provider[s.db.jobs[id].providerJob.value].state)
    ensures Stranded(Next(s, ProviderMoves(s.db.jobs[id].providerJob.value, Unrecognized)), id)
  {
    assert Dispatched(s, id);
  }

  lemma NeverOwned(s: Sys, id: nat)
    requires Inv(s) && Attempts(s, id) == 0
    ensures id !in s.inflight && forall name :: !Owns(s, name, id)
  {
    forall name ensures !Owns(s, name, id) {
      assert name in s.provider ==> Attempts(s, s.provider[name].display) == 1;
    }
  }
}
