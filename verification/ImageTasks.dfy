/** Asynchronous image tasks: a durable record and a pending set, worked through by one worker that may be cut at any
    point. A Redis transaction is one step; the settlement receipt lives in the billing tables. */
module ImageTasks {
  import opened Outcomes
  import Runs

  const MAX_PENDING := 32

  datatype Status = Processing | Completed | Failed

  datatype Stage = Queued | Running | Settling | Done

  /** The billing receipt a checkpoint carries: the request it names and whether its owner and fingerprint match. */
  datatype Receipt = Receipt(request: string, consistent: bool)

  datatype Task = Task(status: Status, stage: Stage, http: int, receipt: Option<Receipt>, hasResult: bool)

  datatype Store = Store(tasks: map<string, Task>, pending: set<string>)

  /** `saveImageTask`: record and pending set change together. */
  function Save(s: Store, id: string, task: Task): Store {
    Store(s.tasks[id := task], if task.status == Processing then s.pending + {id} else s.pending - {id})
  }

  /** The admission script: refuse when the set is full. */
  function Admit(s: Store, id: string): Store {
    if |s.pending| >= MAX_PENDING then s
    else Store(s.tasks[id := Task(Processing, Queued, 0, None, false)], s.pending + {id})
  }

  function Finished(task: Task): Task {
    var ok := 200 <= task.http < 300;
    Task(if ok then Completed else Failed, Done, task.http, None, ok && task.hasResult)
  }

  predicate Settleable(id: string, task: Task) {
    task.receipt.Some? && task.receipt.value.request == id && task.receipt.value.consistent
  }

  /** The HTTP status a run without a checkpoint ends with. */
  function FailureStatus(recorded: int): int {
    if recorded < 400 then 503 else recorded
  }

  /** The store as its methods update it. */
  class TaskStore {
    var tasks: map<string, Task>
    var pending: set<string>

    ghost function View(): Store
      reads this
    {
      Store(tasks, pending)
    }

    constructor ()
      ensures View() == Store(map[], {})
    {
      tasks, pending := map[], {};
    }

    method SaveImageTask(id: string, task: Task)
      modifies this
      ensures View() == Save(old(View()), id, task)
    {
      tasks := tasks[id := task];
      if task.status == Processing {
        pending := pending + {id};
      } else {
        pending := pending - {id};
      }
    }

    method AdmitTask(id: string) returns (ok: bool)
      modifies this
      ensures ok == (|old(pending)| < MAX_PENDING)
      ensures View() == Admit(old(View()), id)
    {
      if |pending| >= MAX_PENDING {
        return false;
      }
      tasks := tasks[id := Task(Processing, Queued, 0, None, false)];
      pending := pending + {id};
      ok := true;
    }

    method FinishImageTask(id: string, task: Task)
      modifies this
      ensures View() == Save(old(View()), id, Finished(task))
    {
      var done := task.(status := Completed);
      if task.http < 200 || task.http >= 300 {
        done := done.(status := Failed, hasResult := false);
      }
      SaveImageTask(id, done.(stage := Done, receipt := None));
    }

    /** Keep what is needed to bill and publish without another upstream request. */
    method CheckpointImageTask(id: string, task: Task, receipt: Receipt, stored: bool)
      modifies this
      ensures View() == Save(old(View()), id, task.(stage := Settling, http := if stored then 200
        else 502, receipt := Some(receipt), hasResult := stored))
    {
      var next := task.(stage := Settling, receipt := Some(receipt), http := 200, hasResult := stored);
      if !stored {
        next := next.(http := 502);
      }
      SaveImageTask(id, next);
    }
  }

  // ---- Runs -----------------------------------------------------------------------------------------------

  /** Where the worker stands between two durable effects. */
  datatype Worker = Idle | InGateway(id: string, sent: bool) | ReceiptSaved(id: string)

  /** `sent` counts gateway dispatches per task, `receipts` holds the request IDs whose receipt is applied, and
      `used` the task IDs ever drawn. */
  datatype Sys = Sys(store: Store, worker: Worker, sent: map<string, nat>, receipts: set<string>, used: set<string>)

  datatype Step =
    | Accept(id: string)                            // asyncImageTask with a fresh ID
    | Reject(id: string, http: int)                 // queued, but its request or key is gone
    | Begin(id: string)                             // runImageTask saves "running"
    | Dispatch                                      // the gateway sends the request
    | Checkpoint(receipt: Receipt, stored: bool)    // the gateway saves result and receipt
    | Return(recorded: int)                         // the gateway came back without a checkpoint
    | SaveReceipt(id: string)                       // completeImageTask, first half
    | Publish                                       // completeImageTask, second half
    | Interrupted(id: string)                       // recovery finds "running"
    | Crash
    | Forget(id: string)                            // a finished record reaches its retention time

  predicate At(s: Sys, id: string, stage: Stage) {
    id in s.store.tasks && id in s.store.pending && s.store.tasks[id].stage == stage
  }

  function Sent(s: Sys, id: string): nat {
    if id in s.sent then s.sent[id] else 0
  }

  function Next(s: Sys, step: Step): Sys {
    match step
    case Accept(id) => if id in s.used then s else s.(store := Admit(s.store, id), used := s.used + {id})
    case Reject(id, http) =>
      if s.worker == Idle && At(s, id, Queued) && http >= 400 then
        s.(store := Save(s.store, id, Finished(s.store.tasks[id].(http := http))))
      else s
    case Begin(id) =>
      if s.worker == Idle && At(s, id, Queued) then
        s.(store := Save(s.store, id, s.store.tasks[id].(stage := Running)), worker := InGateway(id, false))
      else s
    case Dispatch =>
      if s.worker.InGateway? && !s.worker.sent then
        s.(sent := s.sent[s.worker.id := Sent(s, s.worker.id) + 1], worker := InGateway(s.worker.id, true))
      else s
    case Checkpoint(receipt, stored) =>
      if s.worker.InGateway? && s.worker.sent && At(s, s.worker.id, Running) then
        s.(store := Save(s.store, s.worker.id, s.store.tasks[s.worker.id].(
             stage := Settling, http := if stored then 200 else 502, receipt := Some(receipt), hasResult := stored)))
      else s
    case Return(recorded) =>
      if s.worker.InGateway? && At(s, s.worker.id, Running) then
        s.(store := Save(s.store, s.worker.id, Finished(s.store.tasks[s.worker.id].(http := FailureStatus(recorded)))),
            worker := Idle)
      else s
    case SaveReceipt(id) =>
      if (s.worker == Idle || s.worker == InGateway(id, true)) && At(s, id, Settling)
      && Settleable(id, s.store.tasks[id]) then
        s.(receipts := s.receipts + {id}, worker := ReceiptSaved(id))
      else s
    case Publish =>
      if s.worker.ReceiptSaved? && At(s, s.worker.id, Settling) then
        s.(store := Save(s.store, s.worker.id, Finished(s.store.tasks[s.worker.id])), worker := Idle)
      else s
    case Interrupted(id) =>
      if s.worker == Idle && At(s, id, Running) then
        s.(store := Save(s.store, id, Finished(s.store.tasks[id].(http := 503))))
      else s
    case Crash => s.(worker := Idle)
    case Forget(id) =>
      if id in s.store.tasks && s.store.tasks[id].status != Processing then
        s.(store := s.store.(tasks := s.store.tasks - {id}))
      else s
  }

  function Run(s: Sys, steps: seq<Step>): Sys {
    Runs.Run(Next, s, steps)
  }

  const START := Sys(Store(map[], {}), Idle, map[], {}, {})

  predicate TaskOk(s: Sys, id: string)
    requires id in s.store.tasks
  {
    var task := s.store.tasks[id];
    && id in s.used
    && (task.status == Processing <==> id in s.store.pending)
    && (task.status == Processing <==> task.stage != Done)
    && (task.stage == Queued ==> Sent(s, id) == 0)
    && (task.stage == Settling ==> Sent(s, id) == 1 && task.receipt.Some?)
    && (task.status == Completed ==> id in s.receipts && Sent(s, id) == 1)
    && (task.stage == Done ==> task.receipt.None?)
  }

  predicate WorkerOk(s: Sys) {
    match s.worker
    case Idle => true
    case InGateway(id, sent) =>
      (At(s, id, Running) || (sent && At(s, id, Settling))) && Sent(s, id) == if sent then 1 else 0
    case ReceiptSaved(id) => At(s, id, Settling) && id in s.receipts
  }

  ghost predicate Inv(s: Sys) {
    && s.store.pending <= s.store.tasks.Keys && |s.store.pending| <= MAX_PENDING
    && (forall id :: id in s.store.tasks ==> TaskOk(s, id))
    && (forall id :: id in s.sent ==> id in s.used && s.sent[id] <= 1)
    && (forall id :: id in s.receipts ==> Sent(s, id) == 1)
    && WorkerOk(s)
  }

  function Rank(stage: Stage): nat {
    match stage case Queued => 0 case Running => 1 case Settling => 2 case Done => 3
  }

  /** Records never move backwards, a finished one never changes, and a forgotten one never returns. */
  ghost predicate Forward(s: Sys, t: Sys) {
    && s.used <= t.used && s.receipts <= t.receipts
    && (forall id :: Sent(s, id) <= Sent(t, id))
    && (forall id :: id in t.store.tasks && id in s.used ==> id in s.store.tasks)
    && (forall id :: id in s.store.tasks && id in t.store.tasks ==>
         Rank(s.store.tasks[id].stage) <= Rank(t.store.tasks[id].stage))
    && (forall id :: id in s.store.tasks && s.store.tasks[id].stage == Done && id in t.store.tasks ==>
         t.store.tasks[id] == s.store.tasks[id])
    && (forall id :: id in s.store.tasks && s.store.tasks[id].stage != Done ==> id in t.store.tasks)
  }

  /** One existing record is saved further along. */
  lemma SaveKeepsInv(s: Sys, t: Sys, id: string, task: Task)
    requires Inv(s) && id in s.store.pending && t == s.(store := Save(s.store, id, task), worker := t.worker)
    requires TaskOk(t, id) && WorkerOk(t) && Rank(s.store.tasks[id].stage) < Rank(task.stage)
    ensures Inv(t) && Forward(s, t)
  {
    forall i | i in t.store.tasks ensures TaskOk(t, i) {
      if i != id { assert TaskOk(s, i); }
    }
    assert TaskOk(s, id);
    if task.status == Processing {
      assert s.store.pending + {id} == s.store.pending;
    } else {
      assert |s.store.pending - {id}| == |s.store.pending| - 1;
    }
  }

  lemma WorkerKeepsInv(s: Sys, t: Sys)
    requires Inv(s) && t == s.(worker := t.worker, receipts := t.receipts, sent := t.sent) && WorkerOk(t)
    requires s.receipts <= t.receipts && forall id :: id in t.receipts ==> Sent(t, id) == 1
    requires forall id :: id in t.sent ==> id in s.used && t.sent[id] <= 1
    requires forall id :: Sent(t, id) == Sent(s, id) || (At(s, id, Running) && Sent(s, id) == 0 && Sent(t, id) == 1)
    ensures Inv(t) && Forward(s, t)
  {
    forall i | i in t.store.tasks ensures TaskOk(t, i) {
      assert TaskOk(s, i);
    }
  }

  lemma AcceptKeepsInv(s: Sys, id: string)
    requires Inv(s)
    ensures Inv(Next(s, Accept(id))) && Forward(s, Next(s, Accept(id)))
  {
    var t := Next(s, Accept(id));
    forall i | i in t.store.tasks ensures TaskOk(t, i) {
      if i in s.store.tasks { assert TaskOk(s, i); }
    }
    assert id !in s.used ==> id !in s.store.tasks && id !in s.sent by {
      if id in s.store.tasks { assert TaskOk(s, id); }
    }
  }

  lemma ForgetKeepsInv(s: Sys, id: string)
    requires Inv(s)
    ensures Inv(Next(s, Forget(id))) && Forward(s, Next(s, Forget(id)))
  {
    var t := Next(s, Forget(id));
    forall i | i in t.store.tasks ensures TaskOk(t, i) {
      assert TaskOk(s, i);
    }
    if id in s.store.tasks { assert TaskOk(s, id); }
  }

  lemma IdleStepKeepsInv(s: Sys, step: Step)
    requires Inv(s) && (step.Reject? || step.Begin? || step.Interrupted?)
    ensures Inv(Next(s, step)) && Forward(s, Next(s, step))
  {
    var id := step.id;
    if s.worker == Idle && id in s.store.tasks && id in s.store.pending {
      assert TaskOk(s, id);
      var t := Next(s, step);
      if t != s { SaveKeepsInv(s, t, id, t.store.tasks[id]); }
    }
  }

  lemma GatewayStepKeepsInv(s: Sys, step: Step)
    requires Inv(s) && s.worker != Idle && (step.Checkpoint? || step.Return? || step.Publish?)
    ensures Inv(Next(s, step)) && Forward(s, Next(s, step))
  {
    var id := s.worker.id;
    assert TaskOk(s, id);
    var t := Next(s, step);
    if t != s { SaveKeepsInv(s, t, id, t.store.tasks[id]); }
  }

  lemma MarkStepKeepsInv(s: Sys, step: Step)
    requires Inv(s) && (step.Dispatch? || step.SaveReceipt? || step.Crash?)
    ensures Inv(Next(s, step)) && Forward(s, Next(s, step))
  {
    if step.SaveReceipt? && step.id in s.store.tasks { assert TaskOk(s, step.id); }
    if s.worker != Idle { assert TaskOk(s, s.worker.id); }
    WorkerKeepsInv(s, Next(s, step));
  }

  /** Every step keeps the invariant and moves every record only forward. */
  lemma StepKeepsInv(s: Sys, step: Step)
    requires Inv(s)
    ensures Inv(Next(s, step)) && Forward(s, Next(s, step))
  {
    match step
    case Accept(id) => AcceptKeepsInv(s, id);
    case Forget(id) => ForgetKeepsInv(s, id);
    case Reject(_, _) => IdleStepKeepsInv(s, step);
    case Begin(_) => IdleStepKeepsInv(s, step);
    case Interrupted(_) => IdleStepKeepsInv(s, step);
    case Checkpoint(_, _) => if s.worker != Idle { GatewayStepKeepsInv(s, step); }
    case Return(_) => if s.worker != Idle { GatewayStepKeepsInv(s, step); }
    case Publish => if s.worker != Idle { GatewayStepKeepsInv(s, step); }
    case Dispatch => MarkStepKeepsInv(s, step);
    case SaveReceipt(_) => MarkStepKeepsInv(s, step);
    case Crash => MarkStepKeepsInv(s, step);
  }

  lemma {:induction false} RunKeepsInv(s: Sys, steps: seq<Step>)
    requires Inv(s)
    ensures Inv(Run(s, steps))
  {
    if steps != [] {
      RunKeepsInv(s, steps[..|steps| - 1]);
      StepKeepsInv(Run(s, steps[..|steps| - 1]), steps[|steps| - 1]);
    }
  }

  /** At most once: under any sequence of steps and crashes a task is dispatched at most once, the pending set is
      exactly the tasks in progress and never exceeds its limit, and a completed task was dispatched and billed. */
  lemma TaskDispatchedAtMostOnce(steps: seq<Step>, id: string)
    ensures var s := Run(START, steps);
      && Sent(s, id) <= 1
      && |s.store.pending| <= MAX_PENDING
      && (id in s.store.pending <==> id in s.store.tasks && s.store.tasks[id].status == Processing)
      && (id in s.store.tasks && s.store.tasks[id].status == Completed ==> Sent(s, id) == 1 && id in s.receipts)
      && (id in s.receipts ==> Sent(s, id) == 1)
  {
    RunKeepsInv(START, steps);
    var s := Run(START, steps);
    if id in s.store.tasks { assert TaskOk(s, id); }
  }

  /** Past the queue and out of the worker's hands. */
  predicate LeftQueue(s: Sys, id: string) {
    && id in s.used && (id in s.store.tasks ==> s.store.tasks[id].stage != Queued)
    && (s.worker.InGateway? ==> s.worker.id != id)
  }

  lemma LeftQueueStep(s: Sys, step: Step, id: string)
    requires LeftQueue(s, id)
    ensures LeftQueue(Next(s, step), id) && Sent(Next(s, step), id) == Sent(s, id)
  {
  }

  /** A task that recovery finds past the queue was interrupted: it is never sent again, only settled or failed. */
  lemma {:induction false} InterruptedNeverResent(s: Sys, steps: seq<Step>, id: string)
    requires LeftQueue(s, id)
    ensures LeftQueue(Run(s, steps), id) && Sent(Run(s, steps), id) == Sent(s, id)
  {
    if steps != [] {
      var front := steps[..|steps| - 1];
      InterruptedNeverResent(s, front, id);
      LeftQueueStep(Run(s, front), steps[|steps| - 1], id);
    }
  }

  /** After a crash every task past the queue is in that position. */
  lemma CrashLeavesNoResend(s: Sys, id: string)
    requires Inv(s) && id in s.store.tasks && s.store.tasks[id].stage != Queued
    ensures LeftQueue(Next(s, Crash), id)
  {
    assert TaskOk(s, id);
  }
}
