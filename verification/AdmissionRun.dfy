/** Requests waiting for admission, interleaved in any order. Each mutex section of `waitAdmission`, `takeSlot` and
    `releaseSlot` is one step of one thread; timers, cancellation and configuration may strike at any time. */
module AdmissionRun {
  import opened Outcomes
  import opened Admission
  import opened Sums
  import Runs

  /** A slot a waiter asked for and was refused: the key and the limit it was tried with. */
  datatype Try = Try(key: Key, limit: int)

  /** Where a request stands in `waitAdmission`. From the capture of the wake channel on, it remembers the channel,
      the slots this attempt was refused, and whether the attempt gave a slot back. */
  datatype Pc =
    | Looping
    | Trying(channel: nat, refused: set<Try>, gave: bool)
    | Holding(channel: nat, refused: set<Try>, gave: bool, key: Key)
    | Blocked(channel: nat, refused: set<Try>, gave: bool)
    | Leaving(grant: Option<Key>)
    | Serving(key: Key)
    | Gone

  datatype Thread = Thread(queue: Key, queued: bool, pc: Pc)

  datatype Sys = Sys(gate: Gate, threads: seq<Thread>)

  datatype Step =
    | Arrive(queue: Key)
    | TakeDirectly(key: Key, limit: int)   // handlers that do not queue
    | Track(key: Key)                      // trackKeySlot
    | Expire(t: nat)                       // the context is done at the top of the loop
    | Capture(t: nat)                      // admissionWake
    | TrySlot(t: nat, key: Key, limit: int)
    | Keep(t: nat)                         // the attempt succeeds
    | GiveBack(t: nat)                     // the slot failed a later check
    | AttemptFails(t: nat)                 // the attempt returns an error
    | Retry(t: nat)                        // the context ended during the attempt
    | Sleep(t: nat)                        // queue once, then wait on the channel
    | Wake(t: nat)                         // the channel closed
    | Timer(t: nat)                        // ticker, heartbeat or context
    | PingFails(t: nat)
    | Leave(t: nat)                        // the deferred queue exit
    | Finish(t: nat)                       // the request ends and releases its slot
    | Stop                                 // StopAdmission
    | LoseInstance                         // the instance lock is found lost

  predicate In(s: Sys, t: nat) {
    t < |s.threads|
  }

  function Go(s: Sys, t: nat, pc: Pc): Sys
    requires In(s, t)
  {
    s.(threads := s.threads[t := s.threads[t].(pc := pc)])
  }

  function Next(s: Sys, step: Step): Sys {
    var g := s.gate;
    match step
    case Arrive(queue) => s.(threads := s.threads + [Thread(queue, false, Looping)])
    case TakeDirectly(key, limit) =>
      if Admits(g, key, limit) then Sys(Taken(g, key), s.threads + [Thread(key, false, Serving(key))]) else s
    case Track(key) => Sys(Taken(g, key), s.threads + [Thread(key, false, Serving(key))])
    case Expire(t) => if In(s, t) && s.threads[t].pc == Looping then Go(s, t, Leaving(None)) else s
    case Capture(t) =>
      if !In(s, t) || s.threads[t].pc != Looping then s
      else if g.stopped || g.lost then Go(s, t, Leaving(None))
      else
        var h := Listening(g);
        if h.wake.Some? then Go(s.(gate := h), t, Trying(h.wake.value, {}, false)) else s
    case TrySlot(t, key, limit) =>
      if !In(s, t) || !s.threads[t].pc.Trying? then s
      else
        var pc := s.threads[t].pc;
        if Admits(g, key, limit) then Go(s.(gate := Taken(g, key)), t, Holding(pc.channel, pc.refused, pc.gave, key))
        else Go(s, t, Trying(pc.channel, pc.refused + {Try(key, limit)}, pc.gave))
    case Keep(t) => if In(s, t) && s.threads[t].pc.Holding? then Go(s, t, Leaving(Some(s.threads[t].pc.key))) else s
    case GiveBack(t) =>
      if In(s, t) && s.threads[t].pc.Holding? then
        var pc := s.threads[t].pc;
        Go(s.(gate := Released(g, pc.key)), t, Trying(pc.channel, pc.refused, true))
      else s
    case AttemptFails(t) => if In(s, t) && s.threads[t].pc.Trying? then Go(s, t, Leaving(None)) else s
    case Retry(t) => if In(s, t) && s.threads[t].pc.Trying? then Go(s, t, Looping) else s
    case Sleep(t) =>
      if !In(s, t) || !s.threads[t].pc.Trying? then s
      else
        var th := s.threads[t];
        var asleep := Blocked(th.pc.channel, th.pc.refused, th.pc.gave);
        if th.queued then Go(s, t, asleep)
        else if QueueHasRoom(g, th.queue) then Sys(Queued(g, th.queue), s.threads[t := Thread(th.queue, true, asleep)])
        else Go(s, t, Leaving(None))
    case Wake(t) =>
      if In(s, t) && s.threads[t].pc.Blocked? && Closed(g, s.threads[t].pc.channel) then Go(s, t, Looping) else s
    case Timer(t) => if In(s, t) && s.threads[t].pc.Blocked? then Go(s, t, Looping) else s
    case PingFails(t) => if In(s, t) && s.threads[t].pc.Blocked? then Go(s, t, Leaving(None)) else s
    case Leave(t) =>
      if !In(s, t) || !s.threads[t].pc.Leaving? then s
      else
        var th := s.threads[t];
        var pc := if th.pc.grant.Some? then Serving(th.pc.grant.value) else Gone;
        Sys(if th.queued then Dequeued(g, th.queue) else g, s.threads[t := Thread(th.queue, false, pc)])
    case Finish(t) =>
      if In(s, t) && s.threads[t].pc.Serving? then Go(s.(gate := Released(g, s.threads[t].pc.key)), t, Gone) else s
    case Stop => s.(gate := Stopped(g))
    case LoseInstance => s.(gate := g.(lost := true))
  }

  function Run(s: Sys, steps: seq<Step>): Sys {
    Runs.Run(Next, s, steps)
  }

  // ---- Accounting -----------------------------------------------------------------------------------------

  function Holds(th: Thread, k: Key): int {
    match th.pc
    case Holding(_, _, _, key) => if key == k then 1 else 0
    case Leaving(grant) => if grant == Some(k) then 1 else 0
    case Serving(key) => if key == k then 1 else 0
    case _ => 0
  }

  function Waits(th: Thread, k: Key): int {
    if th.queued && th.queue == k then 1 else 0
  }

  function AllHolds(threads: seq<Thread>, k: Key): seq<int> {
    seq(|threads|, i requires 0 <= i < |threads| => Holds(threads[i], k))
  }

  function AllWaits(threads: seq<Thread>, k: Key): seq<int> {
    seq(|threads|, i requires 0 <= i < |threads| => Waits(threads[i], k))
  }

  function AllQueued(threads: seq<Thread>): seq<int> {
    seq(|threads|, i requires 0 <= i < |threads| => if threads[i].queued then 1 else 0)
  }

  /** The slots of `k` that threads hold, and the threads queued under it. */
  function Grants(s: Sys, k: Key): int {
    Sum(AllHolds(s.threads, k))
  }

  function Waiters(s: Sys, k: Key): int {
    Sum(AllWaits(s.threads, k))
  }

  function AllWaiters(s: Sys): int {
    Sum(AllQueued(s.threads))
  }

  /** Every counter is exactly what the threads hold, and the queues stay within their limits. */
  ghost predicate Accounted(s: Sys) {
    && Valid(s.gate)
    && (forall k :: At(s.gate.active, k) == Grants(s, k))
    && (forall k :: At(s.gate.waiting, k) == Waiters(s, k) && Waiters(s, k) <= QueueLimit(k.kind))
    && s.gate.queued == AllWaiters(s) <= MAX_QUEUED
  }

  // ---- Wakeups --------------------------------------------------------------------------------------------

  predicate Captured(pc: Pc) {
    pc.Trying? || pc.Holding? || pc.Blocked?
  }

  predicate AtLimit(g: Gate, r: Try) {
    r.limit <= 0 || At(g.active, r.key) >= r.limit
  }

  /** While its channel is open, everything a thread was refused is still refused, and it has given nothing back. */
  predicate ThreadOk(g: Gate, th: Thread) {
    Captured(th.pc) ==>
      && th.pc.channel < g.made
      && (g.stopped ==> Closed(g, th.pc.channel))
      && (th.pc.gave ==> Closed(g, th.pc.channel))
      && (!Closed(g, th.pc.channel) && !g.lost ==> forall r :: r in th.pc.refused ==> AtLimit(g, r))
  }

  ghost predicate Inv(s: Sys) {
    Accounted(s) && forall t :: 0 <= t < |s.threads| ==> ThreadOk(s.gate, s.threads[t])
  }

  lemma GrantsUpdate(s: Sys, t: nat, th: Thread, k: Key)
    requires In(s, t)
    ensures Grants(s.(threads := s.threads[t := th]), k) == Grants(s, k) - Holds(s.threads[t], k) + Holds(th, k)
    ensures Waiters(s.(threads := s.threads[t := th]), k) == Waiters(s, k) - Waits(s.threads[t], k) + Waits(th, k)
  {
    assert AllHolds(s.threads[t := th], k) == AllHolds(s.threads, k)[t := Holds(th, k)];
    SumUpdate(AllHolds(s.threads, k), t, Holds(th, k));
    assert AllWaits(s.threads[t := th], k) == AllWaits(s.threads, k)[t := Waits(th, k)];
    SumUpdate(AllWaits(s.threads, k), t, Waits(th, k));
  }

  lemma AllWaitersUpdate(s: Sys, t: nat, th: Thread)
    requires In(s, t)
    ensures AllWaiters(s.(threads := s.threads[t := th])) ==
      AllWaiters(s) - (if s.threads[t].queued then 1 else 0) + (if th.queued then 1 else 0)
  {
    assert AllQueued(s.threads[t := th]) == AllQueued(s.threads)[t := if th.queued then 1 else 0];
    SumUpdate(AllQueued(s.threads), t, if th.queued then 1 else 0);
  }

  lemma GrantsAppend(s: Sys, th: Thread, k: Key)
    ensures Grants(s.(threads := s.threads + [th]), k) == Grants(s, k) + Holds(th, k)
    ensures Waiters(s.(threads := s.threads + [th]), k) == Waiters(s, k) + Waits(th, k)
  {
    assert AllHolds(s.threads + [th], k) == AllHolds(s.threads, k) + [Holds(th, k)];
    SumAppend(AllHolds(s.threads, k), Holds(th, k));
    assert AllWaits(s.threads + [th], k) == AllWaits(s.threads, k) + [Waits(th, k)];
    SumAppend(AllWaits(s.threads, k), Waits(th, k));
  }

  lemma AllWaitersAppend(s: Sys, th: Thread)
    ensures AllWaiters(s.(threads := s.threads + [th])) == AllWaiters(s) + (if th.queued then 1 else 0)
  {
    assert AllQueued(s.threads + [th]) == AllQueued(s.threads) + [if th.queued then 1 else 0];
    SumAppend(AllQueued(s.threads), if th.queued then 1 else 0);
  }

  /** How the gate changes under a thread that is not the one moving: either nothing is released and the current
      channel stays, or every channel handed out so far is closed. */
  ghost predicate Shifts(g: Gate, h: Gate) {
    && Valid(h)
    && (h.made > g.made
        || (h.made == g.made && h.wake == g.wake && h.stopped == g.stopped && (g.lost ==> h.lost)
            && forall k :: At(g.active, k) <= At(h.active, k)))
  }

  lemma ThreadOkShifts(g: Gate, h: Gate, th: Thread)
    requires Valid(g) && Shifts(g, h) && ThreadOk(g, th)
    ensures ThreadOk(h, th)
  {
  }

  /** The counters moved exactly as the thread did. */
  ghost predicate SameMoves(g: Gate, h: Gate, was: Thread, th: Thread) {
    && (forall k :: At(h.active, k) - At(g.active, k) == Holds(th, k) - Holds(was, k))
    && (forall k :: At(h.waiting, k) - At(g.waiting, k) == Waits(th, k) - Waits(was, k))
    && (forall k :: At(h.waiting, k) <= At(g.waiting, k) || At(h.waiting, k) <= QueueLimit(k.kind))
    && h.queued - g.queued == (if th.queued then 1 else 0) - (if was.queued then 1 else 0)
    && (h.queued <= g.queued || h.queued <= MAX_QUEUED)
  }

  lemma MoveKeepsInv(s: Sys, h: Gate, t: nat, th: Thread)
    requires Inv(s) && In(s, t) && Shifts(s.gate, h) && ThreadOk(h, th) && SameMoves(s.gate, h, s.threads[t], th)
    ensures Inv(Sys(h, s.threads[t := th]))
  {
    var after := Sys(h, s.threads[t := th]);
    forall k
      ensures At(h.active, k) == Grants(after, k) && At(h.waiting, k) == Waiters(after, k)
        && Waiters(after, k) <= QueueLimit(k.kind)
    {
      GrantsUpdate(s, t, th, k);
      assert At(s.gate.waiting, k) == Waiters(s, k);
    }
    AllWaitersUpdate(s, t, th);
    forall i | 0 <= i < |after.threads| ensures ThreadOk(h, after.threads[i]) {
      if i != t { ThreadOkShifts(s.gate, h, s.threads[i]); }
    }
  }

  lemma AppendKeepsInv(s: Sys, h: Gate, th: Thread)
    requires Inv(s) && Shifts(s.gate, h) && ThreadOk(h, th) && SameMoves(s.gate, h, Thread(th.queue, false, Gone), th)
    ensures Inv(Sys(h, s.threads + [th]))
  {
    var after := Sys(h, s.threads + [th]);
    forall k
      ensures At(h.active, k) == Grants(after, k) && At(h.waiting, k) == Waiters(after, k)
        && Waiters(after, k) <= QueueLimit(k.kind)
    {
      GrantsAppend(s, th, k);
      assert At(s.gate.waiting, k) == Waiters(s, k);
    }
    AllWaitersAppend(s, th);
    forall i | 0 <= i < |after.threads| ensures ThreadOk(h, after.threads[i]) {
      if i < |s.threads| { ThreadOkShifts(s.gate, h, s.threads[i]); }
    }
  }

  /** A counter that a thread's grant is part of is positive. */
  lemma GrantPositive(s: Sys, t: nat, k: Key)
    requires Inv(s) && In(s, t)
    ensures Holds(s.threads[t], k) <= At(s.gate.active, k) && Waits(s.threads[t], k) <= At(s.gate.waiting, k)
  {
    SumBoundsElement(AllHolds(s.threads, k), t);
    SumBoundsElement(AllWaits(s.threads, k), t);
    assert At(s.gate.active, k) == Grants(s, k) && At(s.gate.waiting, k) == Waiters(s, k);
  }

  /** A move of one thread that leaves the gate alone. */
  lemma LocalMove(s: Sys, t: nat, pc: Pc)
    requires Inv(s) && In(s, t) && ThreadOk(s.gate, s.threads[t].(pc := pc))
    requires forall k :: Holds(s.threads[t].(pc := pc), k) == Holds(s.threads[t], k)
    ensures Inv(Go(s, t, pc))
  {
    MoveKeepsInv(s, s.gate, t, s.threads[t].(pc := pc));
  }

  lemma TrySlotKeepsInv(s: Sys, t: nat, key: Key, limit: int)
    requires Inv(s) && In(s, t) && s.threads[t].pc.Trying?
    ensures Inv(Next(s, TrySlot(t, key, limit)))
  {
    var g, pc := s.gate, s.threads[t].pc;
    assert ThreadOk(g, s.threads[t]);
    if Admits(g, key, limit) {
      GateStepsValid(g, key);
      MoveKeepsInv(s, Taken(g, key), t, s.threads[t].(pc := Holding(pc.channel, pc.refused, pc.gave, key)));
    } else {
      LocalMove(s, t, Trying(pc.channel, pc.refused + {Try(key, limit)}, pc.gave));
    }
  }

  lemma ReleaseKeepsInv(s: Sys, t: nat, key: Key, pc: Pc)
    requires Inv(s) && In(s, t) && Holds(s.threads[t], key) == 1
    requires forall k :: Holds(s.threads[t].(pc := pc), k) == 0
    requires forall k :: k != key ==> Holds(s.threads[t], k) == 0
    requires Captured(pc) ==> pc.channel < s.gate.made
    ensures Inv(Go(s.(gate := Released(s.gate, key)), t, pc))
  {
    GateStepsValid(s.gate, key);
    GrantPositive(s, t, key);
    MoveKeepsInv(s, Released(s.gate, key), t, s.threads[t].(pc := pc));
  }

  lemma SleepKeepsInv(s: Sys, t: nat)
    requires Inv(s) && In(s, t) && s.threads[t].pc.Trying?
    ensures Inv(Next(s, Sleep(t)))
  {
    var g, th := s.gate, s.threads[t];
    assert ThreadOk(g, th);
    var asleep := Blocked(th.pc.channel, th.pc.refused, th.pc.gave);
    if th.queued {
      LocalMove(s, t, asleep);
    } else if QueueHasRoom(g, th.queue) {
      GateStepsValid(g, th.queue);
      MoveKeepsInv(s, Queued(g, th.queue), t, Thread(th.queue, true, asleep));
    } else {
      LocalMove(s, t, Leaving(None));
    }
  }

  lemma LeaveKeepsInv(s: Sys, t: nat)
    requires Inv(s) && In(s, t) && s.threads[t].pc.Leaving?
    ensures Inv(Next(s, Leave(t)))
  {
    var g, th := s.gate, s.threads[t];
    var h, left := if th.queued then Dequeued(g, th.queue) else g, Left(th);
    GateStepsValid(g, th.queue);
    GrantPositive(s, t, th.queue);
    LeavingMoves(g, h, th, left);
    MoveKeepsInv(s, h, t, left);
  }

  function Left(th: Thread): Thread
    requires th.pc.Leaving?
  {
    Thread(th.queue, false, if th.pc.grant.Some? then Serving(th.pc.grant.value) else Gone)
  }

  lemma LeavingMoves(g: Gate, h: Gate, th: Thread, left: Thread)
    requires Valid(g) && th.pc.Leaving? && left == Left(th) && h == if th.queued then Dequeued(g, th.queue) else g
    requires Waits(th, th.queue) <= At(g.waiting, th.queue)
    ensures SameMoves(g, h, th, left)
  {
  }

  lemma CaptureKeepsInv(s: Sys, t: nat)
    requires Inv(s) && In(s, t) && s.threads[t].pc == Looping
    ensures Inv(Next(s, Capture(t)))
  {
    var g := s.gate;
    if g.stopped || g.lost {
      LocalMove(s, t, Leaving(None));
    } else {
      GateStepsValid(g, s.threads[t].queue);
      MoveKeepsInv(s, Listening(g), t, s.threads[t].(pc := Trying(Listening(g).wake.value, {}, false)));
    }
  }

  /** A change of the gate alone. */
  lemma GateMove(s: Sys, h: Gate)
    requires Inv(s) && Shifts(s.gate, h)
    requires h.active == s.gate.active && h.waiting == s.gate.waiting && h.queued == s.gate.queued
    ensures Inv(s.(gate := h))
  {
    forall i | 0 <= i < |s.threads| ensures ThreadOk(h, s.threads[i]) {
      ThreadOkShifts(s.gate, h, s.threads[i]);
    }
    var after := s.(gate := h);
    forall k ensures Grants(after, k) == Grants(s, k) && Waiters(after, k) == Waiters(s, k) {}
  }

  lemma TrackKeepsInv(s: Sys, key: Key)
    requires Inv(s)
    ensures Inv(Sys(Taken(s.gate, key), s.threads + [Thread(key, false, Serving(key))]))
  {
    GateStepsValid(s.gate, key);
    AppendKeepsInv(s, Taken(s.gate, key), Thread(key, false, Serving(key)));
  }

  lemma ThreadStepKeepsInv(s: Sys, step: Step)
    requires Inv(s)
    requires step.Expire? || step.Keep? || step.AttemptFails? || step.Retry? || step.Wake? || step.Timer?
    || step.PingFails?
    ensures Inv(Next(s, step))
  {
    var t := Next(s, step);
    if t != s {
      LocalMove(s, step.t, t.threads[step.t].pc);
    }
  }

  lemma SlotStepKeepsInv(s: Sys, step: Step)
    requires Inv(s) && (step.Capture? || step.TrySlot? || step.GiveBack? || step.Sleep? || step.Leave? || step.Finish?)
    requires In(s, step.t)
    ensures Inv(Next(s, step))
  {
    var pc := s.threads[step.t].pc;
    match step
    case Capture(t) => if pc == Looping { CaptureKeepsInv(s, t); }
    case TrySlot(t, key, limit) => if pc.Trying? { TrySlotKeepsInv(s, t, key, limit); }
    case GiveBack(t) =>
      if pc.Holding? {
        assert ThreadOk(s.gate, s.threads[t]);
        ReleaseKeepsInv(s, t, pc.key, Trying(pc.channel, pc.refused, true));
      }
    case Sleep(t) => if pc.Trying? { SleepKeepsInv(s, t); }
    case Leave(t) => if pc.Leaving? { LeaveKeepsInv(s, t); }
    case Finish(t) => if pc.Serving? { ReleaseKeepsInv(s, t, pc.key, Gone); }
  }

  /** Every step of every thread keeps the counters exact and the wakeup promise. */
  lemma StepKeepsInv(s: Sys, step: Step)
    requires Inv(s)
    ensures Inv(Next(s, step))
  {
    match step
    case Arrive(queue) => AppendKeepsInv(s, s.gate, Thread(queue, false, Looping));
    case TakeDirectly(key, limit) => if Admits(s.gate, key, limit) { TrackKeepsInv(s, key); }
    case Track(key) => TrackKeepsInv(s, key);
    case Stop =>
      GateStepsValid(s.gate, Key(UserKind, 0));
      GateMove(s, Stopped(s.gate));
    case LoseInstance => GateMove(s, s.gate.(lost := true));
    case Capture(t) => if In(s, t) { SlotStepKeepsInv(s, step); }
    case TrySlot(t, _, _) => if In(s, t) { SlotStepKeepsInv(s, step); }
    case GiveBack(t) => if In(s, t) { SlotStepKeepsInv(s, step); }
    case Sleep(t) => if In(s, t) { SlotStepKeepsInv(s, step); }
    case Leave(t) => if In(s, t) { SlotStepKeepsInv(s, step); }
    case Finish(t) => if In(s, t) { SlotStepKeepsInv(s, step); }
    case _ => ThreadStepKeepsInv(s, step);
  }

  // ---- Whole runs -----------------------------------------------------------------------------------------

  const START := Sys(Gate(map[], map[], 0, None, 0, false, false), [])

  lemma {:induction false} RunKeepsInv(s: Sys, steps: seq<Step>)
    requires Inv(s)
    ensures Inv(Run(s, steps))
  {
    if steps != [] {
      RunKeepsInv(s, steps[..|steps| - 1]);
      StepKeepsInv(Run(s, steps[..|steps| - 1]), steps[|steps| - 1]);
    }
  }

  lemma Reachable(steps: seq<Step>)
    ensures Inv(Run(START, steps))
  {
    assert forall k :: Grants(START, k) == 0 && Waiters(START, k) == 0;
    RunKeepsInv(START, steps);
  }

  /** Admission accounting: after any run each counter is the number of slots actually out, each queue counter the
      number of threads registered, and the queues are within 20 per user, 100 per other key and 128 in all. */
  lemma AdmissionAccounting(steps: seq<Step>, k: Key)
    ensures var s := Run(START, steps);
      && At(s.gate.active, k) == Grants(s, k)
      && At(s.gate.waiting, k) == Waiters(s, k) <= QueueLimit(k.kind)
      && s.gate.queued == AllWaiters(s) <= MAX_QUEUED
  {
    Reachable(steps);
  }

  /** No lost wakeup: a request asleep on a channel that is still open is right to sleep, because every slot its
      attempt was refused is still taken, unless the instance lock was lost. */
  lemma NoLostWakeup(steps: seq<Step>, t: nat, r: Try)
    requires var s := Run(START, steps); In(s, t) && s.threads[t].pc.Blocked? && r in s.threads[t].pc.refused
    ensures var s := Run(START, steps);
      AtLimit(s.gate, r) || s.gate.lost || Next(s, Wake(t)).threads[t].pc == Looping
  {
    Reachable(steps);
    assert ThreadOk(Run(START, steps).gate, Run(START, steps).threads[t]);
  }

  /** Losing the instance lock closes no channel, so the promise above needs its exception: here a request sleeps on
      the open channel although its user has no active request at all. Only its timer will wake it. */
  lemma LostInstanceLeavesSleeper(user: int)
    ensures var k := Key(UserKind, user);
      var s := Run(START, [Arrive(k), Capture(0), LoseInstance, TrySlot(0, k, 1), Sleep(0)]);
      && In(s, 0) && s.threads[0].pc.Blocked? && Try(k, 1) in s.threads[0].pc.refused
      && !Closed(s.gate, s.threads[0].pc.channel) && At(s.gate.active, k) == 0
  {
    var k := Key(UserKind, user);
    var g := Gate(map[], map[], 0, Some(0), 1, false, false);
    var s1 := Sys(START.gate, [Thread(k, false, Looping)]);
    var s2 := Sys(g, [Thread(k, false, Trying(0, {}, false))]);
    var s3 := Sys(g.(lost := true), s2.threads);
    var s4 := Sys(s3.gate, [Thread(k, false, Trying(0, {Try(k, 1)}, false))]);
    assert s1 == Next(START, Arrive(k)) && s2 == Next(s1, Capture(0)) && s3 == Next(s2, LoseInstance);
    assert s4 == Next(s3, TrySlot(0, k, 1)) by {
      assert {} + {Try(k, 1)} == {Try(k, 1)};
    }
    FiveSteps(START, Arrive(k), Capture(0), LoseInstance, TrySlot(0, k, 1), Sleep(0));
  }

  lemma FiveSteps(s: Sys, a: Step, b: Step, c: Step, d: Step, e: Step)
    ensures Run(s, [a, b, c, d, e]) == Next(Next(Next(Next(Next(s, a), b), c), d), e)
  {
    assert [a, b, c, d, e][..4] == [a, b, c, d] && [a, b, c, d][..3] == [a, b, c] && [a, b, c][..2] == [a, b]
      && [a, b][..1] == [a] && [a][..0] == [];
    assert Run(s, []) == s;
    assert Run(s, [a]) == Next(s, a);
    assert Run(s, [a, b]) == Next(Next(s, a), b);
    assert Run(s, [a, b, c]) == Next(Next(Next(s, a), b), c);
    assert Run(s, [a, b, c, d]) == Next(Next(Next(Next(s, a), b), c), d);
  }

  /** A request whose own attempt gave a slot back never sleeps: its release closed the channel it would wait on. */
  lemma GivingBackWakesItself(steps: seq<Step>, t: nat)
    requires var s := Run(START, steps); In(s, t) && s.threads[t].pc.Blocked? && s.threads[t].pc.gave
    ensures Next(Run(START, steps), Wake(t)).threads[t].pc == Looping
  {
    Reachable(steps);
    assert ThreadOk(Run(START, steps).gate, Run(START, steps).threads[t]);
  }

  lemma StopStays(s: Sys, step: Step)
    requires s.gate.stopped
    ensures Next(s, step).gate.stopped
  {
  }

  /** After StopAdmission every sleeper can wake, nothing is ever admitted again, and a request that reaches the top
      of its loop leaves. */
  lemma {:induction false} ShutdownDrains(before: seq<Step>, after: seq<Step>, t: nat)
    requires Run(START, before).gate.stopped
    ensures var s := Run(Run(START, before), after);
      && s.gate.stopped
      && (forall k, limit :: !Admits(s.gate, k, limit))
      && (In(s, t) && s.threads[t].pc.Blocked? ==> Next(s, Wake(t)).threads[t].pc == Looping)
      && (In(s, t) && s.threads[t].pc == Looping ==> Next(s, Capture(t)).threads[t].pc == Leaving(None))
  {
    if after != [] {
      ShutdownDrains(before, after[..|after| - 1], t);
      StopStays(Run(Run(START, before), after[..|after| - 1]), after[|after| - 1]);
    }
    Reachable(before);
    RunKeepsInv(Run(START, before), after);
    var s := Run(Run(START, before), after);
    if In(s, t) { assert ThreadOk(s.gate, s.threads[t]); }
  }

  /** A slot is granted only within the limit it was asked with. */
  lemma GrantsWithinLimit(steps: seq<Step>, step: Step, k: Key, limit: int)
    requires step == TakeDirectly(k, limit) || (step.TrySlot? && step.key == k && step.limit == limit)
    ensures var s := Run(START, steps); var s' := Next(s, step);
      Grants(s', k) != Grants(s, k) ==> Grants(s', k) == Grants(s, k) + 1 <= limit && !s.gate.stopped
  {
    Reachable(steps);
    StepKeepsInv(Run(START, steps), step);
    var s := Run(START, steps);
    assert At(s.gate.active, k) == Grants(s, k);
    assert At(Next(s, step).gate.active, k) == Grants(Next(s, step), k);
  }
}
