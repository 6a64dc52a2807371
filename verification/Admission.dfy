/** The gateway's admission state: slot counters, queue lengths and the broadcast wake channel, as the methods that
    hold the gateway mutex change it.

    A channel is a number. `made` counts the channels created so far and `wake` is the current one, so a channel is
    closed once it was made and is no longer current. */
module Admission {
  import opened Outcomes

  datatype Kind = UserKind | AccountKind | OtherKind(name: string)

  datatype Key = Key(kind: Kind, id: int)

  datatype Gate = Gate(
    active: map<Key, int>, waiting: map<Key, int>, queued: int, wake: Option<nat>, made: nat, stopped: bool, lost: bool)

  const MAX_QUEUED := 128

  function QueueLimit(kind: Kind): int {
    if kind == UserKind then 20 else 100
  }

  function At(m: map<Key, int>, k: Key): int {
    if k in m then m[k] else 0
  }

  function Put(m: map<Key, int>, k: Key, n: int): map<Key, int> {
    if n <= 0 then m - {k} else m[k := n]
  }

  predicate Positive(m: map<Key, int>) {
    forall k :: k in m ==> m[k] > 0
  }

  predicate Closed(g: Gate, channel: nat) {
    channel < g.made && g.wake != Some(channel)
  }

  /** Channels are current in the order they were made. */
  predicate Valid(g: Gate) {
    && Positive(g.active) && Positive(g.waiting)
    && (match g.wake case None => g.made == 0 case Some(c) => c + 1 == g.made)
  }

  /** `takeSlot`'s test. */
  predicate Admits(g: Gate, k: Key, limit: int) {
    !g.stopped && !g.lost && limit > 0 && At(g.active, k) < limit
  }

  function Taken(g: Gate, k: Key): Gate {
    g.(active := Put(g.active, k, At(g.active, k) + 1))
  }

  function Woken(g: Gate): Gate {
    g.(wake := Some(g.made), made := g.made + 1)
  }

  function Released(g: Gate, k: Key): Gate {
    Woken(g.(active := Put(g.active, k, At(g.active, k) - 1)))
  }

  function Stopped(g: Gate): Gate {
    Woken(g.(stopped := true))
  }

  /** The gate after `admissionWake`, which makes the first channel on demand. */
  function Listening(g: Gate): Gate {
    if g.wake.Some? then g else Woken(g)
  }

  predicate QueueHasRoom(g: Gate, k: Key) {
    At(g.waiting, k) < QueueLimit(k.kind) && g.queued < MAX_QUEUED
  }

  function Queued(g: Gate, k: Key): Gate {
    g.(waiting := Put(g.waiting, k, At(g.waiting, k) + 1), queued := g.queued + 1)
  }

  function Dequeued(g: Gate, k: Key): Gate {
    g.(waiting := Put(g.waiting, k, At(g.waiting, k) - 1), queued := g.queued - 1)
  }

  /** Taking a slot and giving it back leaves every counter as it was, but wakes every waiter. */
  lemma TakeReleaseCancels(g: Gate, k: Key)
    requires Valid(g)
    ensures Released(Taken(g, k), k) == Woken(g)
  {
    assert Put(Put(g.active, k, At(g.active, k) + 1), k, At(g.active, k)) == g.active;
  }

  lemma GateStepsValid(g: Gate, k: Key)
    requires Valid(g)
    ensures Valid(Taken(g, k)) && Valid(Released(g, k)) && Valid(Stopped(g)) && Valid(Listening(g))
      && Listening(g).wake.Some?
    ensures Valid(Queued(g, k)) && Valid(Dequeued(g, k))
  {
  }

  /** A candidate account as `chooseAccount` sees it, in scheduling order: whether it fits the request, its slot
      limit, and what the check after taking its slot says. */
  datatype Recheck = Passes | Fails | DatabaseError

  datatype Candidate = Candidate(id: int, concurrency: int, eligible: bool, recheck: Recheck)

  datatype Choice = Selected(id: int) | Busy(id: int) | NoUpstream | Failure

  function AccountKey(id: int): Key {
    Key(AccountKind, id)
  }

  predicate Full(g: Gate, c: Candidate) {
    c.eligible && !Admits(g, AccountKey(c.id), c.concurrency)
  }

  /** Tried and given back, or not tried at all: the loop moves on. */
  predicate PassedOver(g: Gate, c: Candidate) {
    !c.eligible || Full(g, c) || c.recheck == Fails
  }

  predicate FirstBusy(g: Gate, candidates: seq<Candidate>, n: nat, i: int)
    requires n <= |candidates|
  {
    && 0 <= i < n && Full(g, candidates[i]) && candidates[i].concurrency > 0
    && forall k :: 0 <= k < i ==> !(Full(g, candidates[k]) && candidates[k].concurrency > 0)
  }

  predicate FirstFit(g: Gate, candidates: seq<Candidate>, i: int) {
    && 0 <= i < |candidates| && candidates[i].eligible && candidates[i].recheck == Passes
    && Admits(g, AccountKey(candidates[i].id), candidates[i].concurrency)
    && forall k :: 0 <= k < i ==> PassedOver(g, candidates[k])
  }

  /** The first candidate not passed over takes a slot and its recheck cannot be answered. */
  predicate FirstFailure(g: Gate, candidates: seq<Candidate>, i: int) {
    && 0 <= i < |candidates| && candidates[i].eligible && candidates[i].recheck == DatabaseError
    && Admits(g, AccountKey(candidates[i].id), candidates[i].concurrency)
    && forall k :: 0 <= k < i ==> PassedOver(g, candidates[k])
  }

  datatype Attempt = Unfit | NoSlot | Kept | GivenBack | Broken

  function AttemptOf(g: Gate, c: Candidate): Attempt {
    if !c.eligible then Unfit
    else if !Admits(g, AccountKey(c.id), c.concurrency) then NoSlot
    else match c.recheck case Passes => Kept case Fails => GivenBack case DatabaseError => Broken
  }

  function AfterAttempt(g: Gate, c: Candidate): Gate {
    match AttemptOf(g, c)
    case Kept => Taken(g, AccountKey(c.id))
    case GivenBack => Woken(g)
    case Broken => Woken(g)
    case _ => g
  }

  class Gateway {
    var active: map<Key, int>
    var waiting: map<Key, int>
    var queued: int
    var wake: Option<nat>
    var made: nat
    var stopped: bool
    var lost: bool

    ghost function View(): Gate
      reads this
    {
      Gate(active, waiting, queued, wake, made, stopped, lost)
    }

    constructor ()
      ensures View() == Gate(map[], map[], 0, None, 0, false, false)
    {
      active, waiting, queued, wake, made, stopped, lost := map[], map[], 0, None, 0, false, false;
    }

    method TakeSlot(k: Key, limit: int) returns (ok: bool)
      modifies this`active
      ensures ok == Admits(old(View()), k, limit)
      ensures View() == if ok then Taken(old(View()), k) else old(View())
      ensures ok && Valid(old(View())) ==> 0 < At(active, k) <= limit
    {
      var n := if k in active then active[k] else 0;
      if stopped || lost || limit <= 0 || n >= limit {
        return false;
      }
      if n + 1 <= 0 { active := active - {k}; } else { active := active[k := n + 1]; }
      ok := true;
    }

    method WakeLocked()
      modifies this`wake, this`made
      ensures View() == Woken(old(View()))
    {
      wake := Some(made);
      made := made + 1;
    }

    method ReleaseSlot(k: Key)
      modifies this`active, this`wake, this`made
      ensures View() == Released(old(View()), k)
    {
      var n := (if k in active then active[k] else 0) - 1;
      active := active[k := n];
      if n <= 0 {
        active := active - {k};
      }
      WakeLocked();
    }

    method StopAdmission()
      modifies this`stopped, this`wake, this`made
      ensures View() == Stopped(old(View()))
    {
      stopped := true;
      WakeLocked();
    }

    method AdmissionWake() returns (channel: Option<nat>)
      requires Valid(View())
      modifies this`wake, this`made
      ensures channel.None? <==> stopped || lost
      ensures View() == if channel.Some? then Listening(old(View())) else old(View())
      ensures channel.Some? ==> channel == wake && !Closed(View(), channel.value)
    {
      if stopped || lost {
        return None;
      }
      if wake.None? {
        WakeLocked();
      }
      channel := wake;
    }

    method Enqueue(k: Key) returns (ok: bool)
      requires Valid(View())
      modifies this`waiting, this`queued
      ensures ok == QueueHasRoom(old(View()), k)
      ensures View() == if ok then Queued(old(View()), k) else old(View())
    {
      var n := if k in waiting then waiting[k] else 0;
      if n >= QueueLimit(k.kind) || queued >= MAX_QUEUED {
        return false;
      }
      waiting := waiting[k := n + 1];
      queued := queued + 1;
      ok := true;
    }

    method Dequeue(k: Key)
      requires Valid(View()) && k in waiting
      modifies this`waiting, this`queued
      ensures View() == Dequeued(old(View()), k)
    {
      waiting := waiting[k := waiting[k] - 1];
      if waiting[k] == 0 {
        waiting := waiting - {k};
      }
      queued := queued - 1;
    }

    /** One candidate of the loop: not tried, refused a slot, kept, or given its slot back. */
    method TryCandidate(c: Candidate) returns (a: Attempt)
      requires Valid(View())
      modifies this`active, this`wake, this`made
      ensures Valid(View()) && a == AttemptOf(old(View()), c)
      ensures View() == AfterAttempt(old(View()), c)
    {
      if !c.eligible {
        return Unfit;
      }
      ghost var g := View();
      GateStepsValid(g, AccountKey(c.id));
      TakeReleaseCancels(g, AccountKey(c.id));
      var taken := TakeSlot(AccountKey(c.id), c.concurrency);
      if !taken {
        return NoSlot;
      }
      if c.recheck == Passes {
        return Kept;
      }
      ReleaseSlot(AccountKey(c.id));
      a := if c.recheck == DatabaseError then Broken else GivenBack;
    }

    /** `chooseAccount`'s slot loop. It keeps exactly one slot when it selects an account and none otherwise, selects
        the first candidate in order that fits, has a free slot and passes the recheck, and names as busy the first
        fitting candidate that had no free slot. */
    method ChooseAccount(candidates: seq<Candidate>) returns (choice: Choice)
      requires Valid(View())
      modifies this`active, this`wake, this`made
      ensures Valid(View()) && made >= old(made)
      ensures active == if choice.Selected? then Taken(old(View()), AccountKey(choice.id)).active else old(active)
      ensures choice.Selected? ==> exists i :: FirstFit(old(View()), candidates, i) && candidates[i].id == choice.id
      ensures choice.Failure? ==> exists i :: FirstFailure(old(View()), candidates, i)
      ensures choice.Busy? ==>
        exists i :: FirstBusy(old(View()), candidates, |candidates|, i) && candidates[i].id == choice.id
      ensures choice.Busy? || choice.NoUpstream? ==>
        forall k :: 0 <= k < |candidates| ==> PassedOver(old(View()), candidates[k])
      ensures choice.NoUpstream? ==>
        forall k :: 0 <= k < |candidates| ==> !(Full(old(View()), candidates[k]) && candidates[k].concurrency > 0)
      ensures made > old(made) ==>
        exists k :: 0 <= k < |candidates| && candidates[k].eligible && candidates[k].recheck != Passes
    {
      ghost var g := View();
      var busy: Option<int> := None;
      for n := 0 to |candidates|
        invariant View() == g.(wake := wake, made := made) && Valid(View()) && made >= g.made
        invariant forall k :: 0 <= k < n ==> PassedOver(g, candidates[k])
        invariant busy.None? ==> forall k :: 0 <= k < n ==> !(Full(g, candidates[k]) && candidates[k].concurrency > 0)
        invariant busy.Some? ==> exists i :: FirstBusy(g, candidates, n, i) && candidates[i].id == busy.value
        invariant made > g.made ==> exists k :: 0 <= k < n && candidates[k].eligible && candidates[k].recheck != Passes
      {
        var c := candidates[n];
        var attempt := TryCandidate(c);
        match attempt {
          case NoSlot =>
            if busy.None? && c.concurrency > 0 {
              busy := Some(c.id);
              assert FirstBusy(g, candidates, n + 1, n);
            }
          case Kept =>
            assert FirstFit(g, candidates, n);
            return Selected(c.id);
          case Broken =>
            assert FirstFailure(g, candidates, n);
            return Failure;
          case _ =>
        }
        if busy.Some? && !FirstBusy(g, candidates, n + 1, n) {
          ghost var i :| FirstBusy(g, candidates, n, i) && candidates[i].id == busy.value;
          assert FirstBusy(g, candidates, n + 1, i);
        }
      }
      choice := if busy.Some? then Busy(busy.value) else NoUpstream;
    }
  }
}
