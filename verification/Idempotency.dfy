/** Client request idempotency: one durable record per scope and key, claimed before work starts and completed when
    its response is known. A record still "processing" is never taken over, however old it is. */
module Idempotency {
  import opened Outcomes
  import Runs

  const MAX_BODY := 16777216
  const DAY := 86400

  /** Scope and key; their digests are injective, so the values themselves stand for them. */
  datatype Id = Id(scope: string, key: string)

  datatype Status = Processing | Succeeded | Failed

  datatype Record = Record(fingerprint: string, status: Status, code: int, body: Option<string>, expires: int)

  datatype Claim = NoKey | InvalidKey | Mismatch | InProgress | TooLarge | Replay(code: int, body: string) | Claimed

  predicate ValidKey(key: string) {
    |key| <= 128 && forall i :: 0 <= i < |key| ==> '!' <= key[i] <= '~'
  }

  /** The record a claim can see: unexpired, or still processing. */
  predicate Visible(records: map<Id, Record>, id: Id, now: int) {
    id in records && (records[id].expires > now || records[id].status == Processing)
  }

  function ClaimOutcome(records: map<Id, Record>, id: Id, fingerprint: string, now: int): Claim {
    if id.key == "" then NoKey
    else if !ValidKey(id.key) then InvalidKey
    else if !Visible(records, id, now) then Claimed
    else if records[id].fingerprint != fingerprint then Mismatch
    else if records[id].status == Processing then InProgress
    else if records[id].body.None? then TooLarge
    else Replay(records[id].code, records[id].body.value)
  }

  function AfterClaim(records: map<Id, Record>, id: Id, fingerprint: string, now: int): map<Id, Record> {
    if ClaimOutcome(records, id, fingerprint, now) == Claimed then records[id := Record(fingerprint, Processing, 0,
        None, now + DAY)]
    else records
  }

  /** The completion update, guarded by fingerprint and status. */
  function AfterFinish(records: map<Id, Record>, id: Id, fingerprint: string, status: Status, code: int,
      body: Option<string>): map<Id, Record> {
    if id in records && records[id].fingerprint == fingerprint && records[id].status == Processing then
      records[id := records[id].(status := status, code := code, body := body)]
    else records
  }

  function StoredBody(written: string): Option<string> {
    if |written| <= MAX_BODY then Some(written) else None
  }

  function StoredCode(code: int): int {
    if code == 0 then 500 else code
  }

  function StoredStatus(code: int, succeeded: bool): Status {
    if 200 <= StoredCode(code) < 300 && succeeded then Succeeded else Failed
  }

  /** The response writer that mirrors what the client receives, up to the replay limit. */
  class ResponseWriter {
    var status: int
    var body: string
    var oversized: bool
    var succeeded: bool
    ghost var written: string

    ghost predicate Valid()
      reads this
    {
      (oversized <==> |written| > MAX_BODY) && body == if oversized then "" else written
    }

    constructor ()
      ensures Valid() && written == "" && status == 0 && !succeeded
    {
      status, body, oversized, succeeded, written := 0, "", false, false, "";
    }

    method WriteHeader(code: int)
      modifies this`status
      ensures status == if old(status) == 0 then code else old(status)
    {
      if status == 0 {
        status := code;
      }
    }

    method Write(b: string)
      requires Valid()
      modifies this
      ensures Valid() && written == old(written) + b && succeeded == old(succeeded)
      ensures status == if old(status) == 0 then 200 else old(status)
    {
      if status == 0 {
        WriteHeader(200);
      }
      if |body| + |b| > MAX_BODY {
        oversized := true;
        body := "";
      }
      if !oversized {
        body := body + b;
      }
      written := written + b;
    }

    /** What the completion stores: the whole response, or nothing when it is too large to replay. */
    method Finish() returns (state: Status, code: int, response: Option<string>)
      requires Valid()
      ensures state == StoredStatus(status, succeeded) && code == StoredCode(status)
      ensures response == StoredBody(written)
    {
      code := status;
      if code == 0 {
        code := 500;
      }
      state := if 200 <= code < 300 && succeeded then Succeeded else Failed;
      response := if oversized then None else Some(body);
    }
  }

  /** The record table as the claim and the completion change it. */
  class Records {
    var rows: map<Id, Record>

    constructor ()
      ensures rows == map[]
    {
      rows := map[];
    }

    method ClaimRequest(id: Id, fingerprint: string, now: int) returns (outcome: Claim)
      modifies this
      ensures outcome == ClaimOutcome(old(rows), id, fingerprint, now)
      ensures rows == AfterClaim(old(rows), id, fingerprint, now)
    {
      if id.key == "" {
        return NoKey;
      }
      if |id.key| > 128 {
        return InvalidKey;
      }
      for i := 0 to |id.key|
        invariant forall k :: 0 <= k < i ==> '!' <= id.key[k] <= '~'
      {
        if id.key[i] < '!' || id.key[i] > '~' {
          return InvalidKey;
        }
      }
      if id in rows && (rows[id].expires > now || rows[id].status == Processing) {
        var row := rows[id];
        if row.fingerprint != fingerprint {
          return Mismatch;
        }
        if row.status == Processing {
          return InProgress;
        }
        if row.body.None? {
          return TooLarge;
        }
        return Replay(row.code, row.body.value);
      }
      rows := rows[id := Record(fingerprint, Processing, 0, None, now + DAY)];
      outcome := Claimed;
    }

    method FinishRequest(id: Id, fingerprint: string, writer: ResponseWriter)
      requires writer.Valid()
      modifies this
      ensures rows == AfterFinish(old(rows), id, fingerprint, StoredStatus(writer.status, writer.succeeded),
                                  StoredCode(writer.status), StoredBody(writer.written))
    {
      var state, code, response := writer.Finish();
      if id in rows && rows[id].fingerprint == fingerprint && rows[id].status == Processing {
        rows := rows[id := rows[id].(status := state, code := code, body := response)];
      }
    }
  }

  // ---- Runs: claims, writes, completions, crashes and the passing of time -------------------------------------

  datatype Fate = Working | Finished | Dead

  /** One execution: the claim it holds and the response it has produced so far. */
  datatype Exec = Exec(id: Id, fingerprint: string, at: int, fate: Fate, written: string, code: int, succeeded: bool)

  /** `owner` names, for each record, the execution that claimed it last; it only serves the statements below. */
  datatype Sys = Sys(records: map<Id, Record>, now: int, execs: seq<Exec>, owner: map<Id, nat>)

  datatype Step =
    | Request(id: Id, fingerprint: string)
    | Respond(n: nat, bytes: string, code: int, succeeded: bool)
    | Complete(n: nat)
    | CompletionLost(n: nat)   // the completion update failed; the row stays processing
    | Crash                    // every execution in progress dies
    | Pass(seconds: nat)

  predicate Working?(s: Sys, n: nat) {
    n < |s.execs| && s.execs[n].fate == Working
  }

  function Cut(x: Exec): Exec {
    if x.fate == Working then x.(fate := Dead) else x
  }

  function Next(s: Sys, step: Step): Sys {
    match step
    case Request(id, fingerprint) =>
      if ClaimOutcome(s.records, id, fingerprint, s.now) != Claimed then
        s.(records := AfterClaim(s.records, id, fingerprint, s.now))
      else s.(records := AfterClaim(s.records, id, fingerprint, s.now),
              execs := s.execs + [Exec(id, fingerprint, s.now, Working, "", 0, false)],
              owner := s.owner[id := |s.execs|])
    case Respond(n, bytes, code, succeeded) =>
      if !Working?(s, n) then s
      else s.(execs := s.execs[n :=
          s.execs[n].(written := s.execs[n].written + bytes, code := code, succeeded := succeeded)])
    case Complete(n) =>
      if !Working?(s, n) then s
      else
        var x := s.execs[n];
        s.(records := AfterFinish(s.records, x.id, x.fingerprint, StoredStatus(x.code, x.succeeded),
            StoredCode(x.code), StoredBody(x.written)),
           execs := s.execs[n := x.(fate := Finished)])
    case CompletionLost(n) => if Working?(s, n) then s.(execs := s.execs[n := s.execs[n].(fate := Dead)]) else s
    case Crash => s.(execs := seq(|s.execs|, i requires 0 <= i < |s.execs| => Cut(s.execs[i])))
    case Pass(seconds) => s.(now := s.now + seconds)
  }

  function Run(s: Sys, steps: seq<Step>): Sys {
    Runs.Run(Next, s, steps)
  }

  /** The record is exactly what the execution left. */
  predicate Describes(r: Record, x: Exec) {
    && r.fingerprint == x.fingerprint && r.expires == x.at + DAY
    && (x.fate == Finished <==> r.status != Processing)
    && (x.fate == Finished ==>
         r.status == StoredStatus(x.code, x.succeeded) && r.code == StoredCode(x.code)
           && r.body == StoredBody(x.written))
  }

  predicate Separated(x: Exec, y: Exec) {
    x.id == y.id ==> x.fate == Finished && x.at + DAY <= y.at
  }

  predicate Owned(s: Sys, id: Id) {
    && id in s.records && id in s.owner && s.owner[id] < |s.execs|
    && s.execs[s.owner[id]].id == id && Describes(s.records[id], s.execs[s.owner[id]])
  }

  predicate InOrder(s: Sys, n: nat)
    requires n < |s.execs|
  {
    s.execs[n].id in s.owner && n <= s.owner[s.execs[n].id] && s.execs[n].at <= s.now
  }

  ghost predicate Inv(s: Sys) {
    && s.owner.Keys == s.records.Keys
    && (forall id :: id in s.owner ==> Owned(s, id))
    && (forall n: nat :: n < |s.execs| ==> InOrder(s, n))
    && (forall m: nat, n: nat :: m < n < |s.execs| ==> Separated(s.execs[m], s.execs[n]))
  }

  predicate Last(s: Sys, n: nat) {
    n < |s.execs| && s.execs[n].id in s.owner && s.owner[s.execs[n].id] == n
  }

  lemma UnfinishedIsLast(s: Sys, n: nat)
    requires Inv(s) && n < |s.execs| && s.execs[n].fate != Finished
    ensures Last(s, n)
  {
    assert InOrder(s, n) && Owned(s, s.execs[n].id);
    var m := s.owner[s.execs[n].id];
    assert n < m ==> Separated(s.execs[n], s.execs[m]);
  }

  lemma ClaimSeparates(s: Sys, id: Id, m: nat)
    requires Inv(s) && m < |s.execs| && s.execs[m].id == id && !Visible(s.records, id, s.now)
    ensures s.execs[m].fate == Finished && s.execs[m].at + DAY <= s.now
  {
    assert InOrder(s, m) && Owned(s, id);
    var n := s.owner[id];
    assert m < n ==> Separated(s.execs[m], s.execs[n]);
  }

  lemma RequestKeepsInv(s: Sys, id: Id, fingerprint: string)
    requires Inv(s) && ClaimOutcome(s.records, id, fingerprint, s.now) == Claimed
    ensures Inv(Next(s, Request(id, fingerprint)))
  {
    var t := Next(s, Request(id, fingerprint));
    var k := |s.execs|;
    forall i | i in t.owner ensures Owned(t, i) {
      assert i != id ==> Owned(s, i);
    }
    forall n: nat | n < |t.execs| ensures InOrder(t, n) {
      assert n < k ==> InOrder(s, n);
    }
    forall m: nat, n: nat | m < n < |t.execs| ensures Separated(t.execs[m], t.execs[n]) {
      if n < k { assert Separated(s.execs[m], s.execs[n]); }
      else if s.execs[m].id == id { ClaimSeparates(s, id, m); }
    }
  }

  predicate SameClaim(x: Exec, y: Exec) {
    y.id == x.id && y.fingerprint == x.fingerprint && y.at == x.at && (x.fate == Finished ==> y == x)
  }

  /** Executions change in place: same claims, no finished one reopened, and the record follows. */
  lemma ExecsKeepInv(s: Sys, t: Sys)
    requires Inv(s) && |t.execs| == |s.execs| && t.now >= s.now && t.owner == s.owner
      && t.records.Keys == s.records.Keys
    requires forall n: nat :: n < |s.execs| ==> SameClaim(s.execs[n], t.execs[n])
    requires forall id :: id in s.owner && Owned(s, id) ==> Describes(t.records[id], t.execs[s.owner[id]])
    ensures Inv(t)
  {
    forall id | id in t.owner ensures Owned(t, id) {
      assert Owned(s, id) && SameClaim(s.execs[s.owner[id]], t.execs[s.owner[id]]);
    }
    forall n: nat | n < |t.execs| ensures InOrder(t, n) {
      assert InOrder(s, n) && SameClaim(s.execs[n], t.execs[n]);
    }
    forall m: nat, n: nat | m < n < |t.execs| ensures Separated(t.execs[m], t.execs[n]) {
      assert Separated(s.execs[m], s.execs[n]) && SameClaim(s.execs[m], t.execs[m])
        && SameClaim(s.execs[n], t.execs[n]);
    }
  }

  lemma CompleteKeepsInv(s: Sys, n: nat)
    requires Inv(s) && Working?(s, n)
    ensures Inv(Next(s, Complete(n)))
  {
    UnfinishedIsLast(s, n);
    assert Owned(s, s.execs[n].id);
    ExecsKeepInv(s, Next(s, Complete(n)));
  }

  lemma StepKeepsInv(s: Sys, step: Step)
    requires Inv(s)
    ensures Inv(Next(s, step))
  {
    match step
    case Request(id, fingerprint) =>
      if ClaimOutcome(s.records, id, fingerprint, s.now) == Claimed { RequestKeepsInv(s, id, fingerprint); }
    case Complete(n) => if Working?(s, n) { CompleteKeepsInv(s, n); }
    case _ => ExecsKeepInv(s, Next(s, step));
  }

  lemma {:induction false} RunKeepsInv(s: Sys, steps: seq<Step>)
    requires Inv(s)
    ensures Inv(Run(s, steps))
  {
    if steps != [] {
      RunKeepsInv(s, steps[..|steps| - 1]);
      StepKeepsInv(Run(s, steps[..|steps| - 1]), steps[|steps| - 1]);
    }
  }

  /** At most one execution per key at a time: whenever two executions of one key exist, the earlier one completed
      and its record had expired, a day after it was claimed, before the later one was allowed to start. */
  lemma ExecutionsNeverOverlap(start: int, steps: seq<Step>, m: nat, n: nat)
    requires var s := Run(Sys(map[], start, [], map[]), steps); m < n < |s.execs| && s.execs[m].id == s.execs[n].id
    ensures var s := Run(Sys(map[], start, [], map[]), steps);
      s.execs[m].fate == Finished && s.execs[m].at + DAY <= s.execs[n].at
  {
    RunKeepsInv(Sys(map[], start, [], map[]), steps);
    var s := Run(Sys(map[], start, [], map[]), steps);
    assert Separated(s.execs[m], s.execs[n]);
  }

  lemma DeadStays(s: Sys, step: Step, n: nat)
    requires n < |s.execs| && s.execs[n].fate == Dead
    ensures n < |Next(s, step).execs| && Next(s, step).execs[n] == s.execs[n]
  {
  }

  /** An interrupted execution holds its key for good: after any further steps and any amount of time, every valid
      claim on it is refused. */
  lemma {:induction false} NeverStolen(s: Sys, steps: seq<Step>, n: nat, fingerprint: string)
    requires Inv(s) && n < |s.execs| && s.execs[n].fate == Dead
    requires s.execs[n].id.key != "" && ValidKey(s.execs[n].id.key)
    ensures var t := Run(s, steps);
      && n < |t.execs| && t.execs[n] == s.execs[n]
      && ClaimOutcome(t.records, s.execs[n].id, fingerprint, t.now)
        == if fingerprint == s.execs[n].fingerprint then InProgress else Mismatch
  {
    RunKeepsInv(s, steps);
    if steps != [] {
      NeverStolen(s, steps[..|steps| - 1], n, fingerprint);
      DeadStays(Run(s, steps[..|steps| - 1]), steps[|steps| - 1], n);
    }
    UnfinishedIsLast(Run(s, steps), n);
    assert Owned(Run(s, steps), s.execs[n].id);
  }

  /** Until it expires, a completed request only replays: the same request gets the recorded response, byte for byte
      what was written, or a conflict when it was too large; another request gets a conflict; nothing changes. */
  lemma ReplayIsFaithful(s: Sys, n: nat, fingerprint: string)
    requires Inv(s) && Last(s, n) && s.execs[n].fate == Finished && s.now < s.execs[n].at + DAY
    requires s.execs[n].id.key != "" && ValidKey(s.execs[n].id.key)
    ensures var x := s.execs[n];
      && Next(s, Request(x.id, fingerprint)) == s
      && ClaimOutcome(s.records, x.id, fingerprint, s.now) ==
           (if fingerprint != x.fingerprint then Mismatch
            else if |x.written| > MAX_BODY then TooLarge
            else Replay(StoredCode(x.code), x.written))
  {
    assert Owned(s, s.execs[n].id);
  }

  /** A completion always lands on the row its own claim made, and on no other. */
  lemma CompletionIsOwn(s: Sys, n: nat)
    requires Inv(s) && Working?(s, n)
    ensures var x := s.execs[n]; var t := Next(s, Complete(n));
      && x.id in t.records && t.records[x.id] == Record(x.fingerprint, StoredStatus(x.code, x.succeeded),
          StoredCode(x.code), StoredBody(x.written), x.at + DAY)
      && t.records - {x.id} == s.records - {x.id}
  {
    UnfinishedIsLast(s, n);
    assert Owned(s, s.execs[n].id);
  }
}
