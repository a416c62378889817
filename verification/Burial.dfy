/** For every configuration, a run without faults that takes one job through all its attempts to the dead letters. */
module Burial {
  import opened Options
  import opened Queue
  import opened Delivery
  import opened Fate

  const ERR := "e"

  /** The job's envelope before attempt r. */
  function Nth(c: Config, r: nat): Envelope
  {
    if r == 0 then FirstEnvelope(c) else FirstEnvelope(c).(retryCount := r, lastError := ERR)
  }

  function Claims(c: Config, r: nat): map<Attempt, nat>
  {
    if c.dedup then map i: int | 0 <= i < r :: Attempt(0, i) := c.dedupTtl else map[]
  }

  /** What holds all along: nothing but the job, at time 0. */
  ghost predicate Alone(c: Config, s: State)
    requires c.Valid()
  {
    && s.now == 0 && s.operators == map[] && s.strays == [] && s.duplicates == 0
    && |s.streams| == c.partitions
    && (forall q: nat :: q < c.partitions && q != Home(c, EVENT) ==> s.streams[q] == EMPTY_STREAM)
    && s.h.accepted == map[0 := EVENT] && s.h.wins == [] && s.h.won == {} && s.h.erased == {}
  }

  /** The home stream holds the envelopes of attempts 0 to n - 1, those before `next` delivered. */
  ghost predicate HomeHas(c: Config, s: State, n: nat, next: nat, pel: map<nat, Pending>)
    requires c.Valid()
  {
    var p := Home(c, EVENT);
    && p < |s.streams| && s.streams[p].base == 0 && s.streams[p].next == next && s.streams[p].pel == pel
    && |s.streams[p].log| == n && forall i :: 0 <= i < n ==> s.streams[p].log[i] == Job(Nth(c, i))
  }

  const NO_LETTERS := Dlq([], 0, {})

  /** Attempts 0 to r - 1 have failed and the copy for attempt r waits. */
  ghost predicate Tried(c: Config, s: State, r: nat)
    requires c.Valid()
  {
    Alone(c, s) && HomeHas(c, s, r + 1, r, map[]) && s.tasks == map[] && s.keys == Claims(c, r) && s.dlq == NO_LETTERS
  }

  function Worker(c: Config, r: nat, pc: Pc): map<nat, Task>
    requires c.Valid()
  {
    map[0 := Task(0, Home(c, EVENT), r, Nth(c, r), pc)]
  }

  /** A goroutine has attempt r and stands at `pc`. */
  ghost predicate Taken(c: Config, s: State, r: nat, pc: Pc, claims: nat)
    requires c.Valid()
  {
    && Alone(c, s) && HomeHas(c, s, r + 1, r + 1, map[r := Pending(0, 0)])
    && s.tasks == Worker(c, r, pc) && s.keys == Claims(c, claims) && s.dlq == NO_LETTERS
  }

  function Letter(c: Config): DlqEntry
    requires c.Valid()
  {
    DlqEntry(c.maxRetries - 1, Nth(c, c.maxRetries), ERR, 0)
  }

  /** All attempts have failed and the job is the one dead letter. */
  ghost predicate Buried(c: Config, s: State)
    requires c.Valid()
  {
    && Alone(c, s) && HomeHas(c, s, c.maxRetries, c.maxRetries, map[])
    && s.tasks == map[] && s.keys == Claims(c, c.maxRetries) && s.dlq == Dlq([Letter(c)], 0, {})
  }

  // ---- The steps ----

  lemma Begin(c: Config)
    requires c.Valid()
    ensures CanEnqueue(c, Init(c), 0, EVENT, 0) && Tried(c, DoEnqueue(c, Init(c), 0, EVENT, Ok, 0), 0)
  {
    var s := DoEnqueue(c, Init(c), 0, EVENT, Ok, 0);
    assert s.keys == Claims(c, 0);
  }

  lemma Take(c: Config, s: State, r: nat)
    requires c.Valid() && Tried(c, s, r)
    ensures CanDeliver(s, 0, Home(c, EVENT))
    ensures Taken(c, DoDeliver(c, s, 0, 0, Home(c, EVENT)), r, if c.dedup then Checking else Calling, r)
  {
    var s' := DoDeliver(c, s, 0, 0, Home(c, EVENT));
    assert s'.tasks == Worker(c, r, if c.dedup then Checking else Calling);
    assert s'.streams[Home(c, EVENT)].pel == map[r := Pending(0, 0)];
  }

  lemma Pass(c: Config, s: State, r: nat)
    requires c.Valid() && c.dedup && Taken(c, s, r, Checking, r)
    ensures AtPc(s, 0, Checking) && AttemptOf(s.tasks[0].env) !in s.keys
    ensures Taken(c, DoCheck(c, s, 0, Ok, ""), r, Calling, r + 1)
  {
    var s' := DoCheck(c, s, 0, Ok, "");
    assert AttemptOf(s.tasks[0].env) == Attempt(0, r) && Attempt(0, r) !in s.keys;
    assert s'.keys == Claims(c, r + 1);
    assert s'.tasks == Worker(c, r, Calling);
  }

  lemma CallAndFail(c: Config, s: State, r: nat, claims: nat)
    requires c.Valid() && Taken(c, s, r, Calling, claims)
    ensures AtPc(s, 0, Calling) && Taken(c, DoInvoke(s, 0), r, Running, claims)
    ensures Taken(c, DoReturn(DoInvoke(s, 0), 0, Error(ERR)), r, Failing(ERR), claims)
  {
    assert DoInvoke(s, 0).tasks == Worker(c, r, Running);
    assert DoReturn(DoInvoke(s, 0), 0, Error(ERR)).tasks == Worker(c, r, Failing(ERR));
  }

  lemma CopyAndAck(c: Config, s: State, r: nat)
    requires c.Valid() && r + 1 < c.maxRetries && Taken(c, s, r, Failing(ERR), r + 1)
    ensures CanCopy(s, 0) && CanAck(DoCopy(s, 0, Ok), 0)
    ensures Tried(c, DoAck(DoCopy(s, 0, Ok), 0, Ok), r + 1)
  {
    var s1 := DoCopy(s, 0, Ok);
    assert s1.tasks == Worker(c, r, Settling);
    assert Bumped(Nth(c, r), ERR) == Nth(c, r + 1);
    var s2 := DoAck(s1, 0, Ok);
    assert s2.tasks == map[] && s2.streams[Home(c, EVENT)].pel == map[];
  }

  lemma BuryAndAck(c: Config, s: State)
    requires c.Valid() && c.hasDlq && Taken(c, s, c.maxRetries - 1, Failing(ERR), c.maxRetries)
    ensures CanBury(c, s, 0, 0) && CanAck(DoBury(s, 0, Ok, 0), 0)
    ensures Buried(c, DoAck(DoBury(s, 0, Ok, 0), 0, Ok))
  {
    var s1 := DoBury(s, 0, Ok, 0);
    assert s1.tasks == Worker(c, c.maxRetries - 1, Settling);
    assert Bumped(Nth(c, c.maxRetries - 1), ERR) == Nth(c, c.maxRetries);
    var s2 := DoAck(s1, 0, Ok);
    assert s2.tasks == map[] && s2.streams[Home(c, EVENT)].pel == map[];
  }

  // ---- The run ----

  /** One more failed attempt, up to the point where Retry is entered. */
  lemma Attempted(c: Config, a: Assume, steps: seq<Step>, s: State, r: nat) returns (steps': seq<Step>, s': State)
    requires c.Valid() && Exec(c, a, steps) == Some(s) && Tried(c, s, r)
    ensures Exec(c, a, steps') == Some(s') && Taken(c, s', r, Failing(ERR), r + 1)
  {
    hide Tried, Taken;
    var p := Home(c, EVENT);
    Take(c, s, r);
    ExecExtends(c, a, steps, s, Deliver(0, 0, p));
    steps', s' := steps + [Deliver(0, 0, p)], DoDeliver(c, s, 0, 0, p);
    if c.dedup {
      Pass(c, s', r);
      ExecExtends(c, a, steps', s', Check(0, Ok, ""));
      steps', s' := steps' + [Check(0, Ok, "")], DoCheck(c, s', 0, Ok, "");
    } else {
      NoClaims(c, s', r);
    }
    CallAndFail(c, s', r, r + 1);
    ExecExtends(c, a, steps', s', Invoke(0));
    steps', s' := steps' + [Invoke(0)], DoInvoke(s', 0);
    assert AtPc(s', 0, Running) by { TakenAt(c, s', r, Running, r + 1); }
    ExecExtends(c, a, steps', s', Return(0, Error(ERR)));
    steps', s' := steps' + [Return(0, Error(ERR))], DoReturn(s', 0, Error(ERR));
  }

  lemma TakenAt(c: Config, s: State, r: nat, pc: Pc, claims: nat)
    requires c.Valid() && Taken(c, s, r, pc, claims)
    ensures AtPc(s, 0, pc)
  {
  }

  lemma NoClaims(c: Config, s: State, r: nat)
    requires c.Valid() && !c.dedup && Taken(c, s, r, Calling, r)
    ensures Taken(c, s, r, Calling, r + 1)
  {
  }

  lemma {:induction false} TriedRun(c: Config, a: Assume, r: nat) returns (steps: seq<Step>, s: State)
    requires c.Valid() && r < c.maxRetries
    ensures Exec(c, a, steps) == Some(s) && Tried(c, s, r)
  {
    hide Tried, Taken;
    if r == 0 {
      Begin(c);
      ExecExtends(c, a, [], Init(c), Enqueue(0, EVENT, Ok, 0));
      steps, s := [] + [Enqueue(0, EVENT, Ok, 0)], DoEnqueue(c, Init(c), 0, EVENT, Ok, 0);
    } else {
      steps, s := TriedRun(c, a, r - 1);
      steps, s := Attempted(c, a, steps, s, r - 1);
      CopyAndAck(c, s, r - 1);
      ExecExtends(c, a, steps, s, Copy(0, Ok));
      steps, s := steps + [Copy(0, Ok)], DoCopy(s, 0, Ok);
      ExecExtends(c, a, steps, s, Ack(0, Ok));
      steps, s := steps + [Ack(0, Ok)], DoAck(s, 0, Ok);
    }
  }

  /** Under every assumption about the environment, some run dead-letters a job. */
  lemma BuriedRun(c: Config, a: Assume) returns (steps: seq<Step>, s: State)
    requires c.Valid() && c.hasDlq
    ensures Exec(c, a, steps) == Some(s) && Buried(c, s)
  {
    hide Tried, Taken, Buried;
    steps, s := TriedRun(c, a, c.maxRetries - 1);
    steps, s := Attempted(c, a, steps, s, c.maxRetries - 1);
    BuryAndAck(c, s);
    ExecExtends(c, a, steps, s, Bury(0, Ok, 0));
    steps, s := steps + [Bury(0, Ok, 0)], DoBury(s, 0, Ok, 0);
    ExecExtends(c, a, steps, s, Ack(0, Ok));
    steps, s := steps + [Ack(0, Ok)], DoAck(s, 0, Ok);
  }
}
