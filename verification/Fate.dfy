/** Where an accepted job can be: the at-least-once claim, and what deduplication does to it. */
module Fate {
  import opened Options
  import opened Queue
  import opened Delivery
  import opened Invariant

  ghost predicate EntryOf(s: State, p: nat, id: nat, j: JobId)
  {
    At(s, p, id) && Msg(s, p, id).Job? && Msg(s, p, id).env.job == j
  }

  /** Stored, and either not yet delivered or delivered and unacknowledged. */
  ghost predicate WaitsAt(s: State, p: nat, id: nat, j: JobId)
  {
    EntryOf(s, p, id, j) && s.streams[p].base <= id && (s.streams[p].next <= id || id in s.streams[p].pel)
  }

  ghost predicate Outstanding(s: State, j: JobId)
  {
    exists p: nat, id: nat :: WaitsAt(s, p, id, j)
  }

  ghost predicate TrimmedAt(s: State, p: nat, id: nat, j: JobId)
  {
    EntryOf(s, p, id, j) && id < s.streams[p].base && id !in s.streams[p].acked
  }

  ghost predicate Trimmed(s: State, j: JobId)
  {
    exists p: nat, id: nat :: TrimmedAt(s, p, id, j)
  }

  ghost predicate Succeeded(s: State, j: JobId)
  {
    exists r :: Attempt(j, r) in s.h.won
  }

  ghost predicate DeadLettered(s: State, j: JobId)
  {
    exists r :: Attempt(j, r) in s.h.sent
  }

  ghost predicate Dropped(s: State, j: JobId)
  {
    exists r :: Attempt(j, r) in s.h.dropped
  }

  /** A goroutine holds the attempt's claim and has not recorded an outcome yet. */
  ghost predicate InHand(s: State, j: JobId)
  {
    exists t: nat, r: int :: Carries(s, t, Attempt(j, r)) && Attempt(j, r) in s.h.claimed
  }

  ghost predicate LostAttempt(h: History, a: Attempt)
  {
    a in h.claimed && a in h.abandoned && !Settled(h, a)
  }

  /** A claimed attempt whose claimant died, or could not append the copy, before any outcome. */
  ghost predicate ClaimLost(s: State, j: JobId)
  {
    exists r :: LostAttempt(s.h, Attempt(j, r))
  }

  ghost predicate Accounted(s: State, j: JobId)
  {
    Outstanding(s, j) || Trimmed(s, j) || Succeeded(s, j) || DeadLettered(s, j) || Dropped(s, j)
  }

  /** An appended entry either still waits, was trimmed, or was acknowledged for a reason. */
  lemma EntryStatus(c: Config, s: State, p: nat, id: nat, a: Attempt)
    requires Inv(c, s) && HoldsAttempt(s, p, id, a)
    ensures 0 <= a.retry < c.maxRetries
    ensures WaitsAt(s, p, id, a.job) || TrimmedAt(s, p, id, a.job) || Settled(s.h, a) || a in s.h.claimed
  {
    assert EntryOk(c, s.h, Msg(s, p, id).env);
    assert StreamOk(s.streams[p]);
    if id in s.streams[p].acked {
      assert AckedEntryOk(s, p, id);
    }
  }

  /** Follow the copies of an attempt until one of them is not acknowledged or has another outcome. */
  lemma {:induction false} ChainEnds(c: Config, s: State, a: Attempt)
    requires c.Valid() && Inv(c, s) && Appended(s, a) && a.retry <= c.maxRetries
    ensures Accounted(s, a.job) || InHand(s, a.job) || ClaimLost(s, a.job)
    decreases c.maxRetries - a.retry
  {
    hide Inv;
    var p: nat, id: nat :| HoldsAttempt(s, p, id, a);
    EntryStatus(c, s, p, id, a);
    if !WaitsAt(s, p, id, a.job) && !TrimmedAt(s, p, id, a.job) {
      Follow(c, s, a);
    }
  }

  lemma {:induction false} Follow(c: Config, s: State, a: Attempt)
    requires c.Valid() && Inv(c, s) && a.retry < c.maxRetries
    requires Settled(s.h, a) || a in s.h.claimed
    ensures Accounted(s, a.job) || InHand(s, a.job) || ClaimLost(s, a.job)
    decreases c.maxRetries - a.retry, 0
  {
    assert a == Attempt(a.job, a.retry);
    if a in s.h.won || a in s.h.sent || a in s.h.dropped {
    } else if a in s.h.copied {
      ChainEnds(c, s, Attempt(a.job, a.retry + 1));
    } else if a in s.h.abandoned {
      assert LostAttempt(s.h, Attempt(a.job, a.retry));
    } else {
      var t: nat :| Carries(s, t, a);
      assert Carries(s, t, Attempt(a.job, a.retry));
    }
  }

  /** The fate of every accepted job, in every run with any faults. */
  lemma JobFate(c: Config, steps: seq<Step>, j: JobId)
    requires c.Valid() && Exec(c, Anything, steps).Some?
    requires j in Exec(c, Anything, steps).value.h.accepted
    ensures var s := Exec(c, Anything, steps).value; Accounted(s, j) || InHand(s, j) || ClaimLost(s, j)
  {
    RunKeeps(c, Anything, steps);
    var s := Exec(c, Anything, steps).value;
    assert Appended(s, Attempt(j, 0));
    ChainEnds(c, s, Attempt(j, 0));
  }

  /** At least once: behind a plain processor no run loses a job, whatever fails. */
  lemma PlainNeverLoses(c: Config, steps: seq<Step>, j: JobId)
    requires c.Valid() && !c.dedup && Exec(c, Anything, steps).Some?
    requires j in Exec(c, Anything, steps).value.h.accepted
    ensures Accounted(Exec(c, Anything, steps).value, j)
  {
    JobFate(c, steps, j);
    RunKeeps(c, Anything, steps);
  }

  // ---- Deduplication can lose a job ----

  ghost predicate Vanished(s: State, j: JobId)
  {
    j in s.h.accepted && !Accounted(s, j) && s.tasks == map[]
  }

  ghost predicate LosesJob(c: Config, steps: seq<Step>, j: JobId)
    requires c.Valid()
  {
    var r := Exec(c, Anything, steps);
    r.Some? && Vanished(r.value, j)
  }

  const EVENT := LogEvent([], "INFO", "m")

  function FirstEnvelope(c: Config): Envelope
  {
    BuildJobEnvelope(0, EVENT, c.maxRetries, 0)
  }

  /** The states of runs about a single job: only its home stream is in use. */
  function OneJob(c: Config, now: nat, st: Stream, keys: map<Attempt, nat>, tasks: map<nat, Task>,
                  dup: nat, h: History): State
    requires c.Valid()
  {
    State(now, Init(c).streams[Home(c, EVENT) := st], keys, Dlq([], 0, {}), tasks, map[], [], dup, h)
  }

  lemma Restream(c: Config, st: Stream, st': Stream)
    requires c.Valid()
    ensures var p := Home(c, EVENT); Init(c).streams[p := st][p := st'] == Init(c).streams[p := st']
  {
  }

  const ACCEPTED := NOTHING.(accepted := map[0 := EVENT])

  /** One accepted job. */
  lemma Enqueued(c: Config, a: Assume) returns (steps: seq<Step>)
    requires c.Valid() && !a.FaultFree?
    ensures Exec(c, a, steps) == Some(OneJob(c, 0,
              Stream([Job(FirstEnvelope(c))], 0, 0, map[], {}), map[], map[], 0, ACCEPTED))
  {
    var p := Home(c, EVENT);
    var env := FirstEnvelope(c);
    var s0 := Init(c);
    assert s0.streams[p] == EMPTY_STREAM;
    steps := [Enqueue(0, EVENT, Ok, 0)];
    ExecExtends(c, a, [], s0, steps[0]);
    assert [] + [steps[0]] == steps;
    var s1 := OneJob(c, 0, Stream([Job(env)], 0, 0, map[], {}), map[], map[], 0, ACCEPTED);
    var s1' := DoEnqueue(c, s0, 0, EVENT, Ok, 0);
    assert s1'.streams[p] == s1.streams[p] && s1'.streams == s1.streams;
    assert s1'.h.accepted == ACCEPTED.accepted;
    assert s1' == s1;
  }

  /** Accepted and delivered, then left alone for ReclaimIdleTime. */
  lemma Delivered(c: Config, a: Assume) returns (steps: seq<Step>)
    requires c.Valid() && c.dedup && !a.FaultFree?
    ensures Exec(c, a, steps) == Some(OneJob(c, c.reclaimIdle,
              Stream([Job(FirstEnvelope(c))], 0, 1, map[0 := Pending(0, 0)], {}), map[],
              map[1 := Task(0, Home(c, EVENT), 0, FirstEnvelope(c), Checking)], 0, ACCEPTED))
  {
    var p := Home(c, EVENT);
    var env := FirstEnvelope(c);
    steps := Enqueued(c, a);
    var s1 := OneJob(c, 0, Stream([Job(env)], 0, 0, map[], {}), map[], map[], 0, ACCEPTED);
    ExecExtends(c, a, steps, s1, Deliver(1, 0, p));
    steps := steps + [Deliver(1, 0, p)];
    var s2 := OneJob(c, 0, Stream([Job(env)], 0, 1, map[0 := Pending(0, 0)], {}), map[],
                     map[1 := Task(0, p, 0, env, Checking)], 0, ACCEPTED);
    Restream(c, s1.streams[p], s2.streams[p]);
    assert map[][0 := Pending(0, 0)] == map[0 := Pending(0, 0)];
    assert DoDeliver(c, s1, 1, 0, p) == s2;
    ExecExtends(c, a, steps, s2, Tick(c.reclaimIdle));
    steps := steps + [Tick(c.reclaimIdle)];
  }

  /** Another worker reclaims the entry before the first has made its check. */
  lemma Reclaimed(c: Config) returns (steps: seq<Step>)
    requires c.Valid() && c.dedup
    ensures Exec(c, Anything, steps) == Some(OneJob(c, c.reclaimIdle,
              Stream([Job(FirstEnvelope(c))], 0, 1, map[0 := Pending(1, c.reclaimIdle)], {}), map[],
              map[1 := Task(0, Home(c, EVENT), 0, FirstEnvelope(c), Checking),
                  2 := Task(1, Home(c, EVENT), 0, FirstEnvelope(c), Checking)], 0, ACCEPTED))
  {
    var p := Home(c, EVENT);
    var env := FirstEnvelope(c);
    steps := Delivered(c, Anything);
    var s := Exec(c, Anything, steps).value;
    ExecExtends(c, Anything, steps, s, Reclaim(2, 1, p, 0));
    steps := steps + [Reclaim(2, 1, p, 0)];
    assert s.streams[p].log[0] == Job(env);
    var s' := DoReclaim(c, s, 2, 1, p, 0);
    var st' := Stream([Job(env)], 0, 1, map[0 := Pending(1, c.reclaimIdle)], {});
    assert s'.streams[p] == st';
    Restream(c, s.streams[p], st');
    assert s'.tasks == map[1 := Task(0, p, 0, env, Checking), 2 := Task(1, p, 0, env, Checking)];
  }

  /** The first delivery claims the key, the second is skipped as a duplicate. */
  lemma Skipped(c: Config) returns (steps: seq<Step>)
    requires c.Valid() && c.dedup
    ensures Exec(c, Anything, steps) == Some(OneJob(c, c.reclaimIdle,
              Stream([Job(FirstEnvelope(c))], 0, 1, map[0 := Pending(1, c.reclaimIdle)], {}),
              map[Attempt(0, 0) := c.reclaimIdle + c.dedupTtl],
              map[1 := Task(0, Home(c, EVENT), 0, FirstEnvelope(c), Calling),
                  2 := Task(1, Home(c, EVENT), 0, FirstEnvelope(c), Settling)], 1,
              ACCEPTED.(claimed := {Attempt(0, 0)})))
  {
    steps := Reclaimed(c);
    var s := Exec(c, Anything, steps).value;
    ExecExtends(c, Anything, steps, s, Check(1, Ok, ""));
    steps, s := steps + [Check(1, Ok, "")], DoCheck(c, s, 1, Ok, "");
    ExecExtends(c, Anything, steps, s, Check(2, Ok, ""));
    steps := steps + [Check(2, Ok, "")];
    s := DoCheck(c, s, 2, Ok, "");
    assert s.keys == map[Attempt(0, 0) := c.reclaimIdle + c.dedupTtl];
    assert s.tasks == map[1 := Task(0, Home(c, EVENT), 0, FirstEnvelope(c), Calling),
                          2 := Task(1, Home(c, EVENT), 0, FirstEnvelope(c), Settling)];
    assert s.h == ACCEPTED.(claimed := {Attempt(0, 0)});
  }

  /** The second acknowledges the entry and the first dies before its downstream call. */
  lemma LosingRun(c: Config) returns (steps: seq<Step>)
    requires c.Valid() && c.dedup
    ensures LosesJob(c, steps, 0)
  {
    steps := Skipped(c);
    var s := Exec(c, Anything, steps).value;
    ExecExtends(c, Anything, steps, s, Ack(2, Ok));
    steps, s := steps + [Ack(2, Ok)], DoAck(s, 2, Ok);
    ExecExtends(c, Anything, steps, s, Crash(1));
    steps := steps + [Crash(1)];
  }

  /** Some run loses a job exactly when the deduplicating processor is configured. */
  lemma LossIffDedup(c: Config)
    requires c.Valid()
    ensures (exists steps, j :: LosesJob(c, steps, j)) <==> c.dedup
  {
    if c.dedup {
      var steps := LosingRun(c);
      assert LosesJob(c, steps, 0);
    } else {
      forall steps, j | LosesJob(c, steps, j) ensures false {
        PlainNeverLoses(c, steps, j);
      }
    }
  }
}
