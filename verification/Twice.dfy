/** When a job can succeed twice behind the deduplication layer, and what becomes of a requeued dead letter. */
module Twice {
  import opened Options
  import opened Queue
  import opened Delivery
  import opened Invariant
  import opened Fate
  import opened Dedup
  import Burial

  ghost predicate SucceedsTwice(s: State, j: JobId)
  {
    exists i: nat, k: nat :: i < k < |s.h.wins| && s.h.wins[i].job == j == s.h.wins[k].job
  }

  function SecondEnvelope(c: Config): Envelope
  {
    Bumped(FirstEnvelope(c), "check")
  }

  /** The first delivery's check fails unapplied. */
  lemma FailedUnchecked(c: Config) returns (steps: seq<Step>, s: State)
    requires c.Valid() && c.dedup
    ensures Exec(c, KeysLive, steps) == Some(s)
    ensures var p := Home(c, EVENT);
            && s.now == c.reclaimIdle && s.keys == map[] && s.h.wins == [] && PartOk(s, p)
            && s.tasks == map[1 := Task(0, p, 0, FirstEnvelope(c), Failing("check"))]
            && s.streams[p] == Stream([Job(FirstEnvelope(c))], 0, 1, map[0 := Pending(0, 0)], {})
  {
    steps := Delivered(c, KeysLive);
    s := Exec(c, KeysLive, steps).value;
    ExecExtends(c, KeysLive, steps, s, Check(1, NotApplied, "check"));
    steps, s := steps + [Check(1, NotApplied, "check")], DoCheck(c, s, 1, NotApplied, "check");
    assert s.tasks == map[1 := Task(0, Home(c, EVENT), 0, FirstEnvelope(c), Failing("check"))];
  }

  /** The copy is appended, and the acknowledgement is lost. */
  lemma CopiedUnchecked(c: Config) returns (steps: seq<Step>, s: State)
    requires c.Valid() && c.dedup && 2 <= c.maxRetries
    ensures Exec(c, KeysLive, steps) == Some(s)
    ensures var p := Home(c, EVENT);
            && s.now == c.reclaimIdle && s.keys == map[] && s.tasks == map[] && s.h.wins == []
            && PartOk(s, p)
            && s.streams[p] ==
                 Stream([Job(FirstEnvelope(c)), Job(SecondEnvelope(c))], 0, 1, map[0 := Pending(0, 0)], {})
  {
    steps, s := FailedUnchecked(c);
    ExecExtends(c, KeysLive, steps, s, Copy(1, Ok));
    steps, s := steps + [Copy(1, Ok)], DoCopy(s, 1, Ok);
    ExecExtends(c, KeysLive, steps, s, Ack(1, NotApplied));
    steps, s := steps + [Ack(1, NotApplied)], DoAck(s, 1, NotApplied);
    assert s.tasks == map[];
  }

  /** A goroutine at its check, with the key unset or expired, runs to a success. */
  lemma RunsToSuccess(c: Config, a: Assume, steps: seq<Step>, s: State, t: nat) returns (steps': seq<Step>, s': State)
    requires c.Valid() && Exec(c, a, steps) == Some(s) && (a.Anything? || a.Checked? || a.KeysLive?)
    requires AtPc(s, t, Checking) && KeyFree(s, TaskAttempt(s, t)) && (a.KeysLive? ==> TaskAttempt(s, t) !in s.keys)
    ensures Exec(c, a, steps') == Some(s')
    ensures s'.streams == s.streams && s'.now == s.now
    ensures s'.keys == s.keys[TaskAttempt(s, t) := s.now + c.dedupTtl]
    ensures s'.h.wins == s.h.wins + [TaskAttempt(s, t)]
    ensures s'.tasks == s.tasks[t := s.tasks[t].(pc := Settling)]
  {
    ExecExtends(c, a, steps, s, Check(t, Ok, ""));
    steps', s' := steps + [Check(t, Ok, "")], DoCheck(c, s, t, Ok, "");
    ExecExtends(c, a, steps', s', Invoke(t));
    steps', s' := steps' + [Invoke(t)], DoInvoke(s', t);
    ExecExtends(c, a, steps', s', Return(t, Success));
    steps', s' := steps' + [Return(t, Success)], DoReturn(s', t, Success);
  }

  /** The original is reclaimed and succeeds; then its copy is delivered and succeeds. */
  lemma ErringCheckRun(c: Config) returns (steps: seq<Step>, s: State)
    requires c.Valid() && c.dedup && 2 <= c.maxRetries
    ensures Exec(c, KeysLive, steps) == Some(s) && SucceedsTwice(s, 0)
  {
    var p := Home(c, EVENT);
    steps, s := CopiedUnchecked(c);
    ExecExtends(c, KeysLive, steps, s, Reclaim(2, 1, p, 0));
    steps, s := steps + [Reclaim(2, 1, p, 0)], DoReclaim(c, s, 2, 1, p, 0);
    assert TaskAttempt(s, 2) == Attempt(0, 0);
    steps, s := RunsToSuccess(c, KeysLive, steps, s, 2);
    ExecExtends(c, KeysLive, steps, s, Deliver(3, 0, p));
    steps, s := steps + [Deliver(3, 0, p)], DoDeliver(c, s, 3, 0, p);
    assert TaskAttempt(s, 3) == Attempt(0, 1);
    steps, s := RunsToSuccess(c, KeysLive, steps, s, 3);
    assert s.h.wins[0].job == 0 == s.h.wins[1].job;
  }

  /** The job succeeds, its acknowledgement is lost, and the key's time passes. */
  lemma KeyExpired(c: Config, a: Assume) returns (steps: seq<Step>, s: State)
    requires c.Valid() && c.dedup && (a.Anything? || a.Checked?)
    ensures Exec(c, a, steps) == Some(s)
    ensures var p := Home(c, EVENT);
            && s.keys == map[Attempt(0, 0) := c.reclaimIdle + c.dedupTtl]
            && s.now == 2 * c.reclaimIdle + c.dedupTtl && s.tasks == map[] && s.h.wins == [Attempt(0, 0)]
            && PartOk(s, p) && s.streams[p] == Stream([Job(FirstEnvelope(c))], 0, 1, map[0 := Pending(0, 0)], {})
  {
    steps := Delivered(c, a);
    s := Exec(c, a, steps).value;
    assert TaskAttempt(s, 1) == Attempt(0, 0);
    steps, s := RunsToSuccess(c, a, steps, s, 1);
    ExecExtends(c, a, steps, s, Ack(1, NotApplied));
    steps, s := steps + [Ack(1, NotApplied)], DoAck(s, 1, NotApplied);
    assert s.tasks == map[];
    ExecExtends(c, a, steps, s, Tick(c.reclaimIdle + c.dedupTtl));
    steps, s := steps + [Tick(c.reclaimIdle + c.dedupTtl)], s.(now := s.now + (c.reclaimIdle + c.dedupTtl));
  }

  /** The entry is reclaimed after its key expired, and succeeds again; no check errs. */
  lemma ExpiredKeyRun(c: Config, a: Assume) returns (steps: seq<Step>, s: State)
    requires c.Valid() && c.dedup && (a.Anything? || a.Checked?)
    ensures Exec(c, a, steps) == Some(s) && SucceedsTwice(s, 0)
  {
    var p := Home(c, EVENT);
    steps, s := KeyExpired(c, a);
    ExecExtends(c, a, steps, s, Reclaim(2, 1, p, 0));
    steps, s := steps + [Reclaim(2, 1, p, 0)], DoReclaim(c, s, 2, 1, p, 0);
    assert TaskAttempt(s, 2) == Attempt(0, 0);
    steps, s := RunsToSuccess(c, a, steps, s, 2);
    assert s.h.wins[0].job == 0 == s.h.wins[1].job;
  }

  lemma SingleAttempt(c: Config, steps: seq<Step>, j: JobId)
    requires c.Valid() && c.dedup && c.maxRetries == 1 && Exec(c, KeysLive, steps).Some?
    ensures !SucceedsTwice(Exec(c, KeysLive, steps).value, j)
  {
    RunCallsOnce(c, KeysLive, steps);
    var s := Exec(c, KeysLive, steps).value;
    forall i: nat, k: nat | i < k < |s.h.wins| ensures s.h.wins[i].job != s.h.wins[k].job {
      var a, b := s.h.wins[i], s.h.wins[k];
      assert a in s.h.won && b in s.h.won && a != b;
      assert a in s.h.calls && b in s.h.calls;
    }
  }

  /** A fault-free run is one with live keys and checks that answer. */
  lemma {:induction false} FaultFreeIsChecked(c: Config, steps: seq<Step>)
    requires c.Valid() && Exec(c, FaultFree, steps).Some?
    ensures Exec(c, KeysLiveAndChecked, steps) == Exec(c, FaultFree, steps)
  {
    if steps != [] {
      FaultFreeIsChecked(c, steps[..|steps| - 1]);
    }
  }

  ghost predicate TwiceIn(c: Config, a: Assume, steps: seq<Step>, j: JobId)
    requires c.Valid()
  {
    Exec(c, a, steps).Some? && SucceedsTwice(Exec(c, a, steps).value, j)
  }

  /** Exactly when two successes of one job are possible: a key may expire, or a check may err and the job has a
      second attempt. */
  ghost predicate CanSucceedTwice(c: Config, a: Assume)
  {
    match a
    case Anything => true
    case Checked => true
    case KeysLive => 2 <= c.maxRetries
    case KeysLiveAndChecked => false
    case FaultFree => false
  }

  lemma NeverTwice(c: Config, a: Assume, steps: seq<Step>, j: JobId)
    requires c.Valid() && c.dedup && !CanSucceedTwice(c, a) && Exec(c, a, steps).Some?
    ensures !SucceedsTwice(Exec(c, a, steps).value, j)
  {
    if a.KeysLive? {
      SingleAttempt(c, steps, j);
    } else {
      if a.FaultFree? {
        FaultFreeIsChecked(c, steps);
      }
      var wins := Exec(c, KeysLiveAndChecked, steps).value.h.wins;
      forall i: nat, k: nat | i < k < |wins| ensures wins[i].job != wins[k].job {
        AtMostOneSuccess(c, steps, i, k);
      }
    }
  }

  lemma TwiceIff(c: Config, a: Assume)
    requires c.Valid() && c.dedup
    ensures (exists steps, j :: TwiceIn(c, a, steps, j)) <==> CanSucceedTwice(c, a)
  {
    if CanSucceedTwice(c, a) {
      var steps, s;
      if a.KeysLive? {
        steps, s := ErringCheckRun(c);
      } else {
        steps, s := ExpiredKeyRun(c, a);
      }
      assert TwiceIn(c, a, steps, 0);
    } else {
      forall steps, j ensures !TwiceIn(c, a, steps, j) {
        if Exec(c, a, steps).Some? {
          NeverTwice(c, a, steps, j);
        }
      }
    }
  }

  // ---- A requeued dead letter ----

  /** The job is dead-lettered with all its keys live, and read for a requeue. */
  lemma FetchedRun(c: Config) returns (steps: seq<Step>, s: State)
    requires c.Valid() && c.dedup && c.hasDlq
    ensures Exec(c, KeysLiveAndChecked, steps) == Some(s)
    ensures s.dlq == Dlq([Burial.Letter(c)], 0, {}) && s.tasks == map[] && s.duplicates == 0 && s.now == 0
    ensures s.operators == map[0 := Operator(0, Revived(Burial.Letter(c).env), false)]
    ensures var p := Home(c, EVENT);
            PartOk(s, p) && s.streams[p].base == 0 && s.streams[p].next == |s.streams[p].log|
    ensures Attempt(0, 0) in s.keys && s.keys[Attempt(0, 0)] == c.dedupTtl
  {
    steps, s := Burial.BuriedRun(c, KeysLiveAndChecked);
    assert s.operators == map[] && Attempt(0, 0) in s.keys;
    ExecExtends(c, KeysLiveAndChecked, steps, s, Fetch(0, 0));
    steps, s := steps + [Fetch(0, 0)], DoFetch(s, 0, 0);
  }

  /** With live keys and checks that answer, a dead letter is requeued to its own partition and deleted, its entry
      is delivered, and the goroutine skips it as a duplicate: the only call it can make next is the XACK. */
  lemma SkippedRequeueRun(c: Config) returns (steps: seq<Step>, s: State)
    requires c.Valid() && c.dedup && c.hasDlq
    ensures Exec(c, KeysLiveAndChecked, steps) == Some(s)
    ensures 0 < |s.dlq.log| && !s.dlq.Holds(0) && s.duplicates == 1
    ensures AtPc(s, 0, Settling) && s.tasks[0].env == Revived(s.dlq.log[0].env) && Enabled(c, s, Ack(0, Ok))
  {
    var p, a := Home(c, EVENT), KeysLiveAndChecked;
    steps, s := FetchedRun(c);
    ExecExtends(c, a, steps, s, Resend(0, p, 0, Ok, 0));
    steps, s := steps + [Resend(0, p, 0, Ok, 0)], DoResend(s, 0, p, Ok, 0);
    ExecExtends(c, a, steps, s, Remove(0, Ok));
    steps, s := steps + [Remove(0, Ok)], DoRemove(s, 0, Ok);
    steps, s := DeliverSkipped(c, steps, s);
  }

  lemma DeliverSkipped(c: Config, steps: seq<Step>, s: State) returns (steps': seq<Step>, s': State)
    requires c.Valid() && c.dedup && Exec(c, KeysLiveAndChecked, steps) == Some(s)
    requires var p := Home(c, EVENT);
             && PartOk(s, p) && NextId(s.streams[p]) < |s.streams[p].log| && s.tasks == map[] && s.dlq.log != []
             && s.streams[p].log[NextId(s.streams[p])] == Job(Revived(s.dlq.log[0].env))
    requires var k := Attempt(s.dlq.log[0].env.job, 0); k in s.keys && s.now < s.keys[k]
    ensures Exec(c, KeysLiveAndChecked, steps') == Some(s')
    ensures s'.dlq == s.dlq && s'.duplicates == s.duplicates + 1
    ensures AtPc(s', 0, Settling) && s'.tasks[0].env == Revived(s.dlq.log[0].env) && Enabled(c, s', Ack(0, Ok))
  {
    var a, p := KeysLiveAndChecked, Home(c, EVENT);
    ExecExtends(c, a, steps, s, Deliver(0, 0, p));
    steps', s' := steps + [Deliver(0, 0, p)], DoDeliver(c, s, 0, 0, p);
    ExecExtends(c, a, steps', s', Check(0, Ok, ""));
    steps', s' := steps' + [Check(0, Ok, "")], DoCheck(c, s', 0, Ok, "");
  }
}
