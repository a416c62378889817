/** What the deduplication keys guarantee while they live: bounded work and at most one success. */
module Dedup {
  import opened Options
  import opened Queue
  import opened Delivery
  import opened Invariant
  import opened Fate

  ghost predicate NoRepeats(xs: seq<Attempt>)
  {
    forall i, k :: 0 <= i < k < |xs| ==> xs[i] != xs[k]
  }

  /** Past the check and not yet returned: the goroutine that owns the attempt. */
  ghost predicate Active(s: State, t: nat)
  {
    t in s.tasks && (s.tasks[t].pc.Calling? || s.tasks[t].pc.Running?)
  }

  ghost function TaskAttempt(s: State, t: nat): Attempt
    requires t in s.tasks
  {
    AttemptOf(s.tasks[t].env)
  }

  /** Every call belongs to a claim, and an attempt in progress to exactly one goroutine. */
  ghost predicate CallsOnce(s: State)
  {
    && s.h.claimed == s.keys.Keys
    && NoRepeats(s.h.calls)
    && (forall a :: a in s.h.calls ==> a in s.h.claimed)
    && (forall t :: Active(s, t) ==>
         TaskAttempt(s, t) in s.h.claimed && (TaskAttempt(s, t) in s.h.calls <==> s.tasks[t].pc.Running?))
    && (forall t, u :: Active(s, t) && Active(s, u) && t != u ==> TaskAttempt(s, t) != TaskAttempt(s, u))
  }

  ghost predicate HasFailed(h: History, a: Attempt)
  {
    exists err :: Failure(a, err) in h.failed
  }

  /** Only counts below the limit are called, and a count above zero only after the one before failed. */
  ghost predicate CallsInOrder(c: Config, s: State)
  {
    forall a :: a in s.h.calls ==>
      0 <= a.retry < c.maxRetries && (0 < a.retry ==> HasFailed(s.h, Attempt(a.job, a.retry - 1)))
  }

  ghost predicate NotActive(s: State, a: Attempt)
  {
    forall t :: Active(s, t) ==> TaskAttempt(s, t) != a
  }

  /** An attempt succeeds at most once, in a call. */
  ghost predicate WinsOnce(s: State)
  {
    && (forall a :: a in s.h.won ==> a in s.h.calls && NotActive(s, a))
    && NoRepeats(s.h.wins)
    && (forall a :: a in s.h.wins <==> a in s.h.won)
  }

  /** A failed attempt is one whose sole call failed. */
  ghost predicate FailsOnce(s: State)
  {
    forall f: Failure :: f in s.h.failed ==>
      f.attempt in s.h.calls && f.attempt !in s.h.won && NotActive(s, f.attempt)
  }

  /** What no step but Check, Invoke and Return changes. */
  ghost predicate Quiet(s: State, s': State, t: nat)
  {
    && (s'.tasks == s.tasks || (OnlyTask(s, s', t) && !Active(s', t)))
    && s'.keys == s.keys
    && s'.h.claimed == s.h.claimed
    && s'.h.calls == s.h.calls
    && s'.h.wins == s.h.wins
    && s'.h.won == s.h.won
    && s'.h.failed == s.h.failed
  }

  lemma QuietKeeps(c: Config, s: State, s': State, t: nat)
    requires Quiet(s, s', t)
    ensures CallsOnce(s) ==> CallsOnce(s')
    ensures CallsInOrder(c, s) ==> CallsInOrder(c, s')
    ensures WinsOnce(s) ==> WinsOnce(s')
    ensures FailsOnce(s) ==> FailsOnce(s')
  {
    assert forall u :: Active(s', u) ==> Active(s, u) && s'.tasks[u] == s.tasks[u];
  }

  predicate OnStreams(step: Step)
  {
    step.Tick? || step.Enqueue? || step.Inject? || step.Purge?
  }

  predicate OnDeadLetters(step: Step)
  {
    step.Fetch? || step.Remove? || step.Quit? || step.Erase?
  }

  predicate Requeues(step: Step)
  {
    step.Resend? || step.Strand?
  }

  lemma StreamQuiet(c: Config, s: State, step: Step)
    requires c.Valid() && Enabled(c, s, step) && OnStreams(step)
    ensures Quiet(s, Apply(c, s, step), 0)
  {
  }

  lemma DeadLetterQuiet(c: Config, s: State, step: Step)
    requires c.Valid() && Enabled(c, s, step) && OnDeadLetters(step)
    ensures Quiet(s, Apply(c, s, step), 0)
  {
  }

  lemma RequeueQuiet(c: Config, s: State, step: Step)
    requires c.Valid() && Enabled(c, s, step) && Requeues(step)
    ensures Quiet(s, Apply(c, s, step), 0)
  {
  }

  lemma SpawnQuiet(c: Config, s: State, step: Step)
    requires c.Valid() && c.dedup && Enabled(c, s, step) && (step.Deliver? || step.Reclaim?)
    ensures Quiet(s, Apply(c, s, step), step.t)
  {
  }

  lemma RetryQuiet(c: Config, s: State, step: Step)
    requires c.Valid() && Enabled(c, s, step) && (step.Copy? || step.Bury? || step.Drop?)
    ensures Quiet(s, Apply(c, s, step), step.t)
  {
  }

  lemma EndQuiet(c: Config, s: State, step: Step)
    requires c.Valid() && Enabled(c, s, step) && (step.Ack? || step.Crash?)
    ensures Quiet(s, Apply(c, s, step), step.t)
  {
  }

  lemma QuietStepKeeps(c: Config, s: State, step: Step)
    requires c.Valid() && c.dedup && Enabled(c, s, step) && !step.Check? && !step.Invoke? && !step.Return?
    ensures var s' := Apply(c, s, step);
            && (CallsOnce(s) ==> CallsOnce(s'))
            && (CallsInOrder(c, s) ==> CallsInOrder(c, s'))
            && (WinsOnce(s) ==> WinsOnce(s'))
            && (FailsOnce(s) ==> FailsOnce(s'))
  {
    hide CallsOnce, CallsInOrder, WinsOnce, FailsOnce, Quiet;
    var s' := Apply(c, s, step);
    if OnStreams(step) {
      StreamQuiet(c, s, step);
      QuietKeeps(c, s, s', 0);
    } else if OnDeadLetters(step) {
      DeadLetterQuiet(c, s, step);
      QuietKeeps(c, s, s', 0);
    } else if Requeues(step) {
      RequeueQuiet(c, s, step);
      QuietKeeps(c, s, s', 0);
    } else {
      if step.Deliver? || step.Reclaim? {
        SpawnQuiet(c, s, step);
      } else if step.Ack? || step.Crash? {
        EndQuiet(c, s, step);
      } else {
        RetryQuiet(c, s, step);
      }
      QuietKeeps(c, s, s', step.t);
    }
  }

  // ---- The three steps that matter ----

  ghost predicate KeyLive(s: State, t: nat)
    requires t in s.tasks
  {
    TaskAttempt(s, t) in s.keys ==> s.now < s.keys[TaskAttempt(s, t)]
  }

  lemma CheckCallsOnce(c: Config, s: State, t: nat, out: Outcome, err: string)
    requires CallsOnce(s) && AtPc(s, t, Checking) && KeyLive(s, t)
    ensures CallsOnce(DoCheck(c, s, t, out, err))
  {
    var s' := DoCheck(c, s, t, out, err);
    assert forall u :: u != t && Active(s', u) ==> Active(s, u) && TaskAttempt(s', u) == TaskAttempt(s, u);
    if Active(s', t) {
      assert TaskAttempt(s, t) !in s.h.claimed;
      assert forall u :: Active(s, u) ==> TaskAttempt(s, u) != TaskAttempt(s, t);
    }
  }

  lemma CheckCallsInOrder(c: Config, s: State, t: nat, out: Outcome, err: string)
    requires CallsInOrder(c, s) && t in s.tasks
    ensures CallsInOrder(c, DoCheck(c, s, t, out, err))
  {
    var s' := DoCheck(c, s, t, out, err);
    FailuresStay(s.h, s'.h);
  }

  lemma FailuresStay(h: History, h': History)
    requires h.failed <= h'.failed
    ensures forall a :: HasFailed(h, a) ==> HasFailed(h', a)
  {
    forall a | HasFailed(h, a) ensures HasFailed(h', a) {
      var err :| Failure(a, err) in h.failed;
      assert Failure(a, err) in h'.failed;
    }
  }

  lemma CheckWinsOnce(c: Config, s: State, t: nat, out: Outcome, err: string)
    requires CallsOnce(s) && WinsOnce(s) && AtPc(s, t, Checking) && KeyLive(s, t)
    ensures WinsOnce(DoCheck(c, s, t, out, err))
  {
    var s' := DoCheck(c, s, t, out, err);
    assert forall u :: u != t && Active(s', u) ==> Active(s, u) && TaskAttempt(s', u) == TaskAttempt(s, u);
    if Active(s', t) {
      assert TaskAttempt(s, t) !in s.h.claimed;
    }
  }

  lemma CheckFailsOnce(c: Config, s: State, t: nat, err: string)
    requires CallsOnce(s) && FailsOnce(s) && AtPc(s, t, Checking) && KeyLive(s, t)
    ensures FailsOnce(DoCheck(c, s, t, Ok, err))
  {
    var s' := DoCheck(c, s, t, Ok, err);
    assert forall u :: u != t && Active(s', u) ==> Active(s, u) && TaskAttempt(s', u) == TaskAttempt(s, u);
    if Active(s', t) {
      assert TaskAttempt(s, t) !in s.h.claimed;
    }
  }

  lemma InvokeCallsOnce(s: State, t: nat)
    requires CallsOnce(s) && AtPc(s, t, Calling)
    ensures CallsOnce(DoInvoke(s, t))
  {
    var s' := DoInvoke(s, t);
    assert Active(s, t);
    assert forall u :: Active(s', u) ==> Active(s, u) && TaskAttempt(s', u) == TaskAttempt(s, u);
  }

  lemma InvokeCallsInOrder(c: Config, s: State, t: nat)
    requires Inv(c, s) && CallsInOrder(c, s) && AtPc(s, t, Calling)
    ensures CallsInOrder(c, DoInvoke(s, t))
  {
    hide Inv;
    TaskEntry(c, s, t);
    var s' := DoInvoke(s, t);
    FailuresStay(s.h, s'.h);
    var env := s.tasks[t].env;
    if 0 < env.retryCount {
      assert Failure(Attempt(env.job, env.retryCount - 1), env.lastError) in s.h.failed;
      assert HasFailed(s.h, Attempt(env.job, env.retryCount - 1));
    }
  }

  lemma InvokeOutcomes(s: State, t: nat)
    requires AtPc(s, t, Calling)
    ensures WinsOnce(s) ==> WinsOnce(DoInvoke(s, t))
    ensures FailsOnce(s) ==> FailsOnce(DoInvoke(s, t))
  {
    var s' := DoInvoke(s, t);
    assert forall u :: Active(s', u) ==> Active(s, u) && TaskAttempt(s', u) == TaskAttempt(s, u);
  }

  lemma ReturnCallsOnce(s: State, t: nat, result: Result)
    requires CallsOnce(s) && AtPc(s, t, Running)
    ensures CallsOnce(DoReturn(s, t, result))
  {
    var s' := DoReturn(s, t, result);
    assert forall u :: Active(s', u) ==> u != t && Active(s, u) && TaskAttempt(s', u) == TaskAttempt(s, u);
  }

  lemma ReturnCallsInOrder(c: Config, s: State, t: nat, result: Result)
    requires CallsInOrder(c, s) && t in s.tasks
    ensures CallsInOrder(c, DoReturn(s, t, result))
  {
    FailuresStay(s.h, DoReturn(s, t, result).h);
  }

  lemma ReturnWinsOnce(s: State, t: nat, result: Result)
    requires CallsOnce(s) && WinsOnce(s) && AtPc(s, t, Running)
    ensures WinsOnce(DoReturn(s, t, result))
  {
    var s' := DoReturn(s, t, result);
    assert Active(s, t) && TaskAttempt(s, t) in s.h.calls;
    assert forall u :: Active(s', u) ==> u != t && Active(s, u) && TaskAttempt(s', u) == TaskAttempt(s, u);
    assert TaskAttempt(s, t) !in s.h.won;
  }

  lemma ReturnFailsOnce(s: State, t: nat, result: Result)
    requires CallsOnce(s) && WinsOnce(s) && FailsOnce(s) && AtPc(s, t, Running)
    ensures FailsOnce(DoReturn(s, t, result))
  {
    var s' := DoReturn(s, t, result);
    assert Active(s, t) && TaskAttempt(s, t) in s.h.calls;
    assert forall u :: Active(s', u) ==> u != t && Active(s, u) && TaskAttempt(s', u) == TaskAttempt(s, u);
    assert TaskAttempt(s, t) !in s.h.won;
  }

  // ---- Over runs ----

  lemma {:induction false} RunCallsOnce(c: Config, a: Assume, steps: seq<Step>)
    requires c.Valid() && c.dedup && (a.KeysLive? || a.KeysLiveAndChecked?)
    ensures var r := Exec(c, a, steps); r.Some? ==> CallsOnce(r.value) && CallsInOrder(c, r.value) && WinsOnce(r.value)
  {
    if steps != [] && Exec(c, a, steps).Some? {
      var n := |steps| - 1;
      RunCallsOnce(c, a, steps[..n]);
      RunKeeps(c, a, steps[..n]);
      hide CallsOnce, CallsInOrder, WinsOnce, Inv;
      var s := Exec(c, a, steps[..n]).value;
      match steps[n]
      case Check(t, out, err) =>
        CheckCallsOnce(c, s, t, out, err);
        CheckCallsInOrder(c, s, t, out, err);
        CheckWinsOnce(c, s, t, out, err);
      case Invoke(t) =>
        InvokeCallsOnce(s, t);
        InvokeCallsInOrder(c, s, t);
        InvokeOutcomes(s, t);
      case Return(t, result) =>
        ReturnCallsOnce(s, t, result);
        ReturnCallsInOrder(c, s, t, result);
        ReturnWinsOnce(s, t, result);
      case _ => QuietStepKeeps(c, s, steps[n]);
    }
  }

  lemma {:induction false} RunFailsOnce(c: Config, steps: seq<Step>)
    requires c.Valid() && c.dedup
    ensures var r := Exec(c, KeysLiveAndChecked, steps); r.Some? ==> FailsOnce(r.value)
  {
    if steps != [] && Exec(c, KeysLiveAndChecked, steps).Some? {
      var n := |steps| - 1;
      RunFailsOnce(c, steps[..n]);
      RunCallsOnce(c, KeysLiveAndChecked, steps[..n]);
      hide CallsOnce, WinsOnce, FailsOnce;
      var s := Exec(c, KeysLiveAndChecked, steps[..n]).value;
      match steps[n]
      case Check(t, out, err) => CheckFailsOnce(c, s, t, err);
      case Invoke(t) => InvokeOutcomes(s, t);
      case Return(t, result) => ReturnFailsOnce(s, t, result);
      case _ => QuietStepKeeps(c, s, steps[n]);
    }
  }

  // ---- Bounded work ----

  /** The retry counts with which a job was handed to downstream, in order. */
  function CallsOf(calls: seq<Attempt>, j: JobId): seq<int>
  {
    if calls == [] then []
    else
      var last := calls[|calls| - 1];
      CallsOf(calls[..|calls| - 1], j) + (if last.job == j then [last.retry] else [])
  }

  lemma {:induction false} CallsOfMembers(calls: seq<Attempt>, j: JobId)
    ensures forall r :: r in CallsOf(calls, j) <==> Attempt(j, r) in calls
    ensures NoRepeats(calls) ==>
              forall i, k :: 0 <= i < k < |CallsOf(calls, j)| ==> CallsOf(calls, j)[i] != CallsOf(calls, j)[k]
  {
    if calls != [] {
      var n := |calls| - 1;
      CallsOfMembers(calls[..n], j);
      assert calls == calls[..n] + [calls[n]];
    }
  }

  lemma {:induction false} DistinctBelow(rs: seq<int>, n: nat)
    requires forall i, k :: 0 <= i < k < |rs| ==> rs[i] != rs[k]
    requires forall r :: r in rs ==> 0 <= r < n
    ensures |rs| <= n
  {
    assert rs == [] || (rs[0] in rs && 0 <= rs[0] < n);
    if n == 0 {
    } else if n - 1 in rs {
      var i :| 0 <= i < |rs| && rs[i] == n - 1;
      var rest := rs[..i] + rs[i + 1..];
      assert forall k :: 0 <= k < |rest| ==> rest[k] == rs[if k < i then k else k + 1];
      forall r | r in rest ensures 0 <= r < n - 1 {
        var k :| 0 <= k < |rest| && rest[k] == r;
        assert rs[if k < i then k else k + 1] in rs;
      }
      DistinctBelow(rest, n - 1);
    } else {
      DistinctBelow(rs, n - 1);
    }
  }

  /** However often acknowledgements are lost and entries redelivered, downstream is called at most
      once per (job, count) and at most MaxRetries times per job, while the keys live. */
  lemma BoundedWork(c: Config, steps: seq<Step>, j: JobId)
    requires c.Valid() && c.dedup && Exec(c, KeysLive, steps).Some?
    ensures var calls := Exec(c, KeysLive, steps).value.h.calls;
            NoRepeats(calls) && |CallsOf(calls, j)| <= c.maxRetries
  {
    RunCallsOnce(c, KeysLive, steps);
    var s := Exec(c, KeysLive, steps).value;
    CallsOfMembers(s.h.calls, j);
    forall r | r in CallsOf(s.h.calls, j) ensures 0 <= r < c.maxRetries {
      assert Attempt(j, r) in s.h.calls;
    }
    DistinctBelow(CallsOf(s.h.calls, j), c.maxRetries);
  }

  // ---- At most one success ----

  /** The counts below a called one have all been called, and all failed. */
  lemma {:induction false} EarlierFailed(c: Config, s: State, a: Attempt, r: int)
    requires CallsInOrder(c, s) && FailsOnce(s)
    requires a in s.h.calls && 0 <= r < a.retry
    ensures HasFailed(s.h, Attempt(a.job, r)) && Attempt(a.job, r) in s.h.calls
    decreases a.retry
  {
    var b := Attempt(a.job, a.retry - 1);
    assert HasFailed(s.h, b);
    var err :| Failure(b, err) in s.h.failed;
    assert Failure(b, err).attempt in s.h.calls;
    if r < b.retry {
      EarlierFailed(c, s, b, r);
    }
  }

  lemma CalledAfterFailure(c: Config, s: State, lo: Attempt, hi: Attempt)
    requires CallsInOrder(c, s) && FailsOnce(s)
    requires hi in s.h.calls && lo.job == hi.job && 0 <= lo.retry < hi.retry
    ensures lo !in s.h.won
  {
    EarlierFailed(c, s, hi, lo.retry);
    assert Attempt(hi.job, lo.retry) == lo;
    var err :| Failure(lo, err) in s.h.failed;
    assert Failure(lo, err).attempt == lo;
  }

  /** While keys live and checks do not err, downstream succeeds at most once per job. */
  lemma AtMostOneSuccess(c: Config, steps: seq<Step>, i: nat, k: nat)
    requires c.Valid() && c.dedup && Exec(c, KeysLiveAndChecked, steps).Some?
    requires i < k < |Exec(c, KeysLiveAndChecked, steps).value.h.wins|
    ensures var wins := Exec(c, KeysLiveAndChecked, steps).value.h.wins; wins[i].job != wins[k].job
  {
    RunCallsOnce(c, KeysLiveAndChecked, steps);
    RunFailsOnce(c, steps);
    var s := Exec(c, KeysLiveAndChecked, steps).value;
    var a, b := s.h.wins[i], s.h.wins[k];
    assert a in s.h.won && b in s.h.won && a != b;
    if a.job == b.job {
      if a.retry < b.retry {
        CalledAfterFailure(c, s, a, b);
      } else {
        CalledAfterFailure(c, s, b, a);
      }
    }
  }

  /** A job that reached the dead letter stream was called with every count. */
  lemma Buried(c: Config, s: State, d: nat, r: int)
    requires c.Valid() && Inv(c, s) && CallsInOrder(c, s) && FailsOnce(s)
    requires d < |s.dlq.log| && 0 <= r < c.maxRetries
    ensures Attempt(s.dlq.log[d].env.job, r) in s.h.calls
  {
    assert BuriedOk(c, s, s.dlq.log[d]);
    hide Inv;
    var env := s.dlq.log[d].env;
    assert Failure(Attempt(env.job, env.retryCount - 1), env.lastError) in s.h.failed;
    var last := Attempt(env.job, c.maxRetries - 1);
    assert last in s.h.calls;
    if r < last.retry {
      EarlierFailed(c, s, last, r);
    }
  }

  lemma NoCallLeft(c: Config, s: State, d: nat, t: nat)
    requires c.Valid() && Inv(c, s) && CallsInOrder(c, s) && FailsOnce(s) && CallsOnce(s)
    requires d < |s.dlq.log| && t in s.tasks && s.tasks[t].env.job == s.dlq.log[d].env.job
    ensures !AtPc(s, t, Calling)
  {
    hide Inv;
    TaskEntry(c, s, t);
    hide CallsInOrder, FailsOnce;
    Buried(c, s, d, s.tasks[t].env.retryCount);
    assert TaskAttempt(s, t) in s.h.calls;
    assert AtPc(s, t, Calling) ==> Active(s, t);
  }

  /** While keys live and checks do not err, a dead-lettered job is never handed to downstream again,
      although a requeued entry of it is delivered with count 0. */
  lemma RequeueNeverRuns(c: Config, steps: seq<Step>, d: nat, t: nat)
    requires c.Valid() && c.dedup && Exec(c, KeysLiveAndChecked, steps).Some?
    requires var s := Exec(c, KeysLiveAndChecked, steps).value;
             d < |s.dlq.log| && t in s.tasks && s.tasks[t].env.job == s.dlq.log[d].env.job
    ensures !Enabled(c, Exec(c, KeysLiveAndChecked, steps).value, Invoke(t))
  {
    hide Inv, CallsInOrder, FailsOnce, CallsOnce, WinsOnce;
    RunKeeps(c, KeysLiveAndChecked, steps);
    RunCallsOnce(c, KeysLiveAndChecked, steps);
    RunFailsOnce(c, steps);
    NoCallLeft(c, Exec(c, KeysLiveAndChecked, steps).value, d, t);
  }
}
