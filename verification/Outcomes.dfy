/** How a job ends in a run without faults, and that such runs drain. */
module Outcomes {
  import opened Options
  import opened Queue
  import opened Delivery
  import opened Invariant
  import opened Dedup
  import opened FaultFree
  import Fate

  ghost predicate Ends(h: History, a: Attempt)
  {
    a in h.won || a in h.sent || a in h.dropped
  }

  /** Nothing of the job is left to do but acknowledgements. */
  ghost predicate AtRest(s: State, j: JobId)
  {
    && (forall p: nat, id: nat, b :: HoldsAttempt(s, p, id, b) && s.streams[p].next <= id ==> b.job != j)
    && (forall u :: u in s.tasks && s.tasks[u].env.job == j ==> s.tasks[u].pc.Settling?)
  }

  /** An attempt that ends its job is the last one called, and the job is at rest. */
  ghost predicate Closed(c: Config, s: State)
  {
    && (forall a :: Ends(s.h, a) ==> 0 < a.retry + 1 == Calls(s, a.job) && AtRest(s, a.job))
    && (forall a :: a in s.h.sent || a in s.h.dropped ==> a.retry + 1 == c.maxRetries)
  }

  /** Success excludes the dead letter stream, and each is reached at most once. */
  ghost predicate Exclusive(c: Config, s: State)
  {
    && (forall a :: a in s.h.won ==> a !in s.h.sent && a !in s.h.dropped)
    && (forall a :: a in s.h.wins ==> a in s.h.won)
    && (forall d :: 0 <= d < |s.dlq.log| ==> Attempt(s.dlq.log[d].env.job, c.maxRetries - 1) in s.h.sent)
    && (forall i, k :: 0 <= i < k < |s.h.wins| ==> s.h.wins[i].job != s.h.wins[k].job)
    && (forall a: Attempt :: a in s.h.sent ==> exists d :: 0 <= d < |s.dlq.log| && s.dlq.log[d].env.job == a.job)
    && (if c.hasDlq then s.h.dropped == {} else s.h.sent == {})
    && (forall d, e :: 0 <= d < e < |s.dlq.log| ==> s.dlq.log[d].env.job != s.dlq.log[e].env.job)
  }

  // ---- A job at rest stays at rest ----

  lemma EnqueueRest(c: Config, s: State, job: JobId, event: LogEvent, j: JobId)
    requires c.Valid() && CanEnqueue(c, s, job, event, 0) && AtRest(s, j) && j in s.h.accepted
    ensures AtRest(DoEnqueue(c, s, job, event, Ok, 0), j)
  {
    var s' := DoEnqueue(c, s, job, event, Ok, 0);
    var p := Home(c, event);
    assert s'.streams[p].log == s.streams[p].log + [Job(BuildJobEnvelope(job, event, c.maxRetries, s.now))];
    assert Adds(s, s', p, Attempt(job, 0));
    AddsOne(s, s', p, Attempt(job, 0));
    hide Adds, HoldsAttempt;
  }

  lemma CopyRest(s: State, t: nat, j: JobId)
    requires CanCopy(s, t) && AtRest(s, j)
    ensures AtRest(DoCopy(s, t, Ok), j)
  {
    var s' := DoCopy(s, t, Ok);
    var k := s.tasks[t];
    var m := Job(Bumped(k.env, k.pc.err));
    assert s'.streams[k.part].log == s.streams[k.part].log + [m];
    assert Adds(s, s', k.part, AttemptOf(m.env));
    AddsOne(s, s', k.part, AttemptOf(m.env));
    hide Adds, HoldsAttempt;
  }

  lemma DeliverRest(c: Config, s: State, t: nat, worker: nat, p: nat, j: JobId)
    requires CanDeliver(s, t, p) && s.streams[p].base == 0 && AtRest(s, j)
    ensures AtRest(DoDeliver(c, s, t, worker, p), j)
  {
    var s' := DoDeliver(c, s, t, worker, p);
    SameEntriesHold(s, s');
    var id := s.streams[p].next;
    assert NextId(s.streams[p]) == id;
    if t in s'.tasks {
      assert HoldsAttempt(s, p, id, AttemptOf(s'.tasks[t].env));
    }
    hide HoldsAttempt;
  }

  lemma SettleRest(s: State, s': State, j: JobId)
    requires SameEntries(s, s') && AtRest(s, j)
    requires forall u :: u in s'.tasks ==>
               && u in s.tasks && s'.tasks[u].env == s.tasks[u].env
               && (s.tasks[u].pc.Settling? ==> s'.tasks[u].pc.Settling?)
    ensures AtRest(s', j)
  {
    SameEntriesHold(s, s');
    hide HoldsAttempt;
  }

  lemma BuryRest(s: State, t: nat, out: Outcome, cut: nat, j: JobId)
    requires IsFailing(s, t) && AtRest(s, j)
    ensures AtRest(DoBury(s, t, out, cut), j)
  {
    hide AtRest;
    SettleRest(s, DoBury(s, t, out, cut), j);
  }

  lemma AckRest(s: State, t: nat, out: Outcome, j: JobId)
    requires CanAck(s, t) && AtRest(s, j)
    ensures AtRest(DoAck(s, t, out), j)
  {
    hide AtRest;
    SettleRest(s, DoAck(s, t, out), j);
  }

  lemma StepRest(c: Config, s: State, step: Step, j: JobId)
    requires c.Valid() && Orderly(s) && Enabled(c, s, step) && Allowed(FaultFree, s, step)
    requires AtRest(s, j) && j in s.h.accepted
    ensures AtRest(Apply(c, s, step), j)
  {
    hide Orderly, AtRest;
    OrderlyFacts(s, 0);
    match step
    case Enqueue(k, e, _, _) => EnqueueRest(c, s, k, e, j);
    case Deliver(t, w, p) => DeliverRest(c, s, t, w, p, j);
    case Copy(t, _) => CopyRest(s, t, j);
    case Tick(dt) => SettleRest(s, s.(now := s.now + dt), j);
    case Check(t, out, err) => SettleRest(s, DoCheck(c, s, t, out, err), j);
    case Invoke(t) => SettleRest(s, DoInvoke(s, t), j);
    case Return(t, result) => SettleRest(s, DoReturn(s, t, result), j);
    case Drop(t) => SettleRest(s, DoDrop(s, t), j);
    case Bury(t, out, cut) => BuryRest(s, t, out, cut, j);
    case Ack(t, out) => AckRest(s, t, out, j);
  }

  // ---- A goroutine past its call is all that is under way for its job ----

  lemma BusyAlone(c: Config, s: State, t: nat)
    requires Inv(c, s) && Orderly(s) && t in s.tasks && (s.tasks[t].pc.Running? || s.tasks[t].pc.Failing?)
    ensures s.tasks[t].env.retryCount + 1 == Calls(s, s.tasks[t].env.job)
    ensures AtRest(s.(tasks := s.tasks - {t}), s.tasks[t].env.job)
  {
    hide Inv;
    OthersDiffer(c, s, t);
    assert TaskPlaceOk(s, s.tasks[t]);
    var a := AttemptOf(s.tasks[t].env);
    var next := Attempt(a.job, a.retry + 1);
    var s0 := s.(tasks := s.tasks - {t});
    forall p: nat, id: nat, b | HoldsAttempt(s0, p, id, b) && s0.streams[p].next <= id ensures b.job != a.job {
      assert HoldsAttempt(s, p, id, b);
      assert b != next;
    }
    forall u | u in s0.tasks && s0.tasks[u].env.job == a.job ensures s0.tasks[u].pc.Settling? {
      OtherSettles(c, s, t, u);
    }
  }

  lemma OtherSettles(c: Config, s: State, t: nat, u: nat)
    requires Inv(c, s) && Orderly(s) && t in s.tasks && (s.tasks[t].pc.Running? || s.tasks[t].pc.Failing?)
    requires u in s.tasks && u != t && s.tasks[u].env.job == s.tasks[t].env.job
    ensures s.tasks[u].pc.Settling?
  {
    hide Inv;
    OthersDiffer(c, s, t);
    OthersDiffer(c, s, u);
    assert TaskPlaceOk(s, s.tasks[t]);
    assert TaskPlaceOk(s, s.tasks[u]);
    assert AttemptOf(s.tasks[u].env) != AttemptOf(s.tasks[t].env);
  }

  // ---- Closed and Exclusive are kept ----

  predicate Closing(step: Step)
  {
    step.Invoke? || step.Return? || step.Bury? || step.Drop?
  }

  lemma PassiveSame(c: Config, s: State, step: Step)
    requires c.Valid() && Enabled(c, s, step) && Allowed(FaultFree, s, step) && !Closing(step)
    ensures var h' := Apply(c, s, step).h;
            && h'.won == s.h.won && h'.wins == s.h.wins && h'.calls == s.h.calls
            && h'.sent == s.h.sent && h'.dropped == s.h.dropped
    ensures Apply(c, s, step).dlq.log == s.dlq.log
  {
  }

  lemma RestStays(c: Config, s: State, step: Step)
    requires c.Valid() && Orderly(s) && Closed(c, s) && Enabled(c, s, step) && Allowed(FaultFree, s, step)
    ensures forall a :: Ends(s.h, a) ==> AtRest(Apply(c, s, step), a.job)
  {
    forall a | Ends(s.h, a) ensures AtRest(Apply(c, s, step), a.job) {
      assert a.job in s.h.accepted;
      assert AtRest(s, a.job);
      hide AtRest, Orderly, Closed;
      StepRest(c, s, step, a.job);
    }
  }

  /** A job with a goroutine that is not settling has not ended. */
  lemma NotEnded(c: Config, s: State, t: nat, a: Attempt)
    requires Closed(c, s) && t in s.tasks && !s.tasks[t].pc.Settling? && Ends(s.h, a)
    ensures a.job != s.tasks[t].env.job
  {
    assert AtRest(s, a.job);
  }

  lemma InvokeClosed(c: Config, s: State, t: nat)
    requires Closed(c, s) && AtPc(s, t, Calling)
    ensures Closed(c, DoInvoke(s, t))
  {
    var s' := DoInvoke(s, t);
    forall a | Ends(s'.h, a) ensures 0 < a.retry + 1 == Calls(s', a.job) && AtRest(s', a.job) {
      NotEnded(c, s, t, a);
      CallsOfSnoc(s.h.calls, AttemptOf(s.tasks[t].env), a.job);
      SettleRest(s, s', a.job);
    }
  }

  /** A goroutine past its call ends its job. */
  lemma EndClosed(c: Config, s: State, s': State, t: nat)
    requires Inv(c, s) && Orderly(s) && Closed(c, s)
    requires t in s.tasks && (s.tasks[t].pc.Running? || s.tasks[t].pc.Failing?) && 0 <= s.tasks[t].env.retryCount
    requires s'.streams == s.streams && s'.tasks == s.tasks[t := s.tasks[t].(pc := Settling)]
    requires s'.h.calls == s.h.calls && s'.h.accepted == s.h.accepted
    requires forall a :: Ends(s'.h, a) ==> Ends(s.h, a) || a == AttemptOf(s.tasks[t].env)
    requires forall a: Attempt :: a in s'.h.sent || a in s'.h.dropped ==>
               a in s.h.sent || a in s.h.dropped || a.retry + 1 == c.maxRetries
    ensures Closed(c, s')
  {
    hide Inv, Orderly;
    BusyAlone(c, s, t);
    var a0 := AttemptOf(s.tasks[t].env);
    forall a | Ends(s'.h, a) ensures 0 < a.retry + 1 == Calls(s', a.job) && AtRest(s', a.job) {
      if Ends(s.h, a) {
        SettleRest(s, s', a.job);
      } else {
        RestWithSettling(s, s', t);
      }
    }
  }

  lemma RestWithSettling(s: State, s': State, t: nat)
    requires t in s.tasks && AtRest(s.(tasks := s.tasks - {t}), s.tasks[t].env.job)
    requires s'.streams == s.streams && s'.tasks == s.tasks[t := s.tasks[t].(pc := Settling)]
    ensures AtRest(s', s.tasks[t].env.job)
  {
    var s0 := s.(tasks := s.tasks - {t});
    assert forall p: nat, id: nat, b :: HoldsAttempt(s', p, id, b) ==> HoldsAttempt(s0, p, id, b);
    assert forall u :: u in s'.tasks && u != t ==> u in s0.tasks && s'.tasks[u] == s0.tasks[u];
  }

  lemma StepClosed(c: Config, s: State, step: Step)
    requires c.Valid() && Inv(c, s) && Orderly(s) && Closed(c, s) && Enabled(c, s, step) && Allowed(FaultFree, s, step)
    ensures Closed(c, Apply(c, s, step))
  {
    hide Inv, Orderly;
    if !Closing(step) {
      PassiveClosed(c, s, step);
    } else {
      hide Closed;
      match step
      case Invoke(t) => InvokeClosed(c, s, t);
      case Return(t, result) => ReturnClosed(c, s, t, result);
      case Bury(t, out, cut) => BuryClosed(c, s, t, cut);
      case Drop(t) => DropClosed(c, s, t);
    }
  }

  lemma PassiveClosed(c: Config, s: State, step: Step)
    requires c.Valid() && Orderly(s) && Closed(c, s) && Enabled(c, s, step) && Allowed(FaultFree, s, step)
    requires !Closing(step)
    ensures Closed(c, Apply(c, s, step))
  {
    hide Orderly, AtRest;
    PassiveSame(c, s, step);
    RestStays(c, s, step);
    hide Apply, Enabled, Allowed;
  }

  lemma ReturnClosed(c: Config, s: State, t: nat, result: Result)
    requires Inv(c, s) && Orderly(s) && Closed(c, s) && AtPc(s, t, Running)
    ensures Closed(c, DoReturn(s, t, result))
  {
    hide Inv, Orderly, AtRest;
    TaskEntry(c, s, t);
    var s' := DoReturn(s, t, result);
    if result.Success? {
      EndClosed(c, s, s', t);
    } else {
      forall a | Ends(s.h, a) ensures AtRest(s', a.job) {
        SettleRest(s, s', a.job);
      }
    }
  }

  lemma BuryClosed(c: Config, s: State, t: nat, cut: nat)
    requires Inv(c, s) && Orderly(s) && Closed(c, s) && CanBury(c, s, t, cut)
    ensures Closed(c, DoBury(s, t, Ok, cut))
  {
    hide Inv, Orderly, AtRest;
    TaskEntry(c, s, t);
    EndClosed(c, s, DoBury(s, t, Ok, cut), t);
  }

  lemma DropClosed(c: Config, s: State, t: nat)
    requires Inv(c, s) && Orderly(s) && Closed(c, s) && CanDrop(c, s, t)
    ensures Closed(c, DoDrop(s, t))
  {
    hide Inv, Orderly, AtRest;
    TaskEntry(c, s, t);
    EndClosed(c, s, DoDrop(s, t), t);
  }

  lemma ReturnExclusive(c: Config, s: State, t: nat, result: Result)
    requires Closed(c, s) && Exclusive(c, s) && AtPc(s, t, Running)
    ensures Exclusive(c, DoReturn(s, t, result))
  {
    var s' := DoReturn(s, t, result);
    forall a | Ends(s.h, a) ensures a.job != s.tasks[t].env.job {
      NotEnded(c, s, t, a);
    }
    hide Closed;
  }

  lemma BuryExclusive(c: Config, s: State, t: nat, cut: nat)
    requires Closed(c, s) && Exclusive(c, s) && CanBury(c, s, t, cut) && s.tasks[t].env.retryCount + 1 == c.maxRetries
    ensures Exclusive(c, DoBury(s, t, Ok, cut))
  {
    var s' := DoBury(s, t, Ok, cut);
    forall a | Ends(s.h, a) ensures a.job != s.tasks[t].env.job {
      NotEnded(c, s, t, a);
    }
    hide Closed;
    var n := |s.dlq.log|;
    assert s'.dlq.log[n].env.job == s.tasks[t].env.job;
    forall a: Attempt | a in s'.h.sent ensures exists d :: 0 <= d < |s'.dlq.log| && s'.dlq.log[d].env.job == a.job {
      if a in s.h.sent {
        var d :| 0 <= d < |s.dlq.log| && s.dlq.log[d].env.job == a.job;
        assert s'.dlq.log[d].env.job == a.job;
      }
    }
  }

  lemma DropExclusive(c: Config, s: State, t: nat)
    requires Closed(c, s) && Exclusive(c, s) && CanDrop(c, s, t)
    ensures Exclusive(c, DoDrop(s, t))
  {
    forall a | Ends(s.h, a) ensures a.job != s.tasks[t].env.job {
      NotEnded(c, s, t, a);
    }
    hide Closed;
  }

  lemma StepExclusive(c: Config, s: State, step: Step)
    requires c.Valid() && Inv(c, s) && Closed(c, s) && Exclusive(c, s) && Enabled(c, s, step)
    requires Allowed(FaultFree, s, step)
    ensures Exclusive(c, Apply(c, s, step))
  {
    hide Inv, Closed;
    if !Closing(step) {
      PassiveSame(c, s, step);
      hide Apply, Enabled, Allowed;
    } else {
      hide Exclusive;
      match step
      case Invoke(t) => InvokeExclusive(c, s, t);
      case Return(t, result) => ReturnExclusive(c, s, t, result);
      case Bury(t, out, cut) =>
        TaskEntry(c, s, t);
        BuryExclusive(c, s, t, cut);
      case Drop(t) => DropExclusive(c, s, t);
    }
  }

  lemma InvokeExclusive(c: Config, s: State, t: nat)
    requires Exclusive(c, s) && t in s.tasks
    ensures Exclusive(c, DoInvoke(s, t))
  {
  }

  lemma {:induction false} RunCloses(c: Config, steps: seq<Step>)
    requires c.Valid()
    ensures var r := Exec(c, FaultFree, steps); r.Some? ==> Closed(c, r.value) && Exclusive(c, r.value)
  {
    if steps != [] && Exec(c, FaultFree, steps).Some? {
      hide Inv, Orderly, Closed, Exclusive;
      var n := |steps| - 1;
      RunCloses(c, steps[..n]);
      RunOrderly(c, steps[..n]);
      RunKeeps(c, FaultFree, steps[..n]);
      var s := Exec(c, FaultFree, steps[..n]).value;
      StepClosed(c, s, steps[n]);
      StepExclusive(c, s, steps[n]);
    }
  }

  // ---- What a fault-free run looks like for one job ----

  /** The counts 0, 1, ..., n - 1. */
  function Counting(n: nat): seq<int>
  {
    seq(n, i => i)
  }

  ghost predicate Drained(s: State)
  {
    s.tasks == map[] && forall p: nat :: p < |s.streams| ==> s.streams[p].next == |s.streams[p].log|
  }

  lemma CallAt(c: Config, s: State, j: JobId, r: nat)
    requires c.Valid() && Inv(c, s) && Orderly(s) && r < Calls(s, j)
    ensures CallsOf(s.h.calls, j)[r] == r
    ensures r < c.maxRetries && (0 < r ==> HasFailed(s.h, Attempt(j, r - 1)))
  {
    CallsOfMembers(s.h.calls, j);
    assert CallsOf(s.h.calls, j)[r] == r && r in CallsOf(s.h.calls, j);
    assert Appended(s, Attempt(j, r));
    var p: nat, id: nat :| HoldsAttempt(s, p, id, Attempt(j, r));
    var env := Msg(s, p, id).env;
    assert EntryOk(c, s.h, env);
    assert 0 < r ==> Failure(Attempt(j, r - 1), env.lastError) in s.h.failed;
  }

  lemma CallsBelow(c: Config, s: State, j: JobId)
    requires c.Valid() && Inv(c, s) && Orderly(s)
    ensures CallsOf(s.h.calls, j) == Counting(Calls(s, j))
    ensures Calls(s, j) <= c.maxRetries
    ensures forall r :: 0 <= r < Calls(s, j) - 1 ==> HasFailed(s.h, Attempt(j, r))
  {
    hide Inv, Orderly;
    forall r | 0 <= r < Calls(s, j) ensures CallsOf(s.h.calls, j)[r] == r {
      CallAt(c, s, j, r);
    }
    if 0 < Calls(s, j) {
      CallAt(c, s, j, Calls(s, j) - 1);
    }
    forall r | 0 <= r < Calls(s, j) - 1 ensures HasFailed(s.h, Attempt(j, r)) {
      CallAt(c, s, j, r + 1);
    }
  }

  /** In a run without faults downstream sees a job with counts 0, 1, 2, ... in order, never more than
      MaxRetries of them, each but the last having failed. */
  lemma AttemptsInOrder(c: Config, steps: seq<Step>, j: JobId)
    requires c.Valid() && Exec(c, FaultFree, steps).Some?
    ensures var s := Exec(c, FaultFree, steps).value;
            && CallsOf(s.h.calls, j) == Counting(Calls(s, j))
            && Calls(s, j) <= c.maxRetries
            && (forall r :: 0 <= r < Calls(s, j) - 1 ==> HasFailed(s.h, Attempt(j, r)))
            && s.duplicates == 0
  {
    hide Inv, Orderly;
    RunKeeps(c, FaultFree, steps);
    RunOrderly(c, steps);
    CallsBelow(c, Exec(c, FaultFree, steps).value, j);
    OrderlyFacts(Exec(c, FaultFree, steps).value, j);
  }

  // ---- Pending entries are being worked on ----

  ghost predicate Works(s: State, t: nat, p: nat, id: nat)
  {
    t in s.tasks && s.tasks[t].part == p && s.tasks[t].id == id
  }

  ghost predicate Held(s: State)
  {
    && (forall p: nat, id: nat :: At(s, p, id) ==> Msg(s, p, id).Job?)
    && (forall p: nat, id: nat :: p < |s.streams| && id in s.streams[p].pel ==> exists t: nat :: Works(s, t, p, id))
  }

  lemma KeepHeld(s: State, s': State)
    requires Held(s) && |s'.streams| == |s.streams|
    requires forall p: nat :: p < |s.streams| ==> s'.streams[p].pel == s.streams[p].pel
    requires forall p: nat, id: nat :: At(s', p, id) ==> Msg(s', p, id).Job?
    requires forall u :: u in s.tasks ==> u in s'.tasks && s'.tasks[u] == s.tasks[u].(pc := s'.tasks[u].pc)
    ensures Held(s')
  {
    forall p: nat, id: nat | p < |s'.streams| && id in s'.streams[p].pel ensures exists t: nat :: Works(s', t, p, id) {
      var t: nat :| Works(s, t, p, id);
      assert Works(s', t, p, id);
    }
  }

  lemma SameStreamsHeld(s: State, s': State)
    requires Held(s) && s'.streams == s.streams
    requires forall u :: u in s.tasks ==> u in s'.tasks && s'.tasks[u] == s.tasks[u].(pc := s'.tasks[u].pc)
    ensures Held(s')
  {
    assert forall p: nat, id: nat :: At(s', p, id) ==> At(s, p, id) && Msg(s', p, id) == Msg(s, p, id);
    KeepHeld(s, s');
  }

  lemma EnqueueHeld(c: Config, s: State, job: JobId, event: LogEvent)
    requires c.Valid() && Held(s) && CanEnqueue(c, s, job, event, 0)
    ensures Held(DoEnqueue(c, s, job, event, Ok, 0))
  {
    var s' := DoEnqueue(c, s, job, event, Ok, 0);
    assert forall p: nat, id: nat :: At(s', p, id) && At(s, p, id) ==> Msg(s', p, id) == Msg(s, p, id);
    KeepHeld(s, s');
  }

  lemma CopyHeld(s: State, t: nat)
    requires Held(s) && CanCopy(s, t)
    ensures Held(DoCopy(s, t, Ok))
  {
    var s' := DoCopy(s, t, Ok);
    assert forall p: nat, id: nat :: At(s', p, id) && At(s, p, id) ==> Msg(s', p, id) == Msg(s, p, id);
    KeepHeld(s, s');
  }

  lemma DeliverHeld(c: Config, s: State, t: nat, worker: nat, p: nat)
    requires Held(s) && CanDeliver(s, t, p)
    ensures Held(DoDeliver(c, s, t, worker, p))
  {
    var s' := DoDeliver(c, s, t, worker, p);
    assert forall q: nat, i: nat :: At(s', q, i) ==> At(s, q, i) && Msg(s', q, i) == Msg(s, q, i);
    assert At(s, p, NextId(s.streams[p]));
    assert Works(s', t, p, NextId(s.streams[p]));
    forall q: nat, id: nat | q < |s'.streams| && id in s'.streams[q].pel ensures exists u: nat :: Works(s', u, q, id) {
      if !(q == p && id == NextId(s.streams[p])) {
        var u: nat :| Works(s, u, q, id);
        assert Works(s', u, q, id);
      }
    }
  }

  lemma AckHeld(s: State, t: nat)
    requires Held(s) && CanAck(s, t)
    ensures Held(DoAck(s, t, Ok))
  {
    var s' := DoAck(s, t, Ok);
    assert forall q: nat, i: nat :: At(s', q, i) ==> At(s, q, i) && Msg(s', q, i) == Msg(s, q, i);
    forall q: nat, id: nat | q < |s'.streams| && id in s'.streams[q].pel ensures exists u: nat :: Works(s', u, q, id) {
      var u: nat :| Works(s, u, q, id);
      assert u != t;
      assert Works(s', u, q, id);
    }
  }

  lemma StepHeld(c: Config, s: State, step: Step)
    requires c.Valid() && Untouched(s) && Held(s) && Enabled(c, s, step) && Allowed(FaultFree, s, step)
    ensures Held(Apply(c, s, step))
  {
    hide Held;
    match step
    case Enqueue(j, e, _, _) => EnqueueHeld(c, s, j, e);
    case Deliver(t, w, p) => DeliverHeld(c, s, t, w, p);
    case Copy(t, _) => CopyHeld(s, t);
    case Ack(t, _) => AckHeld(s, t);
    case Tick(dt) => SameStreamsHeld(s, s.(now := s.now + dt));
    case Check(t, out, err) => SameStreamsHeld(s, DoCheck(c, s, t, out, err));
    case Invoke(t) => SameStreamsHeld(s, DoInvoke(s, t));
    case Return(t, result) => SameStreamsHeld(s, DoReturn(s, t, result));
    case Bury(t, out, cut) => SameStreamsHeld(s, DoBury(s, t, out, cut));
    case Drop(t) => SameStreamsHeld(s, DoDrop(s, t));
  }

  lemma {:induction false} RunHeld(c: Config, steps: seq<Step>)
    requires c.Valid()
    ensures var r := Exec(c, FaultFree, steps); r.Some? ==> Held(r.value)
  {
    if steps != [] && Exec(c, FaultFree, steps).Some? {
      hide Held, Orderly;
      var n := |steps| - 1;
      RunHeld(c, steps[..n]);
      RunOrderly(c, steps[..n]);
      OrderlyFacts(Exec(c, FaultFree, steps[..n]).value, 0);
      StepHeld(c, Exec(c, FaultFree, steps[..n]).value, steps[n]);
    }
  }

  // ---- Every job of a drained run has ended ----

  lemma NothingWaits(s: State, j: JobId)
    requires Drained(s) && Held(s) && Untouched(s)
    ensures !Fate.Outstanding(s, j) && !Fate.Trimmed(s, j) && !Fate.InHand(s, j) && !Fate.ClaimLost(s, j)
  {
    assert forall t: nat, p: nat, id: nat :: !Works(s, t, p, id);
  }

  lemma DrainedEnds(c: Config, steps: seq<Step>, j: JobId) returns (a: Attempt)
    requires c.Valid() && Exec(c, FaultFree, steps).Some?
    requires var s := Exec(c, FaultFree, steps).value; Drained(s) && j in s.h.accepted
    ensures a.job == j && Ends(Exec(c, FaultFree, steps).value.h, a)
  {
    hide Inv, Orderly, Held;
    var s := Exec(c, FaultFree, steps).value;
    RunOrderly(c, steps);
    RunHeld(c, steps);
    OrderlyFacts(s, j);
    Unassume(c, FaultFree, steps);
    Fate.JobFate(c, steps, j);
    NothingWaits(s, j);
    hide Fate.Outstanding, Fate.Trimmed, Fate.InHand, Fate.ClaimLost;
    if r :| Attempt(j, r) in s.h.won {
      a := Attempt(j, r);
    } else if r :| Attempt(j, r) in s.h.sent {
      a := Attempt(j, r);
    } else {
      var r :| Attempt(j, r) in s.h.dropped;
      a := Attempt(j, r);
    }
  }

  /** Success on the last of the attempts seen, with no dead letter. */
  ghost predicate EndsInSuccess(s: State, j: JobId)
  {
    && 0 < Calls(s, j)
    && Attempt(j, Calls(s, j) - 1) in s.h.won
    && (forall d :: 0 <= d < |s.dlq.log| ==> s.dlq.log[d].env.job != j)
  }

  /** All MaxRetries attempts seen, no success, and exactly one dead letter if there is a dead letter queue. */
  ghost predicate EndsInDeadLetter(c: Config, s: State, j: JobId)
  {
    && Calls(s, j) == c.maxRetries
    && (forall i :: 0 <= i < |s.h.wins| ==> s.h.wins[i].job != j)
    && (if c.hasDlq then
          exists d :: 0 <= d < |s.dlq.log| && s.dlq.log[d].env.job == j &&
            forall e :: 0 <= e < |s.dlq.log| && s.dlq.log[e].env.job == j ==> e == d
        else Attempt(j, c.maxRetries - 1) in s.h.dropped)
  }

  lemma HowItEnds(c: Config, s: State, a: Attempt)
    requires c.Valid() && Closed(c, s) && Exclusive(c, s) && Ends(s.h, a)
    ensures EndsInSuccess(s, a.job) || EndsInDeadLetter(c, s, a.job)
  {
    if a in s.h.won {
      assert Ends(s.h, a);
      forall d | 0 <= d < |s.dlq.log| ensures s.dlq.log[d].env.job != a.job {
        var b := Attempt(s.dlq.log[d].env.job, c.maxRetries - 1);
        assert b in s.h.sent && Ends(s.h, b);
      }
    } else {
      forall i | 0 <= i < |s.h.wins| ensures s.h.wins[i].job != a.job {
        assert s.h.wins[i] in s.h.won && Ends(s.h, s.h.wins[i]);
      }
      if a in s.h.sent {
        var d :| 0 <= d < |s.dlq.log| && s.dlq.log[d].env.job == a.job;
        assert forall e :: 0 <= e < |s.dlq.log| && s.dlq.log[e].env.job == a.job ==> e == d;
      } else {
        assert a == Attempt(a.job, c.maxRetries - 1);
      }
    }
  }

  /** Every accepted job of a drained fault-free run succeeded on its last attempt, or was tried exactly
      MaxRetries times and dead-lettered once. */
  lemma DrainedOutcome(c: Config, steps: seq<Step>, j: JobId)
    requires c.Valid() && Exec(c, FaultFree, steps).Some?
    requires var s := Exec(c, FaultFree, steps).value; Drained(s) && j in s.h.accepted
    ensures var s := Exec(c, FaultFree, steps).value; EndsInSuccess(s, j) || EndsInDeadLetter(c, s, j)
  {
    var a := DrainedEnds(c, steps, j);
    hide Closed, Exclusive;
    RunCloses(c, steps);
    HowItEnds(c, Exec(c, FaultFree, steps).value, a);
  }
}
