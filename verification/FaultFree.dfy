/** Runs without faults: the exact sequence of attempts a job goes through, and termination. */
module FaultFree {
  import opened Options
  import opened Queue
  import opened Delivery
  import opened Invariant
  import opened Dedup

  /** How often a job has been handed to downstream. */
  ghost function Calls(s: State, j: JobId): nat
  {
    |CallsOf(s.h.calls, j)|
  }

  ghost predicate Unique(s: State)
  {
    forall p: nat, id: nat, q: nat, i: nat, a: Attempt ::
      HoldsAttempt(s, p, id, a) && HoldsAttempt(s, q, i, a) ==> p == q && id == i
  }

  ghost predicate OneTask(s: State)
  {
    forall t, u ::
      t in s.tasks && u in s.tasks && s.tasks[t].part == s.tasks[u].part && s.tasks[t].id == s.tasks[u].id ==> t == u
  }

  ghost predicate InOrder(s: State)
  {
    forall j, i :: 0 <= i < Calls(s, j) ==> CallsOf(s.h.calls, j)[i] == i
  }

  ghost predicate Untouched(s: State)
  {
    && (forall p: nat :: p < |s.streams| ==> s.streams[p].base == 0)
    && s.operators == map[]
    && s.h.abandoned == {}
    && s.duplicates == 0
  }

  /** An entry's count is at most the calls made; an undelivered one is exactly next to be called. */
  ghost predicate EntryPlace(s: State)
  {
    forall p: nat, id: nat, a :: HoldsAttempt(s, p, id, a) ==>
      && a.retry <= Calls(s, a.job)
      && (s.streams[p].next <= id ==> a.retry == Calls(s, a.job) && a !in s.keys)
  }

  ghost predicate TaskPlaceOk(s: State, k: Task)
  {
    var a := AttemptOf(k.env);
    && (k.pc.Checking? ==> a !in s.keys)
    && (k.pc.Checking? || k.pc.Calling? ==> a.retry == Calls(s, a.job))
    && (k.pc.Running? || k.pc.Failing? ==> a.retry + 1 == Calls(s, a.job) && !Appended(s, Attempt(a.job, a.retry + 1)))
  }

  ghost predicate TaskPlace(s: State)
  {
    forall t :: t in s.tasks ==> TaskPlaceOk(s, s.tasks[t])
  }

  ghost predicate KeysPlace(s: State)
  {
    && (forall a :: a in s.keys || a in s.h.calls ==> Appended(s, a))
    && (forall j :: 0 < Calls(s, j) ==> j in s.h.accepted)
  }

  ghost predicate Orderly(s: State)
  {
    Untouched(s) && Unique(s) && OneTask(s) && InOrder(s) && EntryPlace(s) && TaskPlace(s) && KeysPlace(s)
  }

  lemma CallsOfSnoc(calls: seq<Attempt>, a: Attempt, j: JobId)
    ensures CallsOf(calls + [a], j) == CallsOf(calls, j) + (if a.job == j then [a.retry] else [])
  {
    assert (calls + [a])[..|calls|] == calls;
  }

  // ---- Appending one entry ----

  /** The only change to the streams is one more entry at the end of stream p. */
  ghost predicate Adds(s: State, s': State, p: nat, a: Attempt)
  {
    && p < |s.streams| == |s'.streams|
    && (forall q: nat :: q < |s.streams| && q != p ==> s'.streams[q] == s.streams[q])
    && s'.streams[p].base == s.streams[p].base && s'.streams[p].next == s.streams[p].next
    && (exists m: Payload :: m.Job? && AttemptOf(m.env) == a && s'.streams[p].log == s.streams[p].log + [m])
  }

  lemma AddsOne(s: State, s': State, p: nat, a: Attempt)
    requires Adds(s, s', p, a)
    ensures HoldsAttempt(s', p, |s.streams[p].log|, a)
    ensures forall q: nat, id: nat, b :: HoldsAttempt(s, q, id, b) ==> HoldsAttempt(s', q, id, b)
    ensures forall q: nat, id: nat, b :: HoldsAttempt(s', q, id, b) ==>
              HoldsAttempt(s, q, id, b) || (q == p && id == |s.streams[p].log| && b == a)
    ensures forall b :: Appended(s', b) <==> Appended(s, b) || b == a
  {
    forall b ensures Appended(s', b) <==> Appended(s, b) || b == a {
      if Appended(s', b) {
        var q: nat, id: nat :| HoldsAttempt(s', q, id, b);
        assert HoldsAttempt(s, q, id, b) || b == a;
      }
      if Appended(s, b) {
        var q: nat, id: nat :| HoldsAttempt(s, q, id, b);
        assert HoldsAttempt(s', q, id, b);
      }
      assert HoldsAttempt(s', p, |s.streams[p].log|, a);
    }
  }

  ghost predicate AwaitsCopy(s: State, t: nat, a: Attempt)
  {
    && t in s.tasks && (s.tasks[t].pc.Running? || s.tasks[t].pc.Failing?)
    && a == Attempt(s.tasks[t].env.job, s.tasks[t].env.retryCount + 1)
  }

  lemma AddOrderly(c: Config, s: State, s': State, p: nat, a: Attempt)
    requires StreamsOk(c, s) && Orderly(s) && Adds(s, s', p, a) && Untouched(s')
    requires !Appended(s, a) && a.retry == Calls(s, a.job)
    requires s'.keys == s.keys && s'.h.calls == s.h.calls
    requires forall j :: j in s.h.accepted ==> j in s'.h.accepted
    requires forall u :: u in s'.tasks ==>
               && u in s.tasks
               && ((s'.tasks[u] == s.tasks[u] && !AwaitsCopy(s, u, a)) || s'.tasks[u] == s.tasks[u].(pc := Settling))
    ensures Orderly(s')
  {
    AddsOne(s, s', p, a);
    hide Appended, HoldsAttempt, CallsOf, Adds;
    assert Unique(s');
    assert EntryPlace(s');
    assert TaskPlace(s');
    assert KeysPlace(s');
  }

  lemma TaskHolds(c: Config, s: State, t: nat)
    requires TasksOk(c, s) && t in s.tasks
    ensures HoldsAttempt(s, s.tasks[t].part, s.tasks[t].id, AttemptOf(s.tasks[t].env))
    ensures s.tasks[t].id < s.streams[s.tasks[t].part].next
  {
    assert TaskOk(c, s, s.tasks[t]);
  }

  lemma AppendedAccepted(c: Config, s: State, a: Attempt)
    requires Inv(c, s) && Appended(s, a)
    ensures a.job in s.h.accepted
  {
    var p: nat, id: nat :| HoldsAttempt(s, p, id, a);
    assert EntryOk(c, s.h, Msg(s, p, id).env);
  }

  lemma EnqueueOrderly(c: Config, s: State, job: JobId, event: LogEvent)
    requires c.Valid() && Inv(c, s) && Orderly(s) && CanEnqueue(c, s, job, event, 0)
    ensures Orderly(DoEnqueue(c, s, job, event, Ok, 0))
  {
    var s' := DoEnqueue(c, s, job, event, Ok, 0);
    var a := Attempt(job, 0);
    assert !Appended(s, a) by {
      if Appended(s, a) {
        AppendedAccepted(c, s, a);
      }
    }
    forall u | u in s.tasks ensures !AwaitsCopy(s, u, a) {
      TaskEntry(c, s, u);
    }
    Facts(c, s, 0);
    hide Inv, Appended, Orderly;
    var p := Home(c, event);
    assert s'.streams[p].log == s.streams[p].log + [Job(BuildJobEnvelope(job, event, c.maxRetries, s.now))];
    assert Adds(s, s', p, a);
    assert Untouched(s') && 0 == Calls(s, job) by { OrderlyFacts(s, job); }
    AddOrderly(c, s, s', p, a);
  }

  lemma OrderlyFacts(s: State, job: JobId)
    requires Orderly(s)
    ensures Untouched(s) && (job !in s.h.accepted ==> Calls(s, job) == 0)
  {
  }

  /** Goroutines past their call carry distinct attempts, so they await distinct copies. */
  lemma OthersAwaitOther(c: Config, s: State, t: nat, u: nat)
    requires Inv(c, s) && Orderly(s) && t in s.tasks && u in s.tasks && u != t
    ensures !AwaitsCopy(s, u, Attempt(s.tasks[t].env.job, s.tasks[t].env.retryCount + 1))
  {
    hide Inv;
    Facts(c, s, t);
    Facts(c, s, u);
    var k, l := s.tasks[t], s.tasks[u];
    assert HoldsAttempt(s, k.part, k.id, AttemptOf(k.env));
    assert HoldsAttempt(s, l.part, l.id, AttemptOf(l.env));
    assert AttemptOf(k.env) != AttemptOf(l.env);
  }

  lemma FailingPlace(s: State, t: nat)
    requires Orderly(s) && IsFailing(s, t)
    ensures var a := Attempt(s.tasks[t].env.job, s.tasks[t].env.retryCount + 1);
            !Appended(s, a) && a.retry == Calls(s, a.job)
  {
    assert TaskPlaceOk(s, s.tasks[t]);
  }

  lemma CopyOrderly(c: Config, s: State, t: nat)
    requires Inv(c, s) && Orderly(s) && CanCopy(s, t)
    ensures Orderly(DoCopy(s, t, Ok))
  {
    hide Inv, Appended, Orderly;
    var s' := DoCopy(s, t, Ok);
    var k := s.tasks[t];
    var a := Attempt(k.env.job, k.env.retryCount + 1);
    FailingPlace(s, t);
    Facts(c, s, t);
    forall u | u in s.tasks && u != t ensures !AwaitsCopy(s, u, a) {
      OthersAwaitOther(c, s, t, u);
    }
    assert Untouched(s') by { OrderlyFacts(s, 0); }
    var m := Job(Bumped(k.env, k.pc.err));
    assert AttemptOf(m.env) == a && s'.streams[k.part].log == s.streams[k.part].log + [m];
    assert Adds(s, s', k.part, a);
    AddOrderly(c, s, s', k.part, a);
  }

  // ---- Steps that append nothing ----

  ghost predicate SameEntries(s: State, s': State)
  {
    && |s'.streams| == |s.streams|
    && (forall p: nat :: p < |s.streams| ==>
         s'.streams[p].log == s.streams[p].log && s.streams[p].next <= s'.streams[p].next)
    && s'.h.accepted == s.h.accepted
  }

  lemma SameEntriesHold(s: State, s': State)
    requires SameEntries(s, s')
    ensures forall p: nat, id: nat, a :: HoldsAttempt(s', p, id, a) <==> HoldsAttempt(s, p, id, a)
    ensures forall a :: Appended(s', a) <==> Appended(s, a)
  {
    forall a ensures Appended(s', a) <==> Appended(s, a) {
      if Appended(s, a) {
        var p: nat, id: nat :| HoldsAttempt(s, p, id, a);
        assert HoldsAttempt(s', p, id, a);
      }
      if Appended(s', a) {
        var p: nat, id: nat :| HoldsAttempt(s', p, id, a);
        assert HoldsAttempt(s, p, id, a);
      }
    }
  }

  ghost predicate Settles(k: Task, k': Task)
  {
    && k' == k.(pc := k'.pc)
    && (k'.pc.Settling? || (k.pc.Running? && k'.pc.Failing?))
  }

  /** Steps that neither call, claim nor append, and start no goroutine. */
  lemma SettleOrderly(s: State, s': State)
    requires Orderly(s) && SameEntries(s, s') && Untouched(s')
    requires s'.keys == s.keys && s'.h.calls == s.h.calls
    requires forall u :: u in s'.tasks ==>
               u in s.tasks && (s'.tasks[u] == s.tasks[u] || Settles(s.tasks[u], s'.tasks[u]))
    ensures Orderly(s')
  {
    SameEntriesHold(s, s');
    hide Appended, HoldsAttempt, CallsOf;
    assert Unique(s') && OneTask(s') && InOrder(s') && EntryPlace(s');
    assert TaskPlace(s');
    assert KeysPlace(s');
  }

  /** A goroutine starts on the next undelivered entry of stream p. */
  lemma StartOrderly(s: State, s': State, t: nat, p: nat, k: Task)
    requires Orderly(s) && SameEntries(s, s') && Untouched(s')
    requires s'.keys == s.keys && s'.h.calls == s.h.calls
    requires t !in s.tasks && s'.tasks == s.tasks[t := k] && (k.pc.Checking? || k.pc.Calling?)
    requires HoldsAttempt(s, k.part, k.id, AttemptOf(k.env)) && s.streams[k.part].next <= k.id
    requires forall u :: u in s.tasks && s.tasks[u].part == k.part ==> s.tasks[u].id != k.id
    ensures Orderly(s')
  {
    SameEntriesHold(s, s');
    hide Appended, HoldsAttempt, CallsOf;
    assert Unique(s') && InOrder(s') && EntryPlace(s') && KeysPlace(s');
    assert OneTask(s');
    assert TaskPlace(s');
  }

  lemma DeliverOrderly(c: Config, s: State, t: nat, worker: nat, p: nat)
    requires c.Valid() && Inv(c, s) && Orderly(s) && CanDeliver(s, t, p)
    ensures Orderly(DoDeliver(c, s, t, worker, p))
  {
    hide Inv, Orderly;
    var s' := DoDeliver(c, s, t, worker, p);
    OrderlyFacts(s, 0);
    Facts(c, s, 0);
    var id := s.streams[p].next;
    assert NextId(s.streams[p]) == id;
    assert SameEntries(s, s') && Untouched(s');
    if t in s'.tasks {
      forall u | u in s.tasks && s.tasks[u].part == p ensures s.tasks[u].id != id {
        Facts(c, s, u);
      }
      assert HoldsAttempt(s, p, id, AttemptOf(s'.tasks[t].env));
      StartOrderly(s, s', t, p, s'.tasks[t]);
    } else {
      SettleOrderly(s, s');
    }
  }

  /** Another goroutine, or an undelivered entry, is about another attempt. */
  lemma OthersDiffer(c: Config, s: State, t: nat)
    requires Inv(c, s) && Orderly(s) && t in s.tasks
    ensures forall u :: u in s.tasks && u != t ==> AttemptOf(s.tasks[u].env) != AttemptOf(s.tasks[t].env)
    ensures forall p: nat, id: nat :: HoldsAttempt(s, p, id, AttemptOf(s.tasks[t].env)) ==> id < s.streams[p].next
    ensures Appended(s, AttemptOf(s.tasks[t].env))
  {
    TaskHolds(c, s, t);
    forall u | u in s.tasks && u != t ensures AttemptOf(s.tasks[u].env) != AttemptOf(s.tasks[t].env) {
      TaskHolds(c, s, u);
    }
  }

  lemma ClaimOrderly(s: State, s': State, t: nat)
    requires Orderly(s) && SameEntries(s, s') && Untouched(s') && AtPc(s, t, Checking)
    requires s'.h.calls == s.h.calls
    requires s'.tasks == s.tasks[t := s.tasks[t].(pc := Calling)]
    requires s'.keys.Keys == s.keys.Keys + {AttemptOf(s.tasks[t].env)}
    requires forall u :: u in s.tasks && u != t ==> AttemptOf(s.tasks[u].env) != AttemptOf(s.tasks[t].env)
    requires forall p: nat, id: nat :: HoldsAttempt(s, p, id, AttemptOf(s.tasks[t].env)) ==> id < s.streams[p].next
    requires Appended(s, AttemptOf(s.tasks[t].env))
    ensures Orderly(s')
  {
    SameEntriesHold(s, s');
    hide Appended, HoldsAttempt, CallsOf;
    assert Unique(s') && OneTask(s') && InOrder(s') && EntryPlace(s');
    assert TaskPlace(s');
    assert KeysPlace(s');
  }

  lemma CheckingPlace(s: State, t: nat)
    requires Orderly(s) && AtPc(s, t, Checking)
    ensures AttemptOf(s.tasks[t].env) !in s.keys && Untouched(s)
  {
    assert TaskPlaceOk(s, s.tasks[t]);
  }

  lemma CheckOrderly(c: Config, s: State, t: nat, err: string)
    requires Inv(c, s) && Orderly(s) && AtPc(s, t, Checking)
    ensures Orderly(DoCheck(c, s, t, Ok, err))
  {
    hide Inv, Orderly, Appended;
    CheckingPlace(s, t);
    OthersDiffer(c, s, t);
    ClaimOrderly(s, DoCheck(c, s, t, Ok, err), t);
  }

  /** The job about to be called is called with exactly the next count, and nothing else of it is under way. */
  ghost predicate Foremost(s: State, t: nat)
    requires t in s.tasks
  {
    var a := AttemptOf(s.tasks[t].env);
    && a.retry == Calls(s, a.job)
    && a.job in s.h.accepted && Appended(s, a)
    && (forall p: nat, id: nat, b :: HoldsAttempt(s, p, id, b) && s.streams[p].next <= id ==> b.job != a.job)
    && (forall u :: u in s.tasks && u != t && s.tasks[u].env.job == a.job ==> s.tasks[u].pc.Settling?)
    && !Appended(s, Attempt(a.job, a.retry + 1))
  }

  lemma CallingForemost(c: Config, s: State, t: nat)
    requires Inv(c, s) && Orderly(s) && AtPc(s, t, Calling)
    ensures Foremost(s, t)
  {
    hide Inv;
    TaskEntry(c, s, t);
    OthersDiffer(c, s, t);
    assert TaskPlaceOk(s, s.tasks[t]);
    var a := AttemptOf(s.tasks[t].env);
    forall u | u in s.tasks && u != t && s.tasks[u].env.job == a.job ensures s.tasks[u].pc.Settling? {
      assert TaskPlaceOk(s, s.tasks[u]);
      assert AttemptOf(s.tasks[u].env) != a;
    }
    forall p: nat, id: nat, b | HoldsAttempt(s, p, id, b) && s.streams[p].next <= id ensures b.job != a.job {
      assert b != a;
    }
  }

  lemma CallOrderly(s: State, s': State, t: nat)
    requires Orderly(s) && SameEntries(s, s') && Untouched(s') && AtPc(s, t, Calling) && Foremost(s, t)
    requires s'.h.calls == s.h.calls + [AttemptOf(s.tasks[t].env)]
    requires s'.tasks == s.tasks[t := s.tasks[t].(pc := Running)] && s'.keys == s.keys
    ensures Orderly(s')
  {
    var a := AttemptOf(s.tasks[t].env);
    SameEntriesHold(s, s');
    forall j ensures CallsOf(s'.h.calls, j) == CallsOf(s.h.calls, j) + (if a.job == j then [a.retry] else []) {
      CallsOfSnoc(s.h.calls, a, j);
    }
    hide Appended, HoldsAttempt, CallsOf;
    assert Unique(s') && OneTask(s') && InOrder(s');
    assert EntryPlace(s');
    assert TaskPlace(s');
    assert KeysPlace(s');
  }

  lemma InvokeOrderly(c: Config, s: State, t: nat)
    requires Inv(c, s) && Orderly(s) && AtPc(s, t, Calling)
    ensures Orderly(DoInvoke(s, t))
  {
    hide Inv, Orderly;
    CallingForemost(c, s, t);
    OrderlyFacts(s, 0);
    CallOrderly(s, DoInvoke(s, t), t);
  }

  lemma StepOrderly(c: Config, s: State, step: Step)
    requires c.Valid() && Inv(c, s) && Orderly(s) && Enabled(c, s, step) && Allowed(FaultFree, s, step)
    ensures Orderly(Apply(c, s, step))
  {
    hide Inv, Orderly;
    OrderlyFacts(s, 0);
    match step
    case Enqueue(j, e, _, _) => EnqueueOrderly(c, s, j, e);
    case Deliver(t, w, p) => DeliverOrderly(c, s, t, w, p);
    case Check(t, _, err) => CheckOrderly(c, s, t, err);
    case Invoke(t) => InvokeOrderly(c, s, t);
    case Copy(t, _) => CopyOrderly(c, s, t);
    case Tick(dt) => SettleOrderly(s, s.(now := s.now + dt));
    case Return(t, result) => SettleOrderly(s, DoReturn(s, t, result));
    case Bury(t, out, cut) => SettleOrderly(s, DoBury(s, t, out, cut));
    case Drop(t) => SettleOrderly(s, DoDrop(s, t));
    case Ack(t, out) => AckOrderly(s, t, out);
  }

  lemma AckOrderly(s: State, t: nat, out: Outcome)
    requires Orderly(s) && CanAck(s, t)
    ensures Orderly(DoAck(s, t, out))
  {
    hide Orderly;
    OrderlyFacts(s, 0);
    SettleOrderly(s, DoAck(s, t, out));
  }

  lemma {:induction false} RunOrderly(c: Config, steps: seq<Step>)
    requires c.Valid()
    ensures var r := Exec(c, FaultFree, steps); r.Some? ==> Orderly(r.value)
  {
    if steps != [] && Exec(c, FaultFree, steps).Some? {
      hide Inv, Orderly;
      var n := |steps| - 1;
      RunOrderly(c, steps[..n]);
      RunKeeps(c, FaultFree, steps[..n]);
      StepOrderly(c, Exec(c, FaultFree, steps[..n]).value, steps[n]);
    } else if steps == [] {
      InitOrderly(c);
    }
  }

  lemma InitOrderly(c: Config)
    ensures Orderly(Init(c))
  {
  }
}
