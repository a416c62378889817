/** What becomes of a requeued entry behind the deduplication layer, for every goroutine that takes it. */
module Redelivery {
  import opened Options
  import opened Queue
  import opened Delivery
  import opened Invariant
  import opened Timeline
  import Acks
  import Cluster
  import DeadLetters

  ghost predicate HoldsEntry(s: State, t: nat, p: nat, id: nat)
  {
    t in s.tasks && s.tasks[t].part == p && s.tasks[t].id == id
  }

  /** At step m the goroutine, which holds entry id of stream p, has its check answered. */
  ghost predicate ChecksAt(c: Config, steps: seq<Step>, m: nat, t: nat, p: nat, id: nat)
    requires c.Valid() && Runs(c, steps)
  {
    && m < |steps| && steps[m].Check? && steps[m].t == t && steps[m].out == Ok
    && HoldsEntry(StateAt(c, steps, m), t, p, id)
  }

  /** Step n is the goroutine's next one after step m. */
  ghost predicate NextOwn(steps: seq<Step>, m: nat, n: nat, t: nat)
  {
    && m < n < |steps| && Cluster.StepOf(steps[n], Cluster.Goroutine(t))
    && forall j :: m < j < n ==> !Cluster.StepOf(steps[j], Cluster.Goroutine(t))
  }

  // ---- Between two steps of a goroutine ----

  lemma {:induction false} TaskSpared(c: Config, steps: seq<Step>, t: nat, m: nat, n: nat)
    requires c.Valid() && Runs(c, steps) && m <= n <= |steps| && t in StateAt(c, steps, m).tasks
    requires forall j :: m <= j < n ==> !Cluster.StepOf(steps[j], Cluster.Goroutine(t))
    ensures t in StateAt(c, steps, n).tasks && StateAt(c, steps, n).tasks[t] == StateAt(c, steps, m).tasks[t]
    decreases n
  {
    if m < n {
      hide Apply, Enabled, Exec, Runs;
      TaskSpared(c, steps, t, m, n - 1);
      OneStep(c, steps, n - 1);
      Cluster.OthersSpare(c, StateAt(c, steps, n - 1), steps[n - 1], Cluster.Goroutine(t));
    }
  }

  lemma CheckSends(c: Config, s: State, t: nat, err: string)
    requires AtPc(s, t, Checking)
    ensures var s' := DoCheck(c, s, t, Ok, err);
            t in s'.tasks && s'.tasks[t].pc == if KeyFree(s, AttemptOf(s.tasks[t].env)) then Calling else Settling
  {
  }

  lemma OwnStepAt(c: Config, s: State, step: Step, t: nat)
    requires c.Valid() && Enabled(c, s, step) && Cluster.StepOf(step, Cluster.Goroutine(t)) && t in s.tasks
    ensures s.tasks[t].pc == Calling ==> step in {Invoke(t), Crash(t)}
    ensures s.tasks[t].pc == Settling ==> step.Ack? || step == Crash(t)
  {
  }

  /** After an answered check the goroutine's next step, if it lives to take one, is the downstream call exactly if the
      key of its attempt was free at the check, and the acknowledgement otherwise. */
  lemma CheckDecides(c: Config, steps: seq<Step>, m: nat, n: nat, t: nat, p: nat, id: nat)
    requires c.Valid() && Runs(c, steps) && ChecksAt(c, steps, m, t, p, id) && NextOwn(steps, m, n, t)
    ensures var s := StateAt(c, steps, m);
            && (steps[n] != Crash(t) ==> (steps[n] == Invoke(t) <==> KeyFree(s, AttemptOf(s.tasks[t].env))))
            && (steps[n] != Crash(t) && steps[n] != Invoke(t) ==> steps[n].Ack?)
  {
    hide Exec, Runs, KeyFree, DoCheck;
    OneStep(c, steps, m);
    CheckSends(c, StateAt(c, steps, m), t, steps[m].err);
    hide Apply, Enabled;
    TaskSpared(c, steps, t, m + 1, n);
    OneStep(c, steps, n);
    OwnStepAt(c, StateAt(c, steps, n), steps[n], t);
  }

  // ---- No downstream call without such a check ----

  /** Since its check at step m, which found the key free, the goroutine has been about to call downstream. */
  ghost predicate ClearedAt(c: Config, steps: seq<Step>, n: nat, m: nat, t: nat)
    requires c.Valid() && Runs(c, steps) && n <= |steps|
  {
    && m < n && t in StateAt(c, steps, m).tasks && t in StateAt(c, steps, n).tasks
    && steps[m].Check? && steps[m].t == t && steps[m].out == Ok
    && KeyFree(StateAt(c, steps, m), AttemptOf(StateAt(c, steps, m).tasks[t].env))
    && StateAt(c, steps, n).tasks[t] == StateAt(c, steps, m).tasks[t].(pc := Calling)
    && forall j :: m < j < n ==> !Cluster.StepOf(steps[j], Cluster.Goroutine(t))
  }

  lemma CheckClears(c: Config, s: State, step: Step, t: nat)
    requires c.Valid() && c.dedup && Enabled(c, s, step) && Cluster.StepOf(step, Cluster.Goroutine(t))
    requires AtPc(Apply(c, s, step), t, Calling)
    ensures step.Check? && step.out == Ok && t in s.tasks && KeyFree(s, AttemptOf(s.tasks[t].env))
    ensures Apply(c, s, step).tasks[t] == s.tasks[t].(pc := Calling)
  {
  }

  /** With deduplication nobody starts out about to call. */
  lemma OthersStartNobody(c: Config, s: State, step: Step, t: nat)
    requires c.Valid() && c.dedup && Enabled(c, s, step) && t !in s.tasks
    ensures !AtPc(Apply(c, s, step), t, Calling)
  {
  }

  lemma NobodyAtFirst(c: Config, steps: seq<Step>)
    requires c.Valid() && Runs(c, steps)
    ensures StateAt(c, steps, 0).tasks == map[]
  {
    assert steps[..0] == [];
  }

  lemma {:induction false} CallIsCleared(c: Config, steps: seq<Step>, n: nat, t: nat) returns (m: nat)
    requires c.Valid() && c.dedup && Runs(c, steps) && n <= |steps| && AtPc(StateAt(c, steps, n), t, Calling)
    ensures ClearedAt(c, steps, n, m, t)
    decreases n
  {
    NobodyAtFirst(c, steps);
    if 0 < n {
      hide Apply, Enabled, Exec, Runs, KeyFree;
      OneStep(c, steps, n - 1);
      var s, step := StateAt(c, steps, n - 1), steps[n - 1];
      if Cluster.StepOf(step, Cluster.Goroutine(t)) {
        CheckClears(c, s, step, t);
        m := n - 1;
        CheckIsOf(step, t);
      } else {
        if t in s.tasks {
          Cluster.OthersSpare(c, s, step, Cluster.Goroutine(t));
          m := CallIsCleared(c, steps, n - 1, t);
        } else {
          OthersStartNobody(c, s, step, t);
        }
      }
    }
  }

  lemma CheckIsOf(step: Step, t: nat)
    requires step.Check? && Cluster.StepOf(step, Cluster.Goroutine(t))
    ensures step.t == t
  {
  }

  // ---- Requeued entries ----

  lemma TaskKnown(c: Config, steps: seq<Step>, m: nat, t: nat)
    requires c.Valid() && Runs(c, steps) && m <= |steps| && t in StateAt(c, steps, m).tasks
    ensures TaskOk(c, StateAt(c, steps, m), StateAt(c, steps, m).tasks[t])
  {
    hide Inv;
    assert Exec(c, Anything, steps[..m]).Some?;
    RunKeeps(c, Anything, steps[..m]);
    Facts(c, StateAt(c, steps, m), t);
  }

  /** A goroutine that holds the entry a requeue appended at step k has attempt 0 of the dead-lettered job, and took it
      after step k. */
  lemma RequeuedAttempt(c: Config, steps: seq<Step>, k: nat, d: nat, m: nat, t: nat)
    requires c.Valid() && Runs(c, steps) && DeadLetters.RequeuedAt(c, steps, k, d) && steps[k].Resend? && m <= |steps|
    requires HoldsEntry(StateAt(c, steps, m), t, steps[k].p, |StateAt(c, steps, k).streams[steps[k].p].log|)
    ensures k < m
    ensures AttemptOf(StateAt(c, steps, m).tasks[t].env)
            == Attempt(Exec(c, Anything, steps).value.dlq.log[d].env.job, 0)
  {
    hide Inv;
    var p, id := steps[k].p, |StateAt(c, steps, k).streams[steps[k].p].log|;
    var s, end := StateAt(c, steps, m), Exec(c, Anything, steps).value;
    assert At(end, p, id) && Msg(end, p, id) == Job(end.dlq.log[d].env.(retryCount := 0, lastError := ""));
    TaskKnown(c, steps, m, t);
    assert At(s, p, id) && Msg(s, p, id) == Job(s.tasks[t].env);
    hide Exec;
    assert steps[..|steps|] == steps;
    Acks.PrefixGrows(c, steps, m, |steps|);
    if m <= k {
      Acks.PrefixGrows(c, steps, m, k);
    }
  }

  /** For every run, every requeue in it and every goroutine that takes the entry it appended: once its check is
      answered, its next step, if it lives to take one, is the downstream call exactly if the key of attempt 0 of the
      job was absent or expired at the check, and the acknowledgement otherwise. */
  lemma RequeuedDelivery(c: Config, steps: seq<Step>, k: nat, d: nat, m: nat, n: nat, t: nat)
    requires c.Valid() && Runs(c, steps) && DeadLetters.RequeuedAt(c, steps, k, d) && steps[k].Resend?
    requires ChecksAt(c, steps, m, t, steps[k].p, |StateAt(c, steps, k).streams[steps[k].p].log|)
    requires NextOwn(steps, m, n, t)
    ensures k < m
    ensures var free := KeyFree(StateAt(c, steps, m), Attempt(Exec(c, Anything, steps).value.dlq.log[d].env.job, 0));
            && (steps[n] != Crash(t) ==> (steps[n] == Invoke(t) <==> free))
            && (steps[n] != Crash(t) && !free ==> steps[n].Ack?)
  {
    hide Exec, Runs, KeyFree, NextOwn;
    RequeuedAttempt(c, steps, k, d, m, t);
    CheckDecides(c, steps, m, n, t, steps[k].p, |StateAt(c, steps, k).streams[steps[k].p].log|);
  }

  /** And no downstream call for such an entry without such a check: one after the requeue, that found the key free. */
  lemma RequeuedCall(c: Config, steps: seq<Step>, k: nat, d: nat, n: nat, t: nat) returns (m: nat)
    requires c.Valid() && c.dedup && Runs(c, steps) && DeadLetters.RequeuedAt(c, steps, k, d) && steps[k].Resend?
    requires n < |steps| && steps[n] == Invoke(t)
    requires HoldsEntry(StateAt(c, steps, n), t, steps[k].p, |StateAt(c, steps, k).streams[steps[k].p].log|)
    ensures k < m < n && NextOwn(steps, m, n, t)
    ensures ChecksAt(c, steps, m, t, steps[k].p, |StateAt(c, steps, k).streams[steps[k].p].log|)
    ensures KeyFree(StateAt(c, steps, m), Attempt(Exec(c, Anything, steps).value.dlq.log[d].env.job, 0))
  {
    hide Exec, Runs, KeyFree;
    OneStep(c, steps, n);
    assert AtPc(StateAt(c, steps, n), t, Calling);
    hide Apply, Enabled;
    m := CallIsCleared(c, steps, n, t);
    RequeuedAttempt(c, steps, k, d, m, t);
  }
}
