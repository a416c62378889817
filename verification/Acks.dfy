/** Every acknowledged entry, a requeued one included, was settled by a goroutine that held that very entry. */
module Acks {
  import opened Options
  import opened Queue
  import opened Delivery
  import opened Invariant
  import opened Fate
  import DeadLetters

  /** The step settles the attempt of the goroutine that holds entry id of stream p: a success, a confirmed copy, a
      dead letter or a drop, or, with deduplication, the finding that somebody has claimed the attempt. */
  ghost predicate SettlesEntry(s: State, step: Step, p: nat, id: nat)
  {
    && (step.Check? || step.Return? || step.Copy? || step.Bury? || step.Drop?)
    && step.t in s.tasks && s.tasks[step.t].part == p && s.tasks[step.t].id == id
    && match step
       case Check(t, out, _) => s.tasks[t].pc.Checking? && out == Ok && !KeyFree(s, AttemptOf(s.tasks[t].env))
       case Return(_, result) => result == Success
       case Copy(_, out) => out == Ok
       case _ => true
  }

  /** Step m of the run settled the entry. */
  ghost predicate SettledAt(c: Config, steps: seq<Step>, m: nat, p: nat, id: nat)
    requires c.Valid()
  {
    && m < |steps| && Exec(c, Anything, steps[..m]).Some?
    && SettlesEntry(Exec(c, Anything, steps[..m]).value, steps[m], p, id)
  }

  ghost predicate Reasoned(c: Config, steps: seq<Step>, p: nat, id: nat)
    requires c.Valid()
  {
    exists m: nat :: SettledAt(c, steps, m, p, id)
  }

  ghost predicate SettlingOn(s: State, t: nat, p: nat, id: nat)
  {
    AtPc(s, t, Settling) && s.tasks[t].part == p && s.tasks[t].id == id
  }

  ghost predicate AckedAt(s: State, p: nat, id: nat)
  {
    PartOk(s, p) && id in s.streams[p].acked
  }

  /** What is acknowledged, or about to be, was settled by a step of the run. */
  ghost predicate Explained(c: Config, steps: seq<Step>, s: State)
    requires c.Valid()
  {
    && (forall t: nat, p: nat, id: nat :: SettlingOn(s, t, p, id) ==> Reasoned(c, steps, p, id))
    && (forall p: nat, id: nat :: AckedAt(s, p, id) ==> Reasoned(c, steps, p, id))
  }

  // ---- One step ----

  predicate Working(step: Step)
  {
    step.Check? || step.Invoke? || step.Return? || step.Copy?
  }

  predicate Ending(step: Step)
  {
    step.Bury? || step.Drop? || step.Ack? || step.Crash?
  }

  lemma WorkingSettles(c: Config, s: State, step: Step, t: nat, p: nat, id: nat)
    requires c.Valid() && Enabled(c, s, step) && Working(step) && SettlingOn(Apply(c, s, step), t, p, id)
    ensures SettlingOn(s, t, p, id) || SettlesEntry(s, step, p, id)
  {
  }

  lemma EndingSettles(c: Config, s: State, step: Step, t: nat, p: nat, id: nat)
    requires c.Valid() && Enabled(c, s, step) && Ending(step) && SettlingOn(Apply(c, s, step), t, p, id)
    ensures SettlingOn(s, t, p, id) || SettlesEntry(s, step, p, id)
  {
  }

  lemma OthersSettle(c: Config, s: State, step: Step, t: nat, p: nat, id: nat)
    requires c.Valid() && Enabled(c, s, step) && !Working(step) && !Ending(step)
    requires SettlingOn(Apply(c, s, step), t, p, id)
    ensures SettlingOn(s, t, p, id)
  {
  }

  lemma StepSettles(c: Config, s: State, step: Step, t: nat, p: nat, id: nat)
    requires c.Valid() && Enabled(c, s, step) && SettlingOn(Apply(c, s, step), t, p, id)
    ensures SettlingOn(s, t, p, id) || SettlesEntry(s, step, p, id)
  {
    hide SettlingOn, SettlesEntry, Apply, Enabled;
    if Working(step) {
      WorkingSettles(c, s, step, t, p, id);
    } else if Ending(step) {
      EndingSettles(c, s, step, t, p, id);
    } else {
      OthersSettle(c, s, step, t, p, id);
    }
  }

  lemma AckAcks(s: State, t: nat, out: Outcome, p: nat, id: nat)
    requires CanAck(s, t) && AckedAt(DoAck(s, t, out), p, id)
    ensures AckedAt(s, p, id) || SettlingOn(s, t, p, id)
  {
  }

  ghost predicate SameAcked(s: State, s': State)
  {
    |s'.streams| == |s.streams| && forall p: nat :: p < |s.streams| ==> s'.streams[p].acked == s.streams[p].acked
  }

  lemma TaskAcksNothing(c: Config, s: State, step: Step)
    requires c.Valid() && Enabled(c, s, step) && !step.Ack? && (Working(step) || Ending(step))
    ensures SameAcked(s, Apply(c, s, step))
  {
  }

  lemma OthersAckNothing(c: Config, s: State, step: Step)
    requires c.Valid() && Enabled(c, s, step) && !Working(step) && !Ending(step)
    ensures SameAcked(s, Apply(c, s, step))
  {
  }

  lemma StepAcks(c: Config, s: State, step: Step, p: nat, id: nat)
    requires c.Valid() && Enabled(c, s, step) && AckedAt(Apply(c, s, step), p, id)
    ensures AckedAt(s, p, id) || (step.Ack? && SettlingOn(s, step.t, p, id))
  {
    if step.Ack? {
      AckAcks(s, step.t, step.out, p, id);
    } else if Working(step) || Ending(step) {
      TaskAcksNothing(c, s, step);
    } else {
      OthersAckNothing(c, s, step);
    }
    hide Apply, Enabled;
  }

  // ---- Runs ----

  lemma ReasonedStays(c: Config, steps: seq<Step>, p: nat, id: nat)
    requires c.Valid() && steps != [] && Reasoned(c, steps[..|steps| - 1], p, id)
    ensures Reasoned(c, steps, p, id)
  {
    hide Exec, SettlesEntry;
    var m: nat :| SettledAt(c, steps[..|steps| - 1], m, p, id);
    assert steps[..|steps| - 1][..m] == steps[..m];
    assert SettledAt(c, steps, m, p, id);
  }

  lemma {:induction false} RunExplained(c: Config, steps: seq<Step>)
    requires c.Valid() && Exec(c, Anything, steps).Some?
    ensures Explained(c, steps, Exec(c, Anything, steps).value)
  {
    if steps != [] {
      hide Reasoned, SettlingOn, AckedAt, SettlesEntry, Apply, Enabled;
      var n := |steps| - 1;
      var s, s' := Exec(c, Anything, steps[..n]).value, Exec(c, Anything, steps).value;
      RunExplained(c, steps[..n]);
      forall t: nat, p: nat, id: nat | SettlingOn(s', t, p, id) ensures Reasoned(c, steps, p, id) {
        StepSettles(c, s, steps[n], t, p, id);
        ReasonedAfter(c, steps, p, id, SettlingOn(s, t, p, id));
      }
      forall p: nat, id: nat | AckedAt(s', p, id) ensures Reasoned(c, steps, p, id) {
        StepAcks(c, s, steps[n], p, id);
        ReasonedStays(c, steps, p, id);
      }
    }
  }

  lemma ReasonedAfter(c: Config, steps: seq<Step>, p: nat, id: nat, before: bool)
    requires c.Valid() && steps != [] && Exec(c, Anything, steps).Some?
    requires if before then Reasoned(c, steps[..|steps| - 1], p, id)
             else SettlesEntry(Exec(c, Anything, steps[..|steps| - 1]).value, steps[|steps| - 1], p, id)
    ensures Reasoned(c, steps, p, id)
  {
    hide SettlesEntry, Apply, Enabled;
    if before {
      ReasonedStays(c, steps, p, id);
    } else {
      assert SettledAt(c, steps, |steps| - 1, p, id);
    }
  }

  /** Why an entry is out of the way: step m of the run settled it, in a goroutine that held this entry, and with a
      plain processor that was a success, a confirmed copy, a dead letter or a drop. */
  ghost predicate AckedFor(c: Config, steps: seq<Step>, s: State, p: nat, id: nat, m: nat)
    requires c.Valid()
  {
    AckedAt(s, p, id) && SettledAt(c, steps, m, p, id) && (steps[m].Check? ==> c.dedup)
  }

  /** Every job entry of every run waits, was trimmed before its acknowledgement, or was acknowledged for a reason. */
  lemma EntryFate(c: Config, steps: seq<Step>, p: nat, id: nat)
    requires c.Valid() && Exec(c, Anything, steps).Some?
    requires var s := Exec(c, Anything, steps).value; At(s, p, id) && Msg(s, p, id).Job?
    ensures var s := Exec(c, Anything, steps).value; var j := Msg(s, p, id).env.job;
            WaitsAt(s, p, id, j) || TrimmedAt(s, p, id, j) || exists m: nat :: AckedFor(c, steps, s, p, id, m)
  {
    hide Inv;
    var s := Exec(c, Anything, steps).value;
    RunKeeps(c, Anything, steps);
    Facts(c, s, 0);
    assert StreamOk(s.streams[p]);
    if id in s.streams[p].acked {
      RunExplained(c, steps);
      assert AckedAt(s, p, id);
      var m: nat :| SettledAt(c, steps, m, p, id);
      SettlerHolds(c, steps, m, p, id);
      assert AckedFor(c, steps, s, p, id, m);
    }
  }

  /** The goroutine that settled the entry held it: it had been appended by then. */
  lemma SettlerHolds(c: Config, steps: seq<Step>, m: nat, p: nat, id: nat)
    requires c.Valid() && SettledAt(c, steps, m, p, id)
    ensures At(Exec(c, Anything, steps[..m]).value, p, id) && (steps[m].Check? ==> c.dedup)
  {
    hide Inv;
    RunKeeps(c, Anything, steps[..m]);
    Facts(c, Exec(c, Anything, steps[..m]).value, steps[m].t);
  }

  lemma {:induction false} PrefixGrows(c: Config, steps: seq<Step>, i: nat, k: nat)
    requires c.Valid() && i <= k <= |steps| && Exec(c, Anything, steps[..k]).Some?
    ensures Exec(c, Anything, steps[..i]).Some?
    ensures Grows(Exec(c, Anything, steps[..i]).value, Exec(c, Anything, steps[..k]).value)
    decreases k
  {
    if i < k {
      hide Inv, Apply, Enabled, Grows;
      assert steps[..k][..k - 1] == steps[..k - 1] && steps[..k][k - 1] == steps[k - 1];
      PrefixGrows(c, steps, i, k - 1);
      var s := Exec(c, Anything, steps[..k - 1]).value;
      RunKeeps(c, Anything, steps[..k - 1]);
      Facts(c, s, 0);
      StepGrows(c, s, steps[k - 1]);
      GrowsTransitive(Exec(c, Anything, steps[..i]).value, s, Exec(c, Anything, steps[..k]).value);
    }
  }

  /** The second life of a dead-lettered job: the entry a requeue appended to a partition at step k waits, was trimmed
      before its acknowledgement, or was acknowledged for a reason of its own, at a step after k. */
  lemma SecondLife(c: Config, steps: seq<Step>, k: nat, d: nat)
    requires c.Valid() && DeadLetters.RequeuedAt(c, steps, k, d) && steps[k].Resend?
    ensures var s := Exec(c, Anything, steps).value; var j := s.dlq.log[d].env.job;
            var p, id := steps[k].p, |Exec(c, Anything, steps[..k]).value.streams[steps[k].p].log|;
            WaitsAt(s, p, id, j) || TrimmedAt(s, p, id, j)
            || exists m: nat :: k < m && AckedFor(c, steps, s, p, id, m)
  {
    var s := Exec(c, Anything, steps).value;
    var p, id := steps[k].p, |Exec(c, Anything, steps[..k]).value.streams[steps[k].p].log|;
    assert At(s, p, id) && Msg(s, p, id).Job? && Msg(s, p, id).env.job == s.dlq.log[d].env.job;
    hide Exec;
    EntryFate(c, steps, p, id);
    if m: nat :| AckedFor(c, steps, s, p, id, m) {
      SettlerHolds(c, steps, m, p, id);
      if m <= k {
        PrefixGrows(c, steps, m, k);
      }
    }
  }
}
