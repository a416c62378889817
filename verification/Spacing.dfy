/** Deliveries of one entry are spaced by ReclaimIdleTime, however many workers scan the pending list. */
module Spacing {
  import opened Options
  import opened Queue
  import opened Delivery
  import opened Invariant

  /** The step hands entry id of stream p to some worker. */
  ghost predicate Takes(s: State, step: Step, p: nat, id: nat)
  {
    PartOk(s, p) &&
    match step
    case Deliver(_, _, q) => q == p && NextId(s.streams[p]) == id
    case Reclaim(_, _, q, i) => q == p && i == id
    case _ => false
  }

  /** Entry id of stream p has been delivered, and if it is pending then not since before `from`. */
  ghost predicate HeldSince(s: State, p: nat, id: nat, from: nat)
  {
    && PartOk(s, p)
    && id < s.streams[p].next
    && from <= s.now
    && (id in s.streams[p].pel ==> from <= s.streams[p].pel[id].since)
  }

  lemma TakeHolds(c: Config, s: State, step: Step, p: nat, id: nat)
    requires c.Valid() && StreamsOk(c, s) && Enabled(c, s, step) && Takes(s, step, p, id)
    ensures HeldSince(Apply(c, s, step), p, id, s.now)
  {
  }

  lemma TaskStepHolds(c: Config, s: State, step: Step, p: nat, id: nat, from: nat)
    requires c.Valid() && Enabled(c, s, step) && HeldSince(s, p, id, from)
    requires step.Check? || step.Invoke? || step.Return? || step.Drop? || step.Ack? || step.Crash? || step.Bury?
    ensures HeldSince(Apply(c, s, step), p, id, from)
  {
  }

  lemma OtherStepHolds(c: Config, s: State, step: Step, p: nat, id: nat, from: nat)
    requires c.Valid() && Enabled(c, s, step) && HeldSince(s, p, id, from)
    requires !(step.Check? || step.Invoke? || step.Return? || step.Drop? || step.Ack? || step.Crash? || step.Bury?)
    ensures HeldSince(Apply(c, s, step), p, id, from)
  {
  }

  lemma StepHolds(c: Config, s: State, step: Step, p: nat, id: nat, from: nat)
    requires c.Valid() && Enabled(c, s, step) && HeldSince(s, p, id, from)
    ensures HeldSince(Apply(c, s, step), p, id, from)
  {
    hide HeldSince, Apply, Enabled;
    if step.Check? || step.Invoke? || step.Return? || step.Drop? || step.Ack? || step.Crash? || step.Bury? {
      TaskStepHolds(c, s, step, p, id, from);
    } else {
      OtherStepHolds(c, s, step, p, id, from);
    }
  }

  lemma {:induction false} RunHolds(c: Config, a: Assume, steps: seq<Step>, i: nat, p: nat, id: nat)
    requires c.Valid() && i < |steps| && Exec(c, a, steps).Some?
    requires Exec(c, a, steps[..i]).Some? && Takes(Exec(c, a, steps[..i]).value, steps[i], p, id)
    ensures HeldSince(Exec(c, a, steps).value, p, id, Exec(c, a, steps[..i]).value.now)
    decreases |steps|
  {
    var n := |steps| - 1;
    var s := Exec(c, a, steps[..n]).value;
    hide Inv, HeldSince, Takes, Apply, Enabled, Allowed;
    if i == n {
      RunKeeps(c, a, steps[..n]);
      Facts(c, s, 0);
      TakeHolds(c, s, steps[n], p, id);
    } else {
      assert steps[..n][..i] == steps[..i];
      RunHolds(c, a, steps[..n], i, p, id);
      StepHolds(c, s, steps[n], p, id, Exec(c, a, steps[..i]).value.now);
    }
  }

  lemma {:induction false} PrefixRuns(c: Config, a: Assume, steps: seq<Step>, i: nat)
    requires c.Valid() && i <= |steps| && Exec(c, a, steps).Some?
    ensures Exec(c, a, steps[..i]).Some?
    decreases |steps|
  {
    if i < |steps| {
      var n := |steps| - 1;
      assert steps[..n][..i] == steps[..i];
      PrefixRuns(c, a, steps[..n], i);
    } else {
      assert steps[..i] == steps;
    }
  }

  lemma TakenAgain(c: Config, s: State, step: Step, p: nat, id: nat, from: nat)
    requires c.Valid() && Enabled(c, s, step) && HeldSince(s, p, id, from) && Takes(s, step, p, id)
    ensures step.Reclaim? && from + c.reclaimIdle <= s.now
  {
  }

  /** An entry handed out at step i is handed out again at a later step k only by a reclaim,
      and only after the idle time has passed. */
  lemma ReclaimsSpaced(c: Config, steps: seq<Step>, i: nat, k: nat, p: nat, id: nat)
    requires c.Valid() && i < k < |steps| && Exec(c, Anything, steps).Some?
    requires Exec(c, Anything, steps[..i]).Some? && Takes(Exec(c, Anything, steps[..i]).value, steps[i], p, id)
    requires Exec(c, Anything, steps[..k]).Some? && Takes(Exec(c, Anything, steps[..k]).value, steps[k], p, id)
    ensures steps[k].Reclaim?
    ensures Exec(c, Anything, steps[..i]).value.now + c.reclaimIdle <= Exec(c, Anything, steps[..k]).value.now
  {
    hide Takes, HeldSince, Apply, Enabled, Allowed;
    PrefixRuns(c, Anything, steps, k + 1);
    assert steps[..k + 1][..k] == steps[..k] && steps[..k][..i] == steps[..i];
    assert steps[..k + 1][k] == steps[k] && steps[..k][i] == steps[i];
    RunHolds(c, Anything, steps[..k], i, p, id);
    TakenAgain(c, Exec(c, Anything, steps[..k]).value, steps[k], p, id, Exec(c, Anything, steps[..i]).value.now);
  }
}
