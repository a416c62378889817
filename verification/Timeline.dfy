/** The states a run passes through. */
module Timeline {
  import opened Options
  import opened Delivery
  import Acks

  ghost predicate Runs(c: Config, steps: seq<Step>)
    requires c.Valid()
  {
    forall n :: 0 <= n <= |steps| ==> Exec(c, Anything, steps[..n]).Some?
  }

  /** The state after the first n steps of a run. */
  ghost function StateAt(c: Config, steps: seq<Step>, n: nat): State
    requires c.Valid() && Runs(c, steps) && n <= |steps|
  {
    Exec(c, Anything, steps[..n]).value
  }

  lemma RunsThroughout(c: Config, steps: seq<Step>)
    requires c.Valid() && Exec(c, Anything, steps).Some?
    ensures Runs(c, steps)
  {
    forall n | 0 <= n <= |steps| ensures Exec(c, Anything, steps[..n]).Some? {
      assert steps[..|steps|] == steps;
      Acks.PrefixGrows(c, steps, n, |steps|);
    }
  }

  lemma OneStep(c: Config, steps: seq<Step>, n: nat)
    requires c.Valid() && Runs(c, steps) && n < |steps|
    ensures Enabled(c, StateAt(c, steps, n), steps[n])
    ensures StateAt(c, steps, n + 1) == Apply(c, StateAt(c, steps, n), steps[n])
  {
    hide Apply, Enabled;
    assert steps[..n + 1][..n] == steps[..n] && steps[..n + 1][n] == steps[n];
    assert Exec(c, Anything, steps[..n + 1]).Some?;
  }
}
