/** The lock's key, read off the commands of a run: who holds it, and until when. */
module Lease {
  import opened Options
  import opened Queue
  import opened ControlPlane

  ghost predicate Runs(ttl: nat, a: Assume, steps: seq<Step>)
  {
    forall n :: 0 <= n <= |steps| ==> Exec(ttl, a, steps[..n]).Some?
  }

  /** The state after the first n commands. */
  ghost function StateAt(ttl: nat, a: Assume, steps: seq<Step>, n: nat): State
    requires Runs(ttl, a, steps) && n <= |steps|
  {
    Exec(ttl, a, steps[..n]).value
  }

  lemma {:induction false} RunsThroughout(ttl: nat, a: Assume, steps: seq<Step>)
    requires Exec(ttl, a, steps).Some?
    ensures Runs(ttl, a, steps)
  {
    if steps != [] {
      var m := |steps| - 1;
      RunsThroughout(ttl, a, steps[..m]);
      forall n | 0 <= n <= |steps| ensures Exec(ttl, a, steps[..n]).Some? {
        if n <= m {
          assert steps[..m][..n] == steps[..n];
        } else {
          assert steps[..n] == steps;
        }
      }
    }
  }

  lemma OneStep(ttl: nat, a: Assume, steps: seq<Step>, n: nat)
    requires Runs(ttl, a, steps) && n < |steps|
    ensures Enabled(StateAt(ttl, a, steps, n), steps[n])
    ensures StateAt(ttl, a, steps, n + 1) == Apply(ttl, StateAt(ttl, a, steps, n), steps[n])
  {
    hide Apply, Enabled;
    assert steps[..n + 1][..n] == steps[..n] && steps[..n + 1][n] == steps[n];
    assert Exec(ttl, a, steps[..n + 1]).Some?;
  }

  ghost predicate Live(s: State)
  {
    s.key.Held? && s.now < s.key.expires
  }

  /** A SETNX that reached the server when there was no key, or an expired one. */
  ghost predicate Sets(s: State, step: Step)
  {
    step.Acquire? && step.out != NotApplied && !Live(s)
  }

  /** An EXPIRE that reached the server while there was a key, whosever it was. */
  ghost predicate Prolongs(s: State, step: Step)
  {
    step.RenewExpire? && step.out != NotApplied && Live(s)
  }

  /** A DEL that reached the server. */
  ghost predicate Drops(step: Step)
  {
    step.ReleaseDel? && step.out != NotApplied
  }

  /** After the first n commands the key is the one that command k set. */
  ghost predicate SetAt(ttl: nat, a: Assume, steps: seq<Step>, n: nat, k: nat)
    requires Runs(ttl, a, steps) && n <= |steps|
  {
    && k < n && Sets(StateAt(ttl, a, steps, k), steps[k])
    && forall j :: k < j < n ==> !Sets(StateAt(ttl, a, steps, j), steps[j]) && !Drops(steps[j])
  }

  /** Its TTL was last set by command k. */
  ghost predicate TimedAt(ttl: nat, a: Assume, steps: seq<Step>, n: nat, k: nat)
    requires Runs(ttl, a, steps) && n <= |steps|
  {
    && k < n && Times(StateAt(ttl, a, steps, k), steps[k])
    && forall j :: k < j < n ==> !Times(StateAt(ttl, a, steps, j), steps[j]) && !Drops(steps[j])
  }

  ghost predicate Times(s: State, step: Step)
  {
    Sets(s, step) || Prolongs(s, step)
  }

  ghost predicate KeyStepped(ttl: nat, s: State, step: Step, s': State)
  {
    if Sets(s, step) then step.Acquire? && s'.key == Held(step.i, s.now + ttl)
    else if Drops(step) then s'.key == Free
    else if Prolongs(s, step) then s.key.Held? && s'.key == Held(s.key.owner, s.now + ttl)
    else s'.key == s.key
  }

  lemma KeyStep(ttl: nat, s: State, step: Step)
    requires Enabled(s, step)
    ensures KeyStepped(ttl, s, step, Apply(ttl, s, step))
  {
  }

  ghost predicate OwnerKnown(ttl: nat, a: Assume, steps: seq<Step>, n: nat)
    requires Runs(ttl, a, steps) && n <= |steps|
  {
    var key := StateAt(ttl, a, steps, n).key;
    && (key.Held? <==> exists k: nat :: SetAt(ttl, a, steps, n, k))
    && forall k: nat :: SetAt(ttl, a, steps, n, k) ==> steps[k].Acquire? && key.Held? && key.owner == steps[k].i
  }

  ghost predicate ExpiryKnown(ttl: nat, a: Assume, steps: seq<Step>, n: nat)
    requires Runs(ttl, a, steps) && n <= |steps|
  {
    var key := StateAt(ttl, a, steps, n).key;
    && (key.Held? <==> exists k: nat :: TimedAt(ttl, a, steps, n, k))
    && forall k: nat :: TimedAt(ttl, a, steps, n, k) ==>
         key.Held? && key.expires == StateAt(ttl, a, steps, k).now + ttl
  }

  lemma OwnerMoves(ttl: nat, a: Assume, steps: seq<Step>, m: nat, n: nat)
    requires Runs(ttl, a, steps) && m + 1 == n <= |steps| && OwnerKnown(ttl, a, steps, m)
    requires KeyStepped(ttl, StateAt(ttl, a, steps, m), steps[m], StateAt(ttl, a, steps, n))
    ensures OwnerKnown(ttl, a, steps, n)
  {
    hide Runs, StateAt, Sets, Prolongs, Drops;
    var s, step := StateAt(ttl, a, steps, m), steps[m];
    if Sets(s, step) {
      assert SetAt(ttl, a, steps, n, m);
    } else {
      forall k: nat ensures SetAt(ttl, a, steps, n, k) <==> SetAt(ttl, a, steps, m, k) && !Drops(step) {
      }
    }
  }

  lemma TimeStepped(ttl: nat, s: State, step: Step, s': State)
    requires KeyStepped(ttl, s, step, s')
    ensures if Times(s, step) then s'.key.Held? && s'.key.expires == s.now + ttl
            else if Drops(step) then s'.key == Free
            else s'.key == s.key
  {
  }

  lemma ExpiryMoves(ttl: nat, a: Assume, steps: seq<Step>, m: nat, n: nat)
    requires Runs(ttl, a, steps) && m + 1 == n <= |steps| && ExpiryKnown(ttl, a, steps, m)
    requires KeyStepped(ttl, StateAt(ttl, a, steps, m), steps[m], StateAt(ttl, a, steps, n))
    ensures ExpiryKnown(ttl, a, steps, n)
  {
    hide Runs, StateAt, Sets, Prolongs, Drops;
    var s, step := StateAt(ttl, a, steps, m), steps[m];
    TimeStepped(ttl, s, step, StateAt(ttl, a, steps, n));
    hide Times, KeyStepped;
    if Times(s, step) {
      assert TimedAt(ttl, a, steps, n, m);
    } else {
      forall k: nat ensures TimedAt(ttl, a, steps, n, k) <==> TimedAt(ttl, a, steps, m, k) && !Drops(step) {
      }
    }
  }

  /** In every run there is a key exactly if some SETNX set one that no DEL removed since; it names the instance of that
      SETNX, whoever prolonged it, and expires LockTTL after it was set or last prolonged. Nothing else, a crash
      included, touches it. */
  lemma {:induction false} KeyExact(ttl: nat, a: Assume, steps: seq<Step>, n: nat)
    requires Runs(ttl, a, steps) && n <= |steps|
    ensures OwnerKnown(ttl, a, steps, n) && ExpiryKnown(ttl, a, steps, n)
    decreases n
  {
    if n == 0 {
      assert steps[..0] == [];
    } else {
      KeyExact(ttl, a, steps, n - 1);
      OneStep(ttl, a, steps, n - 1);
      KeyStep(ttl, StateAt(ttl, a, steps, n - 1), steps[n - 1]);
      hide *;
      OwnerMoves(ttl, a, steps, n - 1, n);
      ExpiryMoves(ttl, a, steps, n - 1, n);
    }
  }
}
