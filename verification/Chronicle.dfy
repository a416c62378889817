/** What the server holds, read off the steps of a run: the deduplication keys and how long each lasts. */
module Chronicle {
  import opened Options
  import opened Queue
  import opened Delivery
  import opened Timeline
  import opened Redelivery

  /** Step k is a check of attempt a that reached the server when the attempt's key was missing or expired. */
  ghost predicate ClaimsKey(c: Config, steps: seq<Step>, k: nat, a: Attempt)
    requires c.Valid() && Runs(c, steps)
  {
    && k < |steps| && steps[k].Check? && steps[k].out != NotApplied
    && var s := StateAt(c, steps, k);
    && steps[k].t in s.tasks
    && var env := s.tasks[steps[k].t].env;
    && a == Attempt(env.job, env.retryCount)
    && (a in s.keys ==> s.keys[a] <= s.now)
  }

  predicate OnTask(step: Step)
  {
    step.Invoke? || step.Return? || step.Copy? || step.Bury? || step.Drop? || step.Ack? || step.Crash?
  }

  lemma TaskStepKeys(c: Config, s: State, step: Step)
    requires c.Valid() && Enabled(c, s, step) && OnTask(step)
    ensures Apply(c, s, step).keys == s.keys
  {
  }

  lemma OtherStepKeys(c: Config, s: State, step: Step)
    requires c.Valid() && Enabled(c, s, step) && !step.Check? && !OnTask(step)
    ensures Apply(c, s, step).keys == s.keys
  {
  }

  lemma CheckKeys(c: Config, s: State, step: Step)
    requires c.Valid() && Enabled(c, s, step) && step.Check?
    ensures step.t in s.tasks
    ensures var env := s.tasks[step.t].env; var a := Attempt(env.job, env.retryCount);
            Apply(c, s, step).keys ==
            if step.out != NotApplied && (a in s.keys ==> s.keys[a] <= s.now) then s.keys[a := s.now + c.dedupTtl]
            else s.keys
  {
  }

  lemma KeysStep(c: Config, steps: seq<Step>, n: nat, a: Attempt)
    requires c.Valid() && Runs(c, steps) && n < |steps|
    ensures var s, s' := StateAt(c, steps, n), StateAt(c, steps, n + 1);
            && (ClaimsKey(c, steps, n, a) ==> a in s'.keys && s'.keys[a] == s.now + c.dedupTtl)
            && (!ClaimsKey(c, steps, n, a) ==> (a in s'.keys <==> a in s.keys)
                                               && (a in s.keys ==> s'.keys[a] == s.keys[a]))
  {
    hide Apply, Enabled, Exec, Runs;
    OneStep(c, steps, n);
    var s := StateAt(c, steps, n);
    if steps[n].Check? {
      CheckKeys(c, s, steps[n]);
    } else if OnTask(steps[n]) {
      TaskStepKeys(c, s, steps[n]);
    } else {
      OtherStepKeys(c, s, steps[n]);
    }
  }

  /** Step k is the latest of the first n that claimed the key of attempt a. */
  ghost predicate LastClaim(c: Config, steps: seq<Step>, n: nat, a: Attempt, k: nat)
    requires c.Valid() && Runs(c, steps)
  {
    k < n && ClaimsKey(c, steps, k, a) && forall j :: k < j < n ==> !ClaimsKey(c, steps, j, a)
  }

  /** An attempt has a key exactly if some check claimed it, and the key expires DedupTTL after the latest such check:
      a duplicate that was turned away never prolongs it. */
  lemma {:induction false} KeyExact(c: Config, steps: seq<Step>, n: nat, a: Attempt)
    requires c.Valid() && Runs(c, steps) && n <= |steps|
    ensures var s := StateAt(c, steps, n);
            && (a in s.keys <==> exists k: nat :: k < n && ClaimsKey(c, steps, k, a))
            && (a in s.keys ==> exists k: nat :: LastClaim(c, steps, n, a, k)
                                                 && s.keys[a] == StateAt(c, steps, k).now + c.dedupTtl)
    decreases n
  {
    if n == 0 {
      assert steps[..0] == [];
    } else {
      KeyExact(c, steps, n - 1, a);
      KeysStep(c, steps, n - 1, a);
      hide Exec, Runs;
      if ClaimsKey(c, steps, n - 1, a) {
        hide ClaimsKey;
        assert LastClaim(c, steps, n, a, n - 1);
      } else if a in StateAt(c, steps, n - 1).keys {
        hide ClaimsKey;
        var k: nat :| LastClaim(c, steps, n - 1, a, k)
                      && StateAt(c, steps, n - 1).keys[a] == StateAt(c, steps, k).now + c.dedupTtl;
        assert LastClaim(c, steps, n, a, k);
      }
    }
  }

  lemma ClockStep(c: Config, s: State, step: Step)
    requires c.Valid() && Enabled(c, s, step)
    ensures Apply(c, s, step).now == s.now + if step.Tick? then step.dt else 0
  {
  }

  lemma {:induction false} TimePasses(c: Config, steps: seq<Step>, m: nat, n: nat)
    requires c.Valid() && Runs(c, steps) && m <= n <= |steps|
    ensures StateAt(c, steps, m).now <= StateAt(c, steps, n).now
    decreases n
  {
    if m < n {
      hide Apply, Enabled, Exec, Runs;
      TimePasses(c, steps, m, n - 1);
      OneStep(c, steps, n - 1);
      ClockStep(c, StateAt(c, steps, n - 1), steps[n - 1]);
    }
  }

  /** The key of an attempt is free at step m exactly if DedupTTL has passed since every check that claimed it. */
  lemma FreeIff(c: Config, steps: seq<Step>, m: nat, a: Attempt)
    requires c.Valid() && Runs(c, steps) && m <= |steps|
    ensures KeyFree(StateAt(c, steps, m), a) <==>
            forall k: nat :: k < m && ClaimsKey(c, steps, k, a) ==>
              StateAt(c, steps, k).now + c.dedupTtl <= StateAt(c, steps, m).now
  {
    hide Exec, Runs;
    var s := StateAt(c, steps, m);
    KeyExact(c, steps, m, a);
    if a in s.keys {
      var k: nat :| LastClaim(c, steps, m, a, k) && s.keys[a] == StateAt(c, steps, k).now + c.dedupTtl;
      assert ClaimsKey(c, steps, k, a);
      hide ClaimsKey;
      forall j: nat | j < m && ClaimsKey(c, steps, j, a)
        ensures StateAt(c, steps, j).now + c.dedupTtl <= s.keys[a]
      {
        TimePasses(c, steps, j, k);
      }
    }
  }

  /** A goroutine's answered check lets it call downstream, at its next step if it lives to take one, exactly if no
      earlier check claimed the same attempt within the last DedupTTL; otherwise the entry is acknowledged unprocessed.
      How many duplicates were turned away in between does not matter. */
  lemma DuplicateWindow(c: Config, steps: seq<Step>, m: nat, n: nat, t: nat, p: nat, id: nat)
    requires c.Valid() && Runs(c, steps) && ChecksAt(c, steps, m, t, p, id) && NextOwn(steps, m, n, t)
    requires steps[n] != Crash(t)
    ensures var env := StateAt(c, steps, m).tasks[t].env; var a := Attempt(env.job, env.retryCount);
            if forall k: nat :: k < m && ClaimsKey(c, steps, k, a) ==>
                 StateAt(c, steps, k).now + c.dedupTtl <= StateAt(c, steps, m).now
            then steps[n] == Invoke(t)
            else steps[n].Ack? && steps[n].t == t
  {
    CheckDecides(c, steps, m, n, t, p, id);
    hide Exec, Runs, ClaimsKey;
    var env := StateAt(c, steps, m).tasks[t].env;
    FreeIff(c, steps, m, Attempt(env.job, env.retryCount));
  }
}
