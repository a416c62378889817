/**
 * The control-plane lock: SETNX to acquire, Get then Expire to renew, Get then Del to release, each a
 * separate command, by any number of instances with distinct ids.
 */
module ControlPlane {
  import opened Options
  import opened Queue

  datatype Lock = Free | Held(owner: nat, expires: nat)

  /** Where an instance stands in Start and waitForLock. */
  datatype Phase =
    | Starting        // first acquireLock of Start still ahead
    | Waiting         // in waitForLock
    | Reentering      // acquired in waitForLock, about to acquire again in Start
    | Reconciling     // in the reconcile loop
    | Renewing        // in the loop, between the Get and the Expire of renewLock
    | Releasing       // cancelled, before the Get of releaseLock
    | Deleting        // cancelled, between the Get and the Del of releaseLock
    | Stopped

  /** `since`: when it last set or extended the key; `stoodBy`: whether an acquireLock of Start ever failed. */
  datatype Instance = Instance(phase: Phase, since: nat, stoodBy: bool)

  datatype State = State(now: nat, key: Lock, instances: map<nat, Instance>)

  datatype Step =
    | Tick(dt: nat)
    | Launch(i: nat)
    | Acquire(i: nat, out: Outcome)
    | RenewGet(i: nat, out: Outcome)
    | RenewExpire(i: nat, out: Outcome)
    | Cancel(i: nat)
    | ReleaseGet(i: nat, out: Outcome)
    | ReleaseDel(i: nat, out: Outcome)
    | Crash(i: nat)

  predicate InPhase(s: State, i: nat, p: Phase)
  {
    i in s.instances && s.instances[i].phase == p
  }

  predicate KeyFree(s: State)
  {
    s.key.Free? || s.key.expires <= s.now
  }

  predicate OwnsKey(s: State, i: nat)
  {
    !KeyFree(s) && s.key.owner == i
  }

  predicate Enabled(s: State, step: Step)
  {
    match step
    case Tick(_) => true
    case Launch(i) => i !in s.instances
    case Acquire(i, _) => InPhase(s, i, Starting) || InPhase(s, i, Waiting) || InPhase(s, i, Reentering)
    case RenewGet(i, _) => InPhase(s, i, Reconciling)
    case RenewExpire(i, _) => InPhase(s, i, Renewing)
    case Cancel(i) => InPhase(s, i, Reconciling) || InPhase(s, i, Waiting)
    case ReleaseGet(i, _) => InPhase(s, i, Releasing)
    case ReleaseDel(i, _) => InPhase(s, i, Deleting)
    case Crash(i) => i in s.instances
  }

  function To(s: State, i: nat, p: Phase): State
    requires i in s.instances
  {
    s.(instances := s.instances[i := s.instances[i].(phase := p)])
  }

  /** acquireLock, as Start uses it: an error ends the instance, a taken key sends it to waitForLock. */
  function AcquireInStart(ttl: nat, s: State, i: nat, out: Outcome): State
    requires i in s.instances
  {
    var taken := s.(key := if out.Applied() && KeyFree(s) then Held(i, s.now + ttl) else s.key);
    if out.Errs() then To(taken, i, Stopped)
    else if KeyFree(s) then taken.(instances := s.instances[i := s.instances[i].(phase := Reconciling, since := s.now)])
    else s.(instances := s.instances[i := s.instances[i].(phase := Waiting, stoodBy := true)])
  }

  /** acquireLock, as waitForLock uses it: an error is logged, success re-enters Start. */
  function AcquireInWait(ttl: nat, s: State, i: nat, out: Outcome): State
    requires i in s.instances
  {
    var taken := s.(key := if out.Applied() && KeyFree(s) then Held(i, s.now + ttl) else s.key);
    if out.Errs() || !KeyFree(s) then taken
    else taken.(instances := s.instances[i := s.instances[i].(phase := Reentering, since := s.now)])
  }

  /** EXPIRE acts on the key whoever owns it, and is no error when the key is gone. */
  function Extend(ttl: nat, s: State, i: nat, out: Outcome): State
    requires i in s.instances
  {
    var s1 := if out.Applied() && !KeyFree(s) then s.(key := Held(s.key.owner, s.now + ttl)) else s;
    if out.Errs() then To(s1, i, Stopped)
    else s1.(instances := s.instances[i := s.instances[i].(phase := Reconciling, since := s.now)])
  }

  function Apply(ttl: nat, s: State, step: Step): State
    requires Enabled(s, step)
  {
    match step
    case Tick(dt) => s.(now := s.now + dt)
    case Launch(i) => s.(instances := s.instances[i := Instance(Starting, 0, false)])
    case Acquire(i, out) =>
      if InPhase(s, i, Waiting) then AcquireInWait(ttl, s, i, out) else AcquireInStart(ttl, s, i, out)
    case RenewGet(i, out) => To(s, i, if out.Errs() || !OwnsKey(s, i) then Stopped else Renewing)
    case RenewExpire(i, out) => Extend(ttl, s, i, out)
    case Cancel(i) => To(s, i, if InPhase(s, i, Reconciling) then Releasing else Stopped)
    case ReleaseGet(i, out) => To(s, i, if out.Errs() || !OwnsKey(s, i) then Stopped else Deleting)
    case ReleaseDel(i, out) => To(if out.Applied() then s.(key := Free) else s, i, Stopped)
    case Crash(i) => To(s, i, Stopped)
  }

  /** In the reconcile loop. */
  predicate InLoop(s: State, i: nat)
  {
    InPhase(s, i, Reconciling) || InPhase(s, i, Renewing)
  }

  /** From acquiring the lock until the Del that gives it back. */
  predicate Holds(s: State, i: nat)
  {
    InLoop(s, i) || InPhase(s, i, Releasing) || InPhase(s, i, Deleting)
  }

  datatype Assume = Anything | Timely | Prompt | TimelyAndPrompt
  {
    predicate HoldersOnTime() { Timely? || TimelyAndPrompt? }
  }

  /** No holder lets LockTTL pass between its last acquire or renewal and its next Expire or Del. */
  predicate HoldersTimely(ttl: nat, s: State, step: Step)
  {
    step.Tick? ==> forall i :: i in s.instances && Holds(s, i) ==> s.now + step.dt < s.instances[i].since + ttl
  }

  /** Start is re-entered within LockTTL of the acquisition in waitForLock. */
  predicate ReentryPrompt(ttl: nat, s: State, step: Step)
  {
    step.Tick? ==> forall i :: i in s.instances && s.instances[i].phase == Reentering ==>
      s.now + step.dt < s.instances[i].since + ttl
  }

  predicate Allowed(ttl: nat, a: Assume, s: State, step: Step)
  {
    match a
    case Anything => true
    case Timely => HoldersTimely(ttl, s, step)
    case Prompt => ReentryPrompt(ttl, s, step)
    case TimelyAndPrompt => HoldersTimely(ttl, s, step) && ReentryPrompt(ttl, s, step)
  }

  const INIT := State(0, Free, map[])

  function Exec(ttl: nat, a: Assume, steps: seq<Step>): Option<State>
  {
    if steps == [] then Some(INIT)
    else
      var n := |steps| - 1;
      match Exec(ttl, a, steps[..n])
      case None => None
      case Some(s) =>
        if Enabled(s, steps[n]) && Allowed(ttl, a, s, steps[n]) then Some(Apply(ttl, s, steps[n])) else None
  }

  // ---- Mutual exclusion ----

  /** A holder owns the live key, which expires LockTTL after its last acquire or renewal. */
  ghost predicate HolderOwns(ttl: nat, s: State, i: nat)
    requires i in s.instances
  {
    s.key == Held(i, s.instances[i].since + ttl) && s.now < s.key.expires
  }

  ghost predicate LockOk(ttl: nat, s: State)
  {
    forall i :: i in s.instances && Holds(s, i) ==> HolderOwns(ttl, s, i)
  }

  lemma StepKeepsLock(ttl: nat, s: State, step: Step)
    requires 0 < ttl && LockOk(ttl, s) && Enabled(s, step) && HoldersTimely(ttl, s, step)
    ensures LockOk(ttl, Apply(ttl, s, step))
  {
    var s' := Apply(ttl, s, step);
    forall i | i in s'.instances && Holds(s', i) ensures HolderOwns(ttl, s', i) {
      if i in s.instances && Holds(s, i) {
        assert HolderOwns(ttl, s, i);
      }
    }
  }

  lemma {:induction false} RunKeepsLock(ttl: nat, a: Assume, steps: seq<Step>)
    requires 0 < ttl && a.HoldersOnTime()
    ensures var r := Exec(ttl, a, steps); r.Some? ==> LockOk(ttl, r.value)
  {
    if steps != [] && Exec(ttl, a, steps).Some? {
      var n := |steps| - 1;
      RunKeepsLock(ttl, a, steps[..n]);
      hide LockOk;
      StepKeepsLock(ttl, Exec(ttl, a, steps[..n]).value, steps[n]);
    }
  }

  /** In every timely run at most one instance is in the reconcile loop, and it owns the live key. */
  lemma MutualExclusion(ttl: nat, a: Assume, steps: seq<Step>, i: nat, j: nat)
    requires 0 < ttl && a.HoldersOnTime() && Exec(ttl, a, steps).Some?
    requires var s := Exec(ttl, a, steps).value; InLoop(s, i) && InLoop(s, j)
    ensures i == j && OwnsKey(Exec(ttl, a, steps).value, i)
  {
    RunKeepsLock(ttl, a, steps);
    var s := Exec(ttl, a, steps).value;
    assert Holds(s, i) && Holds(s, j);
    assert HolderOwns(ttl, s, i) && HolderOwns(ttl, s, j);
  }

  lemma ExecExtends(ttl: nat, a: Assume, steps: seq<Step>, s: State, step: Step)
    requires Exec(ttl, a, steps) == Some(s) && Enabled(s, step) && Allowed(ttl, a, s, step)
    ensures Exec(ttl, a, steps + [step]) == Some(Apply(ttl, s, step))
  {
    assert (steps + [step])[..|steps|] == steps;
  }

  /** A holder that pauses for LockTTL loses exclusion: two instances reconcile. */
  lemma PauseBreaksExclusion(ttl: nat, a: Assume) returns (steps: seq<Step>)
    requires !a.HoldersOnTime()
    ensures Exec(ttl, a, steps).Some?
    ensures var s := Exec(ttl, a, steps).value; InLoop(s, 0) && InLoop(s, 1)
  {
    var s := INIT;
    steps := [];
    ExecExtends(ttl, a, steps, s, Launch(0));
    steps, s := steps + [Launch(0)], Apply(ttl, s, Launch(0));
    ExecExtends(ttl, a, steps, s, Acquire(0, Ok));
    steps, s := steps + [Acquire(0, Ok)], Apply(ttl, s, Acquire(0, Ok));
    ExecExtends(ttl, a, steps, s, Tick(ttl));
    steps, s := steps + [Tick(ttl)], Apply(ttl, s, Tick(ttl));
    ExecExtends(ttl, a, steps, s, Launch(1));
    steps, s := steps + [Launch(1)], Apply(ttl, s, Launch(1));
    ExecExtends(ttl, a, steps, s, Acquire(1, Ok));
    steps, s := steps + [Acquire(1, Ok)], Apply(ttl, s, Acquire(1, Ok));
  }

  ghost predicate TwoReconcile(ttl: nat, a: Assume, steps: seq<Step>, i: nat, j: nat)
  {
    i != j && Exec(ttl, a, steps).Some? && InLoop(Exec(ttl, a, steps).value, i) && InLoop(Exec(ttl, a, steps).value, j)
  }

  /** Under each assumption: two instances can be in the loop exactly when a holder may let LockTTL pass. */
  lemma ExclusionIff(ttl: nat, a: Assume)
    requires 0 < ttl
    ensures (exists steps, i, j :: TwoReconcile(ttl, a, steps, i, j)) <==> !a.HoldersOnTime()
  {
    if a.HoldersOnTime() {
      forall steps, i, j ensures !TwoReconcile(ttl, a, steps, i, j) {
        if TwoReconcile(ttl, a, steps, i, j) {
          MutualExclusion(ttl, a, steps, i, j);
        }
      }
    } else {
      var steps := PauseBreaksExclusion(ttl, a);
      assert TwoReconcile(ttl, a, steps, 0, 1);
    }
  }

  // ---- Standing by ----

  /** An instance that stood by re-enters Start owning the key itself, and is not in the loop. */
  ghost predicate StandbyOk(ttl: nat, s: State)
  {
    forall i :: i in s.instances ==>
      && (s.instances[i].phase == Reentering ==> HolderOwns(ttl, s, i))
      && (s.instances[i].phase in {Waiting, Reentering} ==> s.instances[i].stoodBy)
      && (s.instances[i].stoodBy ==> s.instances[i].phase in {Waiting, Reentering, Stopped})
  }

  lemma StepKeepsStandby(ttl: nat, s: State, step: Step)
    requires 0 < ttl && LockOk(ttl, s) && StandbyOk(ttl, s) && Enabled(s, step)
    requires Allowed(ttl, TimelyAndPrompt, s, step)
    ensures StandbyOk(ttl, Apply(ttl, s, step))
  {
    var s' := Apply(ttl, s, step);
    forall i | i in s'.instances
      ensures s'.instances[i].phase == Reentering ==> HolderOwns(ttl, s', i)
    {
      if InPhase(s, i, Reentering) {
        assert HolderOwns(ttl, s, i);
        assert forall k :: k in s.instances && Holds(s, k) ==> s.key.Held? && s.key.owner == k;
      }
    }
  }

  lemma {:induction false} RunKeepsStandby(ttl: nat, steps: seq<Step>)
    requires 0 < ttl
    ensures var r := Exec(ttl, TimelyAndPrompt, steps); r.Some? ==> StandbyOk(ttl, r.value)
  {
    if steps != [] && Exec(ttl, TimelyAndPrompt, steps).Some? {
      var n := |steps| - 1;
      RunKeepsStandby(ttl, steps[..n]);
      RunKeepsLock(ttl, TimelyAndPrompt, steps[..n]);
      hide LockOk, StandbyOk;
      StepKeepsStandby(ttl, Exec(ttl, TimelyAndPrompt, steps[..n]).value, steps[n]);
    }
  }

  /** The SETNX inside the re-entered Start meets the instance's own key: an instance that ever stood by
      never reaches the reconcile loop, whatever happens to the others. */
  lemma StandbyNeverReconciles(ttl: nat, steps: seq<Step>, i: nat)
    requires 0 < ttl && Exec(ttl, TimelyAndPrompt, steps).Some?
    requires var s := Exec(ttl, TimelyAndPrompt, steps).value; i in s.instances && s.instances[i].stoodBy
    ensures !InLoop(Exec(ttl, TimelyAndPrompt, steps).value, i)
  {
    RunKeepsStandby(ttl, steps);
  }

  // ---- Standing by, without timing assumptions ----

  ghost predicate ReenteringAt(ttl: nat, steps: seq<Step>, i: nat, m: nat)
    requires m <= |steps|
  {
    var r := Exec(ttl, Anything, steps[..m]);
    r.Some? && InPhase(r.value, i, Reentering)
  }

  /** At step k the instance took the key in waitForLock, and it has been about to re-enter Start ever since: it is
      the take this re-entry follows. */
  ghost predicate TookAt(ttl: nat, steps: seq<Step>, i: nat, k: nat)
  {
    && k < |steps| && steps[k] == Acquire(i, Ok)
    && (var r := Exec(ttl, Anything, steps[..k]);
        r.Some? && InPhase(r.value, i, Waiting) && KeyFree(r.value))
    && forall m: nat :: k < m <= |steps| ==> ReenteringAt(ttl, steps, i, m)
  }

  ghost function TimeAt(ttl: nat, steps: seq<Step>, k: nat): nat
    requires k <= |steps|
  {
    var r := Exec(ttl, Anything, steps[..k]);
    if r.Some? then r.value.now else 0
  }

  /** A Del was applied after step k. */
  ghost predicate DeletedAfter(steps: seq<Step>, k: nat)
  {
    exists m: nat :: k < m < |steps| && steps[m].ReleaseDel? && steps[m].out.Applied()
  }

  /** The key taken at step k has run out its LockTTL or was deleted. */
  ghost predicate KeyGone(ttl: nat, steps: seq<Step>, k: nat, now: nat)
  {
    k <= |steps| && (TimeAt(ttl, steps, k) + ttl <= now || DeletedAfter(steps, k))
  }

  /** The key the instance took at step k is gone, or is still its own and live. */
  ghost predicate KeyFate(ttl: nat, steps: seq<Step>, s: State, i: nat, k: nat)
  {
    && TookAt(ttl, steps, i, k)
    && (KeyGone(ttl, steps, k, s.now) || (OwnsKey(s, i) && TimeAt(ttl, steps, k) + ttl <= s.key.expires))
  }

  lemma TookEarlier(ttl: nat, steps: seq<Step>, i: nat, k: nat)
    requires steps != [] && TookAt(ttl, steps[..|steps| - 1], i, k) && ReenteringAt(ttl, steps, i, |steps|)
    ensures TookAt(ttl, steps, i, k) && TimeAt(ttl, steps, k) == TimeAt(ttl, steps[..|steps| - 1], k)
    ensures DeletedAfter(steps[..|steps| - 1], k) ==> DeletedAfter(steps, k)
  {
    var n := |steps| - 1;
    assert steps[..n][..k] == steps[..k];
    forall m: nat | k < m <= |steps| ensures ReenteringAt(ttl, steps, i, m) {
      if m <= n {
        assert ReenteringAt(ttl, steps[..n], i, m) && steps[..n][..m] == steps[..m];
      }
    }
    if DeletedAfter(steps[..|steps| - 1], k) {
      var m: nat :| k < m < |steps| - 1 && steps[m].ReleaseDel? && steps[m].out.Applied();
      assert steps[m].ReleaseDel?;
    }
  }

  /** One step on, the key the instance owned is still its own, was deleted, or has expired. */
  lemma OwnedStep(ttl: nat, s: State, step: Step, i: nat, until: nat)
    requires 0 < ttl && OwnsKey(s, i) && until <= s.key.expires && until <= s.now + ttl && Enabled(s, step)
    ensures var s' := Apply(ttl, s, step);
            || (OwnsKey(s', i) && until <= s'.key.expires)
            || until <= s'.now
            || (step.ReleaseDel? && step.out.Applied())
  {
  }

  lemma BecomesReentering(ttl: nat, s: State, step: Step, i: nat)
    requires 0 < ttl && Enabled(s, step) && InPhase(Apply(ttl, s, step), i, Reentering)
    ensures InPhase(s, i, Reentering) || (step == Acquire(i, Ok) && InPhase(s, i, Waiting) && KeyFree(s))
    ensures !InPhase(s, i, Reentering) ==>
              var s' := Apply(ttl, s, step); OwnsKey(s', i) && s'.key.expires == s.now + ttl && s'.now == s.now
  {
  }

  lemma {:induction false} TimeGrows(ttl: nat, steps: seq<Step>, k: nat)
    requires k <= |steps| && Exec(ttl, Anything, steps).Some?
    ensures TimeAt(ttl, steps, k) <= Exec(ttl, Anything, steps).value.now
  {
    var n := |steps| - 1;
    if k <= n {
      assert steps[..n][..k] == steps[..k];
      TimeGrows(ttl, steps[..n], k);
    } else {
      assert steps[..k] == steps;
    }
  }

  /** In every run, whatever the timing: an instance about to re-enter Start has been so since it took the key in
      waitForLock, and that key has run out its LockTTL, or a Del was applied since, or it is still the instance's own
      and live. */
  lemma {:induction false} ReenteringKey(ttl: nat, steps: seq<Step>, i: nat) returns (k: nat)
    requires 0 < ttl && Exec(ttl, Anything, steps).Some? && InPhase(Exec(ttl, Anything, steps).value, i, Reentering)
    ensures KeyFate(ttl, steps, Exec(ttl, Anything, steps).value, i, k)
  {
    var n := |steps| - 1;
    var s := Exec(ttl, Anything, steps[..n]).value;
    BecomesReentering(ttl, s, steps[n], i);
    assert steps[..|steps|] == steps;
    if !InPhase(s, i, Reentering) {
      k := n;
    } else {
      k := ReenteringKey(ttl, steps[..n], i);
      TookEarlier(ttl, steps, i, k);
      TimeGrows(ttl, steps[..n], k);
      FateStep(ttl, steps, i, k);
    }
  }

  lemma FateStep(ttl: nat, steps: seq<Step>, i: nat, k: nat)
    requires 0 < ttl && steps != [] && Exec(ttl, Anything, steps).Some?
    requires TookAt(ttl, steps, i, k) && TimeAt(ttl, steps, k) == TimeAt(ttl, steps[..|steps| - 1], k)
    requires var before := steps[..|steps| - 1];
             && k < |before| && KeyFate(ttl, before, Exec(ttl, Anything, before).value, i, k)
             && (DeletedAfter(before, k) ==> DeletedAfter(steps, k))
             && TimeAt(ttl, before, k) <= Exec(ttl, Anything, before).value.now
    ensures KeyFate(ttl, steps, Exec(ttl, Anything, steps).value, i, k)
  {
    var n := |steps| - 1;
    var s := Exec(ttl, Anything, steps[..n]).value;
    var until := TimeAt(ttl, steps, k) + ttl;
    hide TookAt, TimeAt;
    if !KeyGone(ttl, steps[..n], k, s.now) {
      OwnedStep(ttl, s, steps[n], i, until);
      assert steps[n].ReleaseDel? && steps[n].out.Applied() ==> DeletedAfter(steps, k);
    } else {
      NowGrows(ttl, s, steps[n]);
    }
  }

  lemma NowGrows(ttl: nat, s: State, step: Step)
    requires Enabled(s, step)
    ensures s.now <= Apply(ttl, s, step).now
  {
  }

  /** An instance that stood by is past its first attempt. */
  lemma {:induction false} StoodByStarted(ttl: nat, steps: seq<Step>, i: nat)
    requires Exec(ttl, Anything, steps).Some?
    ensures var s := Exec(ttl, Anything, steps).value; InPhase(s, i, Starting) ==> !s.instances[i].stoodBy
  {
    if steps != [] {
      StoodByStarted(ttl, steps[..|steps| - 1], i);
    }
  }

  lemma EntersBy(ttl: nat, s: State, step: Step, i: nat)
    requires Enabled(s, step) && i in s.instances && !InLoop(s, i) && !InPhase(s, i, Starting)
    ensures InLoop(Apply(ttl, s, step), i) <==> step == Acquire(i, Ok) && InPhase(s, i, Reentering) && KeyFree(s)
  {
  }

  /** In every run, an instance that stood by enters the reconcile loop exactly at a SETNX with which it re-enters
      Start when the key it took just before in waitForLock has run out its LockTTL or was deleted, and nobody holds
      the lock now. */
  lemma StandbyEntersIff(ttl: nat, steps: seq<Step>, i: nat)
    requires 0 < ttl && steps != [] && Exec(ttl, Anything, steps).Some?
    requires var s := Exec(ttl, Anything, steps[..|steps| - 1]).value;
             i in s.instances && s.instances[i].stoodBy && !InLoop(s, i)
    ensures var n := |steps| - 1; var s := Exec(ttl, Anything, steps[..n]).value;
            InLoop(Exec(ttl, Anything, steps).value, i) <==>
              && steps[n] == Acquire(i, Ok) && InPhase(s, i, Reentering)
              && (exists k: nat :: TookAt(ttl, steps[..n], i, k) && KeyGone(ttl, steps[..n], k, s.now))
              && forall j: nat :: !OwnsKey(s, j)
  {
    var n := |steps| - 1;
    var s := Exec(ttl, Anything, steps[..n]).value;
    StoodByStarted(ttl, steps[..n], i);
    EntersBy(ttl, s, steps[n], i);
    assert KeyFree(s) <==> forall j: nat :: !OwnsKey(s, j) by {
      if !KeyFree(s) {
        assert OwnsKey(s, s.key.owner);
      }
    }
    if InPhase(s, i, Reentering) && KeyFree(s) {
      var k := ReenteringKey(ttl, steps[..n], i);
      assert KeyGone(ttl, steps[..n], k, s.now);
    }
  }

  /** Promptness is not enough by itself: a holder that paused in releaseLock deletes the key the standby took, and
      a re-entry without any delay gets in. */
  lemma DeletedKeyLetsIn(ttl: nat) returns (steps: seq<Step>)
    requires 0 < ttl
    ensures Exec(ttl, Prompt, steps).Some?
    ensures var s := Exec(ttl, Prompt, steps).value; InLoop(s, 1) && s.instances[1].stoodBy
  {
    var s: State;
    steps, s := TakenOverLate(ttl);
    ExecExtends(ttl, Prompt, steps, s, ReleaseDel(0, Ok));
    steps, s := steps + [ReleaseDel(0, Ok)], Apply(ttl, s, ReleaseDel(0, Ok));
    ExecExtends(ttl, Prompt, steps, s, Acquire(1, Ok));
    steps, s := steps + [Acquire(1, Ok)], Apply(ttl, s, Acquire(1, Ok));
  }

  /** The first pauses between the Get and the Del of releaseLock until its key expires; the second takes it over. */
  lemma TakenOverLate(ttl: nat) returns (steps: seq<Step>, s: State)
    requires 0 < ttl
    ensures Exec(ttl, Prompt, steps) == Some(s)
    ensures s == State(ttl, Held(1, ttl + ttl),
                       map[0 := Instance(Deleting, 0, false), 1 := Instance(Reentering, ttl, true)])
  {
    steps, s := SecondStandsBy(ttl, Prompt);
    ExecExtends(ttl, Prompt, steps, s, Cancel(0));
    steps, s := steps + [Cancel(0)], Apply(ttl, s, Cancel(0));
    ExecExtends(ttl, Prompt, steps, s, ReleaseGet(0, Ok));
    steps, s := steps + [ReleaseGet(0, Ok)], Apply(ttl, s, ReleaseGet(0, Ok));
    ExecExtends(ttl, Prompt, steps, s, Tick(ttl));
    steps, s := steps + [Tick(ttl)], Apply(ttl, s, Tick(ttl));
    ExecExtends(ttl, Prompt, steps, s, Acquire(1, Ok));
    steps, s := steps + [Acquire(1, Ok)], Apply(ttl, s, Acquire(1, Ok));
  }

  /** A re-entry delayed by LockTTL does get in, so promptness is what shuts it out. */
  lemma DelayedStandbyEnters(ttl: nat) returns (steps: seq<Step>)
    requires 0 < ttl
    ensures Exec(ttl, Timely, steps).Some?
    ensures var s := Exec(ttl, Timely, steps).value; InLoop(s, 1) && s.instances[1].stoodBy
  {
    var s: State;
    steps, s := StandbyTakesOver(ttl);
    ExecExtends(ttl, Timely, steps, s, Tick(ttl));
    steps, s := steps + [Tick(ttl)], Apply(ttl, s, Tick(ttl));
    ExecExtends(ttl, Timely, steps, s, Acquire(1, Ok));
    steps, s := steps + [Acquire(1, Ok)], Apply(ttl, s, Acquire(1, Ok));
  }

  /** The first instance holds the lock, the second has gone to wait. */
  lemma SecondStandsBy(ttl: nat, a: Assume) returns (steps: seq<Step>, s: State)
    requires 0 < ttl
    ensures Exec(ttl, a, steps) == Some(s)
    ensures s == State(0, Held(0, ttl), map[0 := Instance(Reconciling, 0, false), 1 := Instance(Waiting, 0, true)])
  {
    steps, s := [], INIT;
    ExecExtends(ttl, a, steps, s, Launch(0));
    steps, s := steps + [Launch(0)], Apply(ttl, s, Launch(0));
    ExecExtends(ttl, a, steps, s, Acquire(0, Ok));
    steps, s := steps + [Acquire(0, Ok)], Apply(ttl, s, Acquire(0, Ok));
    ExecExtends(ttl, a, steps, s, Launch(1));
    steps, s := steps + [Launch(1)], Apply(ttl, s, Launch(1));
    ExecExtends(ttl, a, steps, s, Acquire(1, Ok));
    steps, s := steps + [Acquire(1, Ok)], Apply(ttl, s, Acquire(1, Ok));
  }

  /** The first renews the lock just in time. */
  lemma FirstRenews(ttl: nat, a: Assume) returns (steps: seq<Step>, s: State)
    requires 0 < ttl
    ensures Exec(ttl, a, steps) == Some(s)
    ensures s == State(ttl - 1, Held(0, ttl - 1 + ttl),
                       map[0 := Instance(Reconciling, ttl - 1, false), 1 := Instance(Waiting, 0, true)])
  {
    steps, s := SecondStandsBy(ttl, a);
    ExecExtends(ttl, a, steps, s, Tick(ttl - 1));
    steps, s := steps + [Tick(ttl - 1)], Apply(ttl, s, Tick(ttl - 1));
    ExecExtends(ttl, a, steps, s, RenewGet(0, Ok));
    steps, s := steps + [RenewGet(0, Ok)], Apply(ttl, s, RenewGet(0, Ok));
    ExecExtends(ttl, a, steps, s, RenewExpire(0, Ok));
    steps, s := steps + [RenewExpire(0, Ok)], Apply(ttl, s, RenewExpire(0, Ok));
  }

  /** And is cancelled, again just in time. */
  lemma FirstCancelled(ttl: nat, a: Assume) returns (steps: seq<Step>, s: State)
    requires 0 < ttl
    ensures Exec(ttl, a, steps) == Some(s)
    ensures s == State(2 * (ttl - 1), Held(0, ttl - 1 + ttl),
                       map[0 := Instance(Releasing, ttl - 1, false), 1 := Instance(Waiting, 0, true)])
  {
    steps, s := FirstRenews(ttl, a);
    ExecExtends(ttl, a, steps, s, Tick(ttl - 1));
    steps, s := steps + [Tick(ttl - 1)], Apply(ttl, s, Tick(ttl - 1));
    ExecExtends(ttl, a, steps, s, Cancel(0));
    steps, s := steps + [Cancel(0)], Apply(ttl, s, Cancel(0));
  }

  /** And gives the lock back. */
  lemma FirstRetires(ttl: nat, a: Assume) returns (steps: seq<Step>, s: State)
    requires 0 < ttl
    ensures Exec(ttl, a, steps) == Some(s)
    ensures s == State(2 * (ttl - 1), Free,
                       map[0 := Instance(Stopped, ttl - 1, false), 1 := Instance(Waiting, 0, true)])
  {
    steps, s := FirstCancelled(ttl, a);
    ExecExtends(ttl, a, steps, s, ReleaseGet(0, Ok));
    steps, s := steps + [ReleaseGet(0, Ok)], Apply(ttl, s, ReleaseGet(0, Ok));
    ExecExtends(ttl, a, steps, s, ReleaseDel(0, Ok));
    steps, s := steps + [ReleaseDel(0, Ok)], Apply(ttl, s, ReleaseDel(0, Ok));
  }

  /** Under every timing assumption, the lock is held, renewed just in time, given back, and taken by a new instance,
      which enters the loop while the one that stood by still waits. */
  lemma OrderlySuccession(ttl: nat, a: Assume) returns (steps: seq<Step>)
    requires 0 < ttl
    ensures Exec(ttl, a, steps).Some?
    ensures var s := Exec(ttl, a, steps).value; var now := 2 * (ttl - 1);
            && s.now == now && s.key == Held(2, now + ttl) && InPhase(s, 2, Reconciling)
            && InPhase(s, 0, Stopped) && InPhase(s, 1, Waiting)
  {
    var s: State;
    steps, s := FirstRetires(ttl, a);
    ExecExtends(ttl, a, steps, s, Launch(2));
    steps, s := steps + [Launch(2)], Apply(ttl, s, Launch(2));
    ExecExtends(ttl, a, steps, s, Acquire(2, Ok));
    steps, s := steps + [Acquire(2, Ok)], Apply(ttl, s, Acquire(2, Ok));
  }

  /** The first gives the lock back. */
  lemma FirstReleases(ttl: nat) returns (steps: seq<Step>, s: State)
    requires 0 < ttl
    ensures Exec(ttl, Timely, steps) == Some(s)
    ensures s == State(0, Free, map[0 := Instance(Stopped, 0, false), 1 := Instance(Waiting, 0, true)])
  {
    steps, s := SecondStandsBy(ttl, Timely);
    ExecExtends(ttl, Timely, steps, s, Cancel(0));
    steps, s := steps + [Cancel(0)], Apply(ttl, s, Cancel(0));
    ExecExtends(ttl, Timely, steps, s, ReleaseGet(0, Ok));
    steps, s := steps + [ReleaseGet(0, Ok)], Apply(ttl, s, ReleaseGet(0, Ok));
    ExecExtends(ttl, Timely, steps, s, ReleaseDel(0, Ok));
    steps, s := steps + [ReleaseDel(0, Ok)], Apply(ttl, s, ReleaseDel(0, Ok));
  }

  /** The first releases the lock and the second takes it in waitForLock. */
  lemma StandbyTakesOver(ttl: nat) returns (steps: seq<Step>, s: State)
    requires 0 < ttl
    ensures Exec(ttl, Timely, steps) == Some(s)
    ensures s == State(0, Held(1, ttl), map[0 := Instance(Stopped, 0, false), 1 := Instance(Reentering, 0, true)])
  {
    steps, s := FirstReleases(ttl);
    ExecExtends(ttl, Timely, steps, s, Acquire(1, Ok));
    steps, s := steps + [Acquire(1, Ok)], Apply(ttl, s, Acquire(1, Ok));
  }
}
