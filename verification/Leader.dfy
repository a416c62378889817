/**
 * Start, waitForLock, renewLock and releaseLock as code over the shared lock server, with the other instances'
 * commands and the passing of time in between. What the select statements see, ticks and the cancellation, is given as
 * a sequence of events; a loop that has seen all of them is still running.
 */
module Leader {
  import opened Options
  import opened Queue
  import opened ControlPlane

  predicate StepOf(step: Step, i: nat)
  {
    match step
    case Tick(_) => false
    case Launch(j) => i == j
    case Acquire(j, _) => i == j
    case RenewGet(j, _) => i == j
    case RenewExpire(j, _) => i == j
    case Cancel(j) => i == j
    case ReleaseGet(j, _) => i == j
    case ReleaseDel(j, _) => i == j
    case Crash(j) => i == j
  }

  /** The commands of the instance, in order. */
  ghost function Own(steps: seq<Step>, i: nat): seq<Step>
  {
    if steps == [] then []
    else
      var last := steps[|steps| - 1];
      Own(steps[..|steps| - 1], i) + if StepOf(last, i) then [last] else []
  }

  /** A reconcile of instance i, after the first n commands on the server. */
  datatype Visit = Visit(i: nat, n: nat)

  ghost function StateAt(ttl: nat, a: Assume, steps: seq<Step>, n: nat): Option<State>
  {
    if n <= |steps| then Exec(ttl, a, steps[..n]) else None
  }

  /** Reconciles happen in the reconcile loop. */
  ghost predicate VisitOk(ttl: nat, a: Assume, steps: seq<Step>, v: Visit)
  {
    var r := StateAt(ttl, a, steps, v.n);
    r.Some? && InLoop(r.value, v.i)
  }

  ghost predicate VisitsOk(ttl: nat, a: Assume, steps: seq<Step>, visits: seq<Visit>)
  {
    forall k :: 0 <= k < |visits| ==> VisitOk(ttl, a, steps, visits[k])
  }

  lemma VisitsStay(ttl: nat, a: Assume, steps: seq<Step>, step: Step, visits: seq<Visit>)
    requires VisitsOk(ttl, a, steps, visits)
    ensures VisitsOk(ttl, a, steps + [step], visits)
  {
    forall k | 0 <= k < |visits| ensures VisitOk(ttl, a, steps + [step], visits[k]) {
      assert VisitOk(ttl, a, steps, visits[k]);
      assert (steps + [step])[..visits[k].n] == steps[..visits[k].n];
    }
  }

  lemma VisitNow(ttl: nat, a: Assume, steps: seq<Step>, visits: seq<Visit>, i: nat)
    requires VisitsOk(ttl, a, steps, visits) && Exec(ttl, a, steps).Some? && InLoop(Exec(ttl, a, steps).value, i)
    ensures VisitsOk(ttl, a, steps, visits + [Visit(i, |steps|)])
  {
    assert steps[..|steps|] == steps;
    assert VisitOk(ttl, a, steps, Visit(i, |steps|));
  }

  class Server {
    const ttl: nat
    const a: Assume
    var s: State
    ghost var steps: seq<Step>
    ghost var reconciled: seq<Visit>

    /** The state is the one reached by the commands so far, none of which broke the assumption, and the reconciles on
        record were made in the loop. */
    ghost predicate Valid()
      reads this
    {
      0 < ttl && Exec(ttl, a, steps) == Some(s) && VisitsOk(ttl, a, steps, reconciled)
    }

    constructor (ttl: nat, a: Assume)
      requires 0 < ttl
      ensures Valid() && this.ttl == ttl && this.a == a && s == INIT && steps == [] && reconciled == []
    {
      this.ttl, this.a := ttl, a;
      s := INIT;
      steps, reconciled := [], [];
    }

    method Do(step: Step)
      requires Valid() && Enabled(s, step) && Allowed(ttl, a, s, step)
      modifies this`s, this`steps
      ensures Valid() && s == Apply(ttl, old(s), step) && steps == old(steps) + [step]
      ensures forall i :: Own(steps, i) == Own(old(steps), i) + if StepOf(step, i) then [step] else []
    {
      ExecExtends(ttl, a, steps, s, step);
      VisitsStay(ttl, a, steps, step, reconciled);
      s := Apply(ttl, s, step);
      steps := steps + [step];
      assert steps[..|steps| - 1] == old(steps);
    }

    /** Any number of commands of the other instances, and time. */
    method Interfere(i: nat)
      requires Valid() && i in s.instances
      modifies this`s, this`steps
      ensures Valid() && i in s.instances && s.instances[i] == old(s).instances[i]
      ensures Own(steps, i) == Own(old(steps), i)
    {
      hide Own, VisitsOk;
      var n: nat := *;
      while 0 < n
        invariant Valid() && i in s.instances && s.instances[i] == old(s).instances[i]
        invariant Own(steps, i) == Own(old(steps), i)
      {
        var step: Step := *;
        if Enabled(s, step) && Allowed(ttl, a, s, step) && !StepOf(step, i) {
          Do(step);
        }
        n := n - 1;
      }
    }

    /** The instance reconciles now. */
    ghost method Reconcile(i: nat)
      requires Valid() && InLoop(s, i)
      modifies this`reconciled
      ensures Valid() && reconciled == old(reconciled) + [Visit(i, |steps|)]
    {
      VisitNow(ttl, a, steps, reconciled, i);
      reconciled := reconciled + [Visit(i, |steps|)];
    }
  }

  /** The instance owns the live key and nobody else is in the reconcile loop. */
  ghost predicate Alone(s: State, i: nat)
  {
    OwnsKey(s, i) && forall j :: j in s.instances && InLoop(s, j) ==> j == i
  }

  /** At each of these reconciles the instance was alone. */
  ghost predicate AllAlone(ttl: nat, a: Assume, steps: seq<Step>, visits: seq<Visit>)
  {
    forall k :: 0 <= k < |visits| ==>
      var r := StateAt(ttl, a, steps, visits[k].n); r.Some? && Alone(r.value, visits[k].i)
  }

  /** Every reconcile on record, of whatever instance, was made alone and with the key, if holders are on time. */
  lemma VisitsAlone(ttl: nat, a: Assume, steps: seq<Step>, visits: seq<Visit>)
    requires 0 < ttl && a.HoldersOnTime() && VisitsOk(ttl, a, steps, visits)
    ensures AllAlone(ttl, a, steps, visits)
  {
    forall k | 0 <= k < |visits|
      ensures var r := StateAt(ttl, a, steps, visits[k].n); r.Some? && Alone(r.value, visits[k].i)
    {
      assert VisitOk(ttl, a, steps, visits[k]);
      AloneInLoop(ttl, a, steps[..visits[k].n], visits[k].i);
    }
  }

  lemma AloneInLoop(ttl: nat, a: Assume, steps: seq<Step>, i: nat)
    requires 0 < ttl && a.HoldersOnTime() && Exec(ttl, a, steps).Some? && InLoop(Exec(ttl, a, steps).value, i)
    ensures Alone(Exec(ttl, a, steps).value, i)
  {
    RunKeepsLock(ttl, a, steps);
    var s := Exec(ttl, a, steps).value;
    assert Holds(s, i) && HolderOwns(ttl, s, i);
    forall j | j in s.instances && InLoop(s, j) ensures j == i {
      assert Holds(s, j) && HolderOwns(ttl, s, j);
    }
  }

  /** acquireLock and the branch its caller takes on it. */
  method AcquireLock(server: Server, i: nat) returns (acquired: bool, err: bool, ghost step: Step)
    requires server.Valid() && i in server.s.instances && server.s.instances[i].phase in {Starting, Waiting, Reentering}
    modifies server`s, server`steps
    ensures server.Valid() && i in server.s.instances && server.steps == old(server.steps) + [step]
    ensures Own(server.steps, i) == Own(old(server.steps), i) + [step]
    ensures step.Acquire? && step.i == i && err == step.out.Errs() && acquired == (!err && KeyFree(old(server.s)))
    // A SETNX that reached the server on a missing or expired key took it, whether or not the instance heard.
    ensures var key, now := old(server.s.key), old(server.s.now);
            server.s.key == if step.out == NotApplied || (key.Held? && now < key.expires) then key
                            else Held(i, now + server.ttl)
    ensures var was, now := old(server.s.instances[i]), server.s.instances[i];
            && (acquired ==> OwnsKey(server.s, i))
            && (was.phase == Waiting ==>
                  now.phase == (if acquired then Reentering else Waiting) && now.stoodBy == was.stoodBy)
            && (was.phase != Waiting ==>
                  now.phase == (if err then Stopped else if acquired then Reconciling else Waiting))
            && (was.phase != Waiting ==> now.stoodBy == (was.stoodBy || now.phase == Waiting))
  {
    hide Own, VisitsOk;
    var out: Outcome := *;
    acquired, err := out == Ok && KeyFree(server.s), out.Errs();
    step := Acquire(i, out);
    server.Do(Acquire(i, out));
  }

  /** The commands of a renewal: the Get, and the Expire exactly after a Get that found the instance's own id. */
  ghost predicate RenewTrace(i: nat, owned: bool, err: bool, trace: seq<Step>)
  {
    && trace != [] && trace[0].RenewGet? && trace[0].i == i
    && if trace[0].out.Errs() || !owned then |trace| == 1 && err
       else |trace| == 2 && trace[1].RenewExpire? && trace[1].i == i && err == trace[1].out.Errs()
  }

  /** renewLock: no error only if the Get found the instance's own id; then the instance stays in the loop. */
  method RenewLock(server: Server, i: nat) returns (err: bool, ghost trace: seq<Step>)
    requires server.Valid() && InPhase(server.s, i, Reconciling)
    modifies server`s, server`steps
    ensures server.Valid() && InPhase(server.s, i, if err then Stopped else Reconciling)
    ensures Own(server.steps, i) == Own(old(server.steps), i) + trace
    ensures RenewTrace(i, OwnsKey(old(server.s), i), err, trace)
    ensures server.s.instances[i].stoodBy == old(server.s.instances[i]).stoodBy
    // A Get leaves the key alone. An Expire, the last command on the server then, restarts the TTL of a live key and
    // keeps its owner, whoever that is, and does nothing without one.
    ensures |trace| == 1 ==> server.s.key == old(server.s).key
    ensures |trace| == 2 ==>
              var n := |server.steps| - 1; var before := StateAt(server.ttl, server.a, server.steps, n);
              && 0 <= n && server.steps[n] == trace[1] && before.Some?
              && var key, now := before.value.key, before.value.now;
              server.s.key == if trace[1].out != NotApplied && key.Held? && now < key.expires
                              then Held(key.owner, now + server.ttl) else key
  {
    hide Own, VisitsOk;
    var out: Outcome := *;
    var current := OwnsKey(server.s, i);
    trace := [RenewGet(i, out)];
    server.Do(RenewGet(i, out));
    if out.Errs() || !current {
      return true, trace;
    }
    server.Interfere(i);
    ghost var before := server.steps;
    out := *;
    trace := trace + [RenewExpire(i, out)];
    server.Do(RenewExpire(i, out));
    assert server.steps[..|server.steps| - 1] == before;
    err := out.Errs();
  }

  /** The commands of a release: the Get, and the Del exactly after a Get that found the instance's own id. */
  ghost predicate ReleaseTrace(i: nat, owned: bool, trace: seq<Step>)
  {
    && trace != [] && trace[0].ReleaseGet? && trace[0].i == i
    && if trace[0].out.Errs() || !owned then |trace| == 1
       else |trace| == 2 && trace[1].ReleaseDel? && trace[1].i == i
  }

  /** releaseLock: the key is deleted only after a Get that found the instance's own id. An applied Del, the last
      command on the server then, leaves no key; under the timing assumption the key was its own even then. */
  method ReleaseLock(server: Server, i: nat) returns (ghost trace: seq<Step>)
    requires server.Valid() && InPhase(server.s, i, Releasing)
    modifies server`s, server`steps
    ensures server.Valid() && InPhase(server.s, i, Stopped)
    ensures Own(server.steps, i) == Own(old(server.steps), i) + trace
    ensures ReleaseTrace(i, OwnsKey(old(server.s), i), trace)
    ensures server.s.instances[i].stoodBy == old(server.s.instances[i]).stoodBy
    ensures |trace| == 1 ==> server.s.key == old(server.s).key
    ensures |trace| == 2 ==>
              var n := |server.steps| - 1; var before := StateAt(server.ttl, server.a, server.steps, n);
              && 0 <= n && server.steps[n] == trace[1] && before.Some?
              && server.s.key == (if trace[1].out == NotApplied then before.value.key else Free)
              && (server.a.HoldersOnTime() ==> OwnsKey(before.value, i))
  {
    hide Own, VisitsOk;
    var out: Outcome := *;
    var current := OwnsKey(server.s, i);
    trace := [ReleaseGet(i, out)];
    server.Do(ReleaseGet(i, out));
    if out.Errs() || !current {
      return;
    }
    server.Interfere(i);
    if server.a.HoldersOnTime() {
      RunKeepsLock(server.ttl, server.a, server.steps);
      assert Holds(server.s, i) && HolderOwns(server.ttl, server.s, i);
    }
    ghost var before := server.steps;
    out := *;
    trace := trace + [ReleaseDel(i, out)];
    server.Do(ReleaseDel(i, out));
    assert server.steps[..|server.steps| - 1] == before;
  }

  // ---- The loops ----

  /** What a select statement sees. The loop of waitForLock has one ticker, so there either tick will do. */
  datatype Event = CancelEvent | RenewTick | ReconcileTick

  function Ticks(events: seq<Event>): nat
  {
    if events == [] then 0
    else Ticks(events[..|events| - 1]) + if events[|events| - 1] == ReconcileTick then 1 else 0
  }

  datatype LoopEnd = Running | Cancelled | LostLock

  /** How many events the loop took, and why it took no more. */
  ghost predicate LoopOk(s: State, i: nat, events: seq<Event>, end: LoopEnd, used: nat)
  {
    && used <= |events|
    && (forall k :: 0 <= k < used && events[k] == CancelEvent ==> k == used - 1 && end == Cancelled)
    && match end
       case Running => used == |events| && InPhase(s, i, Reconciling)
       case Cancelled => 0 < used && events[used - 1] == CancelEvent && InPhase(s, i, Stopped)
       case LostLock => 0 < used && events[used - 1] == RenewTick && InPhase(s, i, Stopped)
  }

  ghost predicate NoCrash(i: nat, trace: seq<Step>)
  {
    Crash(i) !in trace && Launch(i) !in trace
  }

  /** Renewals begun and acquisitions tried. */
  function Gets(trace: seq<Step>): nat
  {
    if trace == [] then 0 else Gets(trace[..|trace| - 1]) + if trace[|trace| - 1].RenewGet? then 1 else 0
  }

  function Tries(trace: seq<Step>): nat
  {
    if trace == [] then 0 else Tries(trace[..|trace| - 1]) + if trace[|trace| - 1].Acquire? then 1 else 0
  }

  lemma {:induction false} CountsAdd(trace: seq<Step>, more: seq<Step>)
    ensures Gets(trace + more) == Gets(trace) + Gets(more) && Tries(trace + more) == Tries(trace) + Tries(more)
  {
    if more == [] {
      assert trace + more == trace;
    } else {
      var n := |more| - 1;
      assert (trace + more)[..|trace| + n] == trace + more[..n];
      CountsAdd(trace, more[..n]);
    }
  }

  /** From the first commands to the second, the instance issued its own without a crash: this many renewals, and
      acquisitions tried within these bounds. */
  ghost predicate Issued(first: seq<Step>, second: seq<Step>, i: nat, gets: nat, least: nat, most: nat)
  {
    exists trace: seq<Step> :: IssuedAs(first, second, i, gets, least, most, trace)
  }

  ghost predicate IssuedAs(first: seq<Step>, second: seq<Step>, i: nat, gets: nat, least: nat, most: nat,
                           trace: seq<Step>)
  {
    && Own(second, i) == Own(first, i) + trace && NoCrash(i, trace)
    && Gets(trace) == gets && least <= Tries(trace) <= most
  }

  lemma IssuedMore(first: seq<Step>, second: seq<Step>, third: seq<Step>, i: nat, gets: nat, least: nat, most: nat,
                   more: seq<Step>)
    requires Issued(first, second, i, gets, least, most)
    requires Own(third, i) == Own(second, i) + more && NoCrash(i, more)
    ensures Issued(first, third, i, gets + Gets(more), least + Tries(more), most + Tries(more))
  {
    hide IssuedAs, Own, Gets, Tries, NoCrash;
    var trace: seq<Step> :| IssuedAs(first, second, i, gets, least, most, trace);
    IssuedOn(first, second, third, i, gets, least, most, trace, more);
    assert IssuedAs(first, third, i, gets + Gets(more), least + Tries(more), most + Tries(more), trace + more);
  }

  lemma IssuedOn(first: seq<Step>, second: seq<Step>, third: seq<Step>, i: nat, gets: nat, least: nat, most: nat,
                 trace: seq<Step>, more: seq<Step>)
    requires IssuedAs(first, second, i, gets, least, most, trace)
    requires Own(third, i) == Own(second, i) + more && NoCrash(i, more)
    ensures IssuedAs(first, third, i, gets + Gets(more), least + Tries(more), most + Tries(more), trace + more)
  {
    hide Own, Gets, Tries;
    CountsAdd(trace, more);
    assert Own(third, i) == Own(first, i) + (trace + more);
  }

  lemma IssuedNone(steps: seq<Step>, i: nat)
    ensures Issued(steps, steps, i, 0, 0, 0)
  {
    assert IssuedAs(steps, steps, i, 0, 0, 0, []);
  }

  lemma IssuedWithin(first: seq<Step>, second: seq<Step>, i: nat, gets: nat, least: nat, most: nat, least': nat,
                     most': nat)
    requires Issued(first, second, i, gets, least, most) && least' <= least && most <= most'
    ensures Issued(first, second, i, gets, least', most')
  {
    var trace: seq<Step> :| IssuedAs(first, second, i, gets, least, most, trace);
    assert IssuedAs(first, second, i, gets, least', most', trace);
  }

  function RenewTicks(events: seq<Event>): nat
  {
    if events == [] then 0
    else RenewTicks(events[..|events| - 1]) + if events[|events| - 1] == RenewTick then 1 else 0
  }

  lemma RenewCounts(i: nat, owned: bool, err: bool, trace: seq<Step>)
    requires RenewTrace(i, owned, err, trace)
    ensures NoCrash(i, trace) && Gets(trace) == 1 && Tries(trace) == 0
  {
    if |trace| == 1 {
      assert trace == [trace[0]];
    } else {
      assert trace == [trace[0]] + [trace[1]];
      CountsAdd([trace[0]], [trace[1]]);
    }
  }

  lemma ReleaseCounts(i: nat, owned: bool, trace: seq<Step>)
    requires ReleaseTrace(i, owned, trace)
    ensures var all := [Cancel(i)] + trace; NoCrash(i, all) && Gets(all) == 0 && Tries(all) == 0
  {
    CountsAdd([Cancel(i)], trace);
    if |trace| == 1 {
      assert trace == [trace[0]];
    } else {
      assert trace == [trace[0]] + [trace[1]];
      CountsAdd([trace[0]], [trace[1]]);
    }
  }

  /** The visits are the instance's, one at once and one for each reconcile tick taken. */
  ghost predicate VisitsFor(before: seq<Visit>, after: seq<Visit>, i: nat, n: nat)
  {
    && |after| == |before| + n && before <= after
    && forall k :: |before| <= k < |after| ==> after[k].i == i
  }

  /** The loop of Start: it reconciles at once and at every reconcile tick it takes, until the cancellation or until a
      renewal fails. */
  method ReconcileLoop(server: Server, i: nat, events: seq<Event>) returns (end: LoopEnd, used: nat)
    requires server.Valid() && InPhase(server.s, i, Reconciling)
    modifies server
    ensures server.Valid() && LoopOk(server.s, i, events, end, used)
    ensures used <= |events| && VisitsFor(old(server.reconciled), server.reconciled, i, 1 + Ticks(events[..used]))
    ensures Issued(old(server.steps), server.steps, i, RenewTicks(events[..used]), 0, 0)
    ensures i in server.s.instances
    ensures server.s.instances[i].stoodBy == old(server.s.instances[i]).stoodBy
  {
    hide Own, VisitsOk, Exec, StateAt;
    IssuedNone(server.steps, i);
    server.Reconcile(i);
    end, used := Running, 0;
    while used < |events|
      invariant used <= |events| && end == Running
      invariant server.Valid() && InPhase(server.s, i, Reconciling)
      invariant server.s.instances[i].stoodBy == old(server.s.instances[i]).stoodBy
      invariant forall k :: 0 <= k < used ==> events[k] != CancelEvent
      invariant VisitsFor(old(server.reconciled), server.reconciled, i, 1 + Ticks(events[..used]))
      invariant Issued(old(server.steps), server.steps, i, RenewTicks(events[..used]), 0, 0)
    {
      hide Issued, RenewTrace;
      ghost var before, gets := server.steps, RenewTicks(events[..used]);
      server.Interfere(i);
      assert events[..used + 1][..used] == events[..used];
      used := used + 1;
      match events[used - 1] {
        case CancelEvent =>
          ghost var trace := CancelLoop(server, i);
          IssuedMore(old(server.steps), before, server.steps, i, gets, 0, 0, trace);
          end := Cancelled;
          return;
        case RenewTick =>
          ghost var owned := OwnsKey(server.s, i);
          var err, trace := RenewLock(server, i);
          RenewCounts(i, owned, err, trace);
          IssuedMore(old(server.steps), before, server.steps, i, gets, 0, 0, trace);
          if err {
            end := LostLock;
            return;
          }
        case ReconcileTick =>
          IssuedMore(old(server.steps), before, server.steps, i, gets, 0, 0, []);
          server.Reconcile(i);
      }
    }
  }

  /** The cancellation seen by the loop: the lock is released. */
  method CancelLoop(server: Server, i: nat) returns (ghost trace: seq<Step>)
    requires server.Valid() && InPhase(server.s, i, Reconciling)
    modifies server`s, server`steps
    ensures server.Valid() && InPhase(server.s, i, Stopped)
    ensures Own(server.steps, i) == Own(old(server.steps), i) + trace && NoCrash(i, trace)
    ensures Gets(trace) == 0 && Tries(trace) == 0
    ensures server.s.instances[i].stoodBy == old(server.s.instances[i]).stoodBy
  {
    hide Own, VisitsOk;
    server.Do(Cancel(i));
    ghost var owned := OwnsKey(server.s, i);
    ghost var rest := ReleaseLock(server, i);
    ReleaseCounts(i, owned, rest);
    trace := [Cancel(i)] + rest;
  }

  datatype StartEnd = AcquireFailed | Waits | WaitCancelled | InTheLoop(end: LoopEnd)

  /** How Start ended: with an erring SETNX, still waiting or cancelled there, or through the loop, which took `used` of
      the events after the `from` that waitForLock had taken, none if the instance never stood by. */
  ghost predicate StartOk(s: State, i: nat, events: seq<Event>, end: StartEnd, last: seq<Step>, from: nat, used: nat,
                          visits: nat)
  {
    match end
    case AcquireFailed =>
      InPhase(s, i, Stopped) && visits == 0 && last != [] && last[|last| - 1].Acquire? && last[|last| - 1].out.Errs()
    case Waits => InPhase(s, i, Waiting) && visits == 0 && from == |events| && CancelEvent !in events
    case WaitCancelled =>
      && InPhase(s, i, Stopped) && visits == 0
      && 0 < from <= |events| && events[from - 1] == CancelEvent && CancelEvent !in events[..from - 1]
    case InTheLoop(e) =>
      && from <= |events| && LoopOk(s, i, events[from..], e, used) && visits == 1 + Ticks(events[from..][..used])
      && i in s.instances && (!s.instances[i].stoodBy ==> from == 0)
  }

  /** The ticks that waitForLock took. */
  function Waited(end: StartEnd, from: nat): nat
  {
    if end == WaitCancelled && 0 < from then from - 1 else from
  }

  /** The renewals the loop began, one for each renew tick it took. */
  function Renewed(events: seq<Event>, end: StartEnd, from: nat, used: nat): nat
  {
    if end.InTheLoop? && from <= |events| && used <= |events| - from then RenewTicks(events[from..][..used]) else 0
  }

  /** Start: acquire or stand by. It issues no crash; its reconciles are on record, and under the timing assumption made
      alone. Entered from waitForLock it finds the key the instance itself just took, so under both timing assumptions
      it never reconciles. */
  method Start(server: Server, i: nat, events: seq<Event>)
    returns (end: StartEnd, from: nat, used: nat, ghost visits: nat)
    requires server.Valid() && (InPhase(server.s, i, Starting) || InPhase(server.s, i, Reentering))
    modifies server
    ensures server.Valid()
    ensures Issued(old(server.steps), server.steps, i, Renewed(events, end, from, used), 1 + Waited(end, from),
                   1 + 2 * Waited(end, from))
    ensures StartOk(server.s, i, events, end, Own(server.steps, i), from, used, visits)
    ensures VisitsFor(old(server.reconciled), server.reconciled, i, visits)
    ensures server.a.HoldersOnTime() ==> AllAlone(server.ttl, server.a, server.steps, server.reconciled)
    ensures server.a.TimelyAndPrompt? && old(server.s.instances[i]).stoodBy ==> visits == 0
    ensures i in server.s.instances && (old(server.s.instances[i]).stoodBy ==> server.s.instances[i].stoodBy)
    decreases |events|, 1
  {
    hide Own, VisitsOk, AllAlone, Exec, StateAt;
    ghost var standby := server.s.instances[i].stoodBy;
    IssuedNone(server.steps, i);
    hide Issued;
    server.Interfere(i);
    var acquired, err, step := AcquireLock(server, i);
    ghost var steps := server.steps;
    IssuedMore(old(server.steps), old(server.steps), steps, i, 0, 0, 0, [step]);
    if err {
      AllVisitsAlone(server);
      return AcquireFailed, 0, 0, 0;
    }
    if !acquired {
      end, from, used, visits := WaitForLock(server, i, events);
      IssuedTwice(old(server.steps), steps, server.steps, i, 0, 1, 1, Renewed(events, end, from, used),
                  Waited(end, from), 2 * Waited(end, from));
      return;
    }
    if server.a.TimelyAndPrompt? && standby {
      StandbyNeverReconciles(server.ttl, server.steps, i);
    }
    var e;
    e, used := ReconcileLoop(server, i, events);
    end, from, visits := InTheLoop(e), 0, 1 + Ticks(events[..used]);
    assert events[0..] == events;
    IssuedTwice(old(server.steps), steps, server.steps, i, 0, 1, 1, RenewTicks(events[..used]), 0, 0);
    AllVisitsAlone(server);
  }

  lemma AllVisitsAlone(server: Server)
    requires server.Valid()
    ensures server.a.HoldersOnTime() ==> AllAlone(server.ttl, server.a, server.steps, server.reconciled)
  {
    if server.a.HoldersOnTime() {
      VisitsAlone(server.ttl, server.a, server.steps, server.reconciled);
    }
  }

  lemma IssuedTwice(first: seq<Step>, second: seq<Step>, third: seq<Step>, i: nat, gets: nat, least: nat, most: nat,
                    gets': nat, least': nat, most': nat)
    requires Issued(first, second, i, gets, least, most) && Issued(second, third, i, gets', least', most')
    ensures Issued(first, third, i, gets + gets', least + least', most + most')
  {
    var more: seq<Step> :| IssuedAs(second, third, i, gets', least', most', more);
    IssuedMore(first, second, third, i, gets, least, most, more);
    IssuedWithin(first, third, i, gets + gets', least + Tries(more), most + Tries(more), least + least', most + most');
  }

  /** waitForLock: one attempt per tick until the cancellation or an acquisition, which re-enters Start and tries once
      more there. */
  method WaitForLock(server: Server, i: nat, events: seq<Event>)
    returns (end: StartEnd, from: nat, used: nat, ghost visits: nat)
    requires server.Valid() && InPhase(server.s, i, Waiting) && server.s.instances[i].stoodBy
    modifies server
    ensures server.Valid()
    ensures Issued(old(server.steps), server.steps, i, Renewed(events, end, from, used), Waited(end, from),
                   2 * Waited(end, from))
    ensures StartOk(server.s, i, events, end, Own(server.steps, i), from, used, visits)
    ensures VisitsFor(old(server.reconciled), server.reconciled, i, visits)
    ensures server.a.HoldersOnTime() ==> AllAlone(server.ttl, server.a, server.steps, server.reconciled)
    ensures server.a.TimelyAndPrompt? ==> visits == 0
    ensures i in server.s.instances && server.s.instances[i].stoodBy
    decreases |events|, 0
  {
    hide Own, VisitsOk, AllAlone, Exec, StateAt;
    IssuedNone(server.steps, i);
    var n := 0;
    while n < |events|
      invariant n <= |events| && CancelEvent !in events[..n]
      invariant server.Valid() && InPhase(server.s, i, Waiting) && server.s.instances[i].stoodBy
      invariant server.reconciled == old(server.reconciled) && Issued(old(server.steps), server.steps, i, 0, n, n)
    {
      hide Issued;
      ghost var before := server.steps;
      server.Interfere(i);
      if events[n] == CancelEvent {
        server.Do(Cancel(i));
        IssuedMore(old(server.steps), before, server.steps, i, 0, n, n, [Cancel(i)]);
        IssuedWithin(old(server.steps), server.steps, i, 0, n, n, n, 2 * n);
        AllVisitsAlone(server);
        return WaitCancelled, n + 1, 0, 0;
      }
      var acquired, err, step := AcquireLock(server, i);
      ghost var steps := server.steps;
      IssuedMore(old(server.steps), before, steps, i, 0, n, n, [step]);
      assert events[..n + 1] == events[..n] + [events[n]];
      n := n + 1;
      if acquired {
        end, from, used, visits := Start(server, i, events[n..]);
        IssuedTwice(old(server.steps), steps, server.steps, i, 0, n, n, Renewed(events[n..], end, from, used),
                    1 + Waited(end, from), 1 + 2 * Waited(end, from));
        EventsSplit(events, n, end, from, used);
        IssuedWithin(old(server.steps), server.steps, i, Renewed(events[n..], end, from, used),
                     n + (1 + Waited(end, from)), n + (1 + 2 * Waited(end, from)), Waited(end, n + from),
                     2 * Waited(end, n + from));
        from := n + from;
        return;
      }
    }
    assert events[..n] == events;
    IssuedWithin(old(server.steps), server.steps, i, 0, n, n, n, 2 * n);
    AllVisitsAlone(server);
    return Waits, n, 0, 0;
  }

  /** What Start did with the events after the first n. */
  lemma EventsSplit(events: seq<Event>, n: nat, end: StartEnd, from: nat, used: nat)
    requires 0 < n <= |events| && CancelEvent !in events[..n]
    ensures CancelEvent in events[n..] <==> CancelEvent in events
    ensures from <= |events| - n ==>
              && events[n..][from..] == events[n + from..] && events[n..][..from] == events[n..n + from]
              && Renewed(events[n..], end, from, used) == Renewed(events, end, n + from, used)
    ensures 0 < from <= |events| - n && CancelEvent !in events[n..][..from - 1] ==>
              events[n..][from - 1] == events[n + from - 1] && CancelEvent !in events[..n + from - 1]
  {
    assert events == events[..n] + events[n..];
    if from <= |events| - n {
      assert events[n..][from..] == events[n + from..];
    }
    if 0 < from <= |events| - n {
      assert events[..n + from - 1] == events[..n] + events[n..][..from - 1];
    }
  }
}
