/** Which goroutines exist, what they hold and where they stand, read off the steps of a run. */
module Goroutines {
  import opened Options
  import opened Queue
  import opened Delivery
  import opened Timeline
  import Ledger

  /** The step starts goroutine t: it hands out an entry that decodes. */
  ghost predicate Starts(s: State, step: Step, t: nat)
  {
    && (step.Deliver? || step.Reclaim?) && step.t == t
    && exists id: nat :: StartsWith(s, step, id)
  }

  ghost predicate StartsWith(s: State, step: Step, id: nat)
  {
    && (step.Deliver? || step.Reclaim?) && Ledger.Hands(s, step, step.p, id)
    && id < |s.streams[step.p].log| && s.streams[step.p].log[id].Job?
  }

  /** The step is the goroutine's last: an acknowledgement, a copy that errs, or its death. */
  ghost predicate Ends(step: Step, t: nat)
  {
    match step
    case Ack(u, _) => u == t
    case Copy(u, out) => u == t && out != Ok
    case Crash(u) => u == t
    case _ => false
  }

  /** Where the goroutine stands after one of its other steps. */
  ghost function Reaches(c: Config, s: State, step: Step, t: nat): Option<Pc>
  {
    match step
    case Check(u, out, err) =>
      if u != t || t !in s.tasks then None
      else
        var env := s.tasks[t].env;
        var a := Attempt(env.job, env.retryCount);
        if out != Ok then Some(Failing(err))
        else if a in s.keys && s.now < s.keys[a] then Some(Settling)
        else Some(Calling)
    case Invoke(u) => if u == t then Some(Running) else None
    case Return(u, result) =>
      if u != t then None else Some(if result.Success? then Settling else Failing(result.err))
    case Copy(u, _) => if u == t then Some(Settling) else None
    case Bury(u, _, _) => if u == t then Some(Settling) else None
    case Drop(u) => if u == t then Some(Settling) else None
    case _ => None
  }

  /** The part of a task that never changes. */
  ghost predicate SameJob(k: Task, k': Task)
  {
    k'.worker == k.worker && k'.part == k.part && k'.id == k.id && k'.env == k.env
  }

  /** What a step does to goroutine t. */
  ghost predicate TaskMoves(c: Config, s: State, step: Step, s': State, t: nat)
  {
    if Starts(s, step, t) then
      && t in s'.tasks && s'.tasks[t].worker == step.worker && s'.tasks[t].part == step.p
      && StartsWith(s, step, s'.tasks[t].id) && Job(s'.tasks[t].env) == s.streams[step.p].log[s'.tasks[t].id]
      && s'.tasks[t].pc == if c.dedup then Checking else Calling
    else if Ends(step, t) then t !in s'.tasks
    else
      && (t in s'.tasks <==> t in s.tasks)
      && (t in s.tasks ==>
           && SameJob(s.tasks[t], s'.tasks[t])
           && s'.tasks[t].pc == match Reaches(c, s, step, t) case Some(pc) => pc case None => s.tasks[t].pc)
  }

  predicate Working(step: Step)
  {
    step.Invoke? || step.Return? || step.Copy? || step.Bury? || step.Drop? || step.Ack? || step.Crash?
  }

  lemma TakeMoves(c: Config, s: State, step: Step, t: nat)
    requires c.Valid() && Enabled(c, s, step) && (step.Deliver? || step.Reclaim?)
    ensures TaskMoves(c, s, step, Apply(c, s, step), t)
  {
    var id := if step.Deliver? then NextId(s.streams[step.p]) else step.id;
    assert Ledger.Hands(s, step, step.p, id);
    if s.streams[step.p].log[id].Job? {
      assert StartsWith(s, step, id);
    }
  }

  lemma CheckMoves(c: Config, s: State, step: Step, t: nat)
    requires c.Valid() && Enabled(c, s, step) && step.Check?
    ensures TaskMoves(c, s, step, Apply(c, s, step), t)
  {
  }

  lemma CallMoves(c: Config, s: State, step: Step, t: nat)
    requires c.Valid() && Enabled(c, s, step) && (step.Invoke? || step.Return?)
    ensures TaskMoves(c, s, step, Apply(c, s, step), t)
  {
  }

  lemma RetryMoves(c: Config, s: State, step: Step, t: nat)
    requires c.Valid() && Enabled(c, s, step) && (step.Copy? || step.Bury? || step.Drop?)
    ensures TaskMoves(c, s, step, Apply(c, s, step), t)
  {
  }

  lemma EndMoves(c: Config, s: State, step: Step, t: nat)
    requires c.Valid() && Enabled(c, s, step) && (step.Ack? || step.Crash?)
    ensures TaskMoves(c, s, step, Apply(c, s, step), t)
  {
  }

  lemma OthersSpareTasks(c: Config, s: State, step: Step)
    requires c.Valid() && Enabled(c, s, step) && !Working(step) && !step.Check? && !step.Deliver? && !step.Reclaim?
    ensures Apply(c, s, step).tasks == s.tasks
  {
  }

  lemma StepMoves(c: Config, s: State, step: Step, t: nat)
    requires c.Valid() && Enabled(c, s, step)
    ensures TaskMoves(c, s, step, Apply(c, s, step), t)
  {
    hide Apply, Enabled;
    if step.Deliver? || step.Reclaim? {
      TakeMoves(c, s, step, t);
    } else if step.Check? {
      CheckMoves(c, s, step, t);
    } else if step.Invoke? || step.Return? {
      CallMoves(c, s, step, t);
    } else if step.Copy? || step.Bury? || step.Drop? {
      RetryMoves(c, s, step, t);
    } else if step.Ack? || step.Crash? {
      EndMoves(c, s, step, t);
    } else {
      OthersSpareTasks(c, s, step);
    }
  }

  /** After the first n steps goroutine t is the one that step k started. */
  ghost predicate AliveSince(c: Config, steps: seq<Step>, n: nat, t: nat, k: nat)
    requires c.Valid() && Runs(c, steps) && n <= |steps|
  {
    && k < n && Starts(StateAt(c, steps, k), steps[k], t)
    && forall j :: k < j < n ==> !Starts(StateAt(c, steps, j), steps[j], t) && !Ends(steps[j], t)
  }

  /** Goroutine t holds the entry that step k handed to it. */
  ghost predicate Holds(c: Config, steps: seq<Step>, k: nat, task: Task)
    requires c.Valid() && Runs(c, steps) && k < |steps|
  {
    var s, step := StateAt(c, steps, k), steps[k];
    && StartsWith(s, step, task.id) && task.worker == step.worker && task.part == step.p
    && Job(task.env) == s.streams[task.part].log[task.id]
  }

  ghost predicate TaskKnown(c: Config, steps: seq<Step>, n: nat, t: nat)
    requires c.Valid() && Runs(c, steps) && n <= |steps|
  {
    var tasks := StateAt(c, steps, n).tasks;
    && (t in tasks <==> exists k: nat :: AliveSince(c, steps, n, t, k))
    && forall k: nat :: AliveSince(c, steps, n, t, k) ==> Holds(c, steps, k, tasks[t])
  }

  /** Step m is the last that moved goroutine t. */
  ghost predicate MovedAt(c: Config, steps: seq<Step>, n: nat, t: nat, m: nat)
    requires c.Valid() && Runs(c, steps) && n <= |steps|
  {
    && m < n && Moves(c, StateAt(c, steps, m), steps[m], t) && !Ends(steps[m], t)
    && forall j :: m < j < n ==> !Moves(c, StateAt(c, steps, j), steps[j], t) && !Ends(steps[j], t)
  }

  ghost predicate Moves(c: Config, s: State, step: Step, t: nat)
  {
    Starts(s, step, t) || Reaches(c, s, step, t).Some?
  }

  /** Where it takes the goroutine. */
  ghost function MovesTo(c: Config, s: State, step: Step, t: nat): Pc
    requires Moves(c, s, step, t)
  {
    match Reaches(c, s, step, t)
    case Some(pc) => pc
    case None => if c.dedup then Checking else Calling
  }

  ghost predicate PcKnown(c: Config, steps: seq<Step>, n: nat, t: nat)
    requires c.Valid() && Runs(c, steps) && n <= |steps|
  {
    var tasks := StateAt(c, steps, n).tasks;
    t in tasks ==>
      && (exists m: nat :: MovedAt(c, steps, n, t, m))
      && forall m: nat :: MovedAt(c, steps, n, t, m) ==> tasks[t].pc == MovesTo(c, StateAt(c, steps, m), steps[m], t)
  }

  lemma TaskStep(c: Config, steps: seq<Step>, m: nat, n: nat, t: nat)
    requires c.Valid() && Runs(c, steps) && m + 1 == n <= |steps| && TaskKnown(c, steps, m, t)
    requires TaskMoves(c, StateAt(c, steps, m), steps[m], StateAt(c, steps, n), t)
    ensures TaskKnown(c, steps, n, t)
  {
    hide Exec, Runs, StateAt, Starts, StartsWith, Ends, Reaches;
    if Starts(StateAt(c, steps, m), steps[m], t) {
      assert AliveSince(c, steps, n, t, m);
    } else {
      forall k: nat
        ensures AliveSince(c, steps, n, t, k) <==> AliveSince(c, steps, m, t, k) && !Ends(steps[m], t)
      {
      }
    }
  }

  lemma MoveMeans(c: Config, s: State, step: Step, s': State, t: nat)
    requires TaskMoves(c, s, step, s', t) && t in s'.tasks
    ensures !Ends(step, t)
    ensures if Moves(c, s, step, t) then s'.tasks[t].pc == MovesTo(c, s, step, t)
            else t in s.tasks && s'.tasks[t].pc == s.tasks[t].pc
  {
  }

  lemma PcStep(c: Config, steps: seq<Step>, m: nat, n: nat, t: nat)
    requires c.Valid() && Runs(c, steps) && m + 1 == n <= |steps| && PcKnown(c, steps, m, t)
    requires TaskMoves(c, StateAt(c, steps, m), steps[m], StateAt(c, steps, n), t)
    ensures PcKnown(c, steps, n, t)
  {
    hide Exec, Runs, StateAt;
    var s, step, s' := StateAt(c, steps, m), steps[m], StateAt(c, steps, n);
    if t in s'.tasks {
      MoveMeans(c, s, step, s', t);
      hide Moves, MovesTo, TaskMoves, Ends;
      if Moves(c, s, step, t) {
        assert MovedAt(c, steps, n, t, m);
      } else {
        forall k: nat ensures MovedAt(c, steps, n, t, k) <==> MovedAt(c, steps, m, t, k) {
        }
      }
    }
  }

  /** In every run a goroutine exists exactly if a read or a reclaim started it and no acknowledgement, erring copy or
      death ended it since; it holds the entry it was started with, as that was then, and stands where the last of its
      steps took it. */
  lemma {:induction false} GoroutineExact(c: Config, steps: seq<Step>, n: nat, t: nat)
    requires c.Valid() && Runs(c, steps) && n <= |steps|
    ensures TaskKnown(c, steps, n, t) && PcKnown(c, steps, n, t)
    decreases n
  {
    if n == 0 {
      Ledger.StreamsAt(c, steps, 0);
    } else {
      GoroutineExact(c, steps, n - 1, t);
      OneStep(c, steps, n - 1);
      StepMoves(c, StateAt(c, steps, n - 1), steps[n - 1], t);
      hide *;
      TaskStep(c, steps, n - 1, n, t);
      PcStep(c, steps, n - 1, n, t);
    }
  }
}
