/** The history of a run says what its steps did, no more and no less. */
module Annals {
  import opened Options
  import opened Queue
  import opened Delivery
  import opened Timeline
  import Ledger

  /** What the theorems about runs read in a history. */
  datatype Fact =
    | Accepted(job: JobId, event: LogEvent)
    | Claimed(a: Attempt)
    | Won(a: Attempt)
    | Failed(a: Attempt, err: string)
    | Copied(a: Attempt)
    | Sent(a: Attempt)
    | Dropped(a: Attempt)
    | Abandoned(a: Attempt)
    | Requeued(d: nat)
    | Stranded(d: nat)
    | Erased(d: nat)

  ghost predicate Records(h: History, f: Fact)
  {
    match f
    case Accepted(job, event) => job in h.accepted && h.accepted[job] == event
    case Claimed(a) => a in h.claimed
    case Won(a) => a in h.won
    case Failed(a, err) => Failure(a, err) in h.failed
    case Copied(a) => a in h.copied
    case Sent(a) => a in h.sent
    case Dropped(a) => a in h.dropped
    case Abandoned(a) => a in h.abandoned
    case Requeued(d) => d in h.requeued
    case Stranded(d) => d in h.stranded
    case Erased(d) => d in h.erased
  }

  /** Goroutine t works on attempt a. */
  ghost predicate WorksOn(s: State, t: nat, a: Attempt)
  {
    t in s.tasks && a == Attempt(s.tasks[t].env.job, s.tasks[t].env.retryCount)
  }

  ghost predicate RequeuesLetter(s: State, o: nat, out: Outcome, d: nat)
  {
    o in s.operators && s.operators[o].d == d && out != NotApplied
  }

  /** The step, taken in this state, is such an event. */
  ghost predicate Does(s: State, step: Step, f: Fact)
  {
    match f
    case Accepted(job, event) => step.Enqueue? && step.job == job && step.event == event && step.out != NotApplied
    case Claimed(a) =>
      step.Check? && WorksOn(s, step.t, a) && step.out != NotApplied && (a in s.keys ==> s.keys[a] <= s.now)
    case Won(a) => step.Return? && WorksOn(s, step.t, a) && step.result == Success
    case Failed(a, err) =>
      || (step.Return? && WorksOn(s, step.t, a) && step.result == Error(err))
      || (step.Check? && WorksOn(s, step.t, a) && step.out != Ok && step.err == err)
    case Copied(a) => step.Copy? && WorksOn(s, step.t, a) && step.out != NotApplied
    case Sent(a) => step.Bury? && WorksOn(s, step.t, a) && step.out != NotApplied
    case Dropped(a) =>
      (step.Drop? && WorksOn(s, step.t, a)) || (step.Bury? && WorksOn(s, step.t, a) && step.out == NotApplied)
    case Abandoned(a) =>
      || (step.Copy? && WorksOn(s, step.t, a) && step.out == NotApplied)
      || (step.Crash? && WorksOn(s, step.t, a) && !s.tasks[step.t].pc.Checking? && !s.tasks[step.t].pc.Settling?)
    case Requeued(d) => step.Resend? && RequeuesLetter(s, step.o, step.out, d)
    case Stranded(d) => step.Strand? && RequeuesLetter(s, step.o, step.out, d)
    case Erased(d) => step.Erase? && step.d == d && step.out != NotApplied
  }

  /** One step adds to the history what it did. */
  ghost predicate Adds(s: State, step: Step, s': State, f: Fact)
  {
    Records(s'.h, f) <==> Records(s.h, f) || Does(s, step, f)
  }

  lemma CheckAdds(c: Config, s: State, step: Step, f: Fact)
    requires c.Valid() && Enabled(c, s, step) && step.Check?
    ensures Adds(s, step, Apply(c, s, step), f)
  {
  }

  lemma CallAdds(c: Config, s: State, step: Step, f: Fact)
    requires c.Valid() && Enabled(c, s, step) && (step.Invoke? || step.Return? || step.Ack? || step.Crash?)
    ensures Adds(s, step, Apply(c, s, step), f)
  {
  }

  lemma CopyAdds(c: Config, s: State, step: Step, f: Fact)
    requires c.Valid() && Enabled(c, s, step) && step.Copy?
    ensures Adds(s, step, Apply(c, s, step), f)
  {
  }

  lemma BuryAdds(c: Config, s: State, step: Step, f: Fact)
    requires c.Valid() && Enabled(c, s, step) && (step.Bury? || step.Drop?)
    ensures Adds(s, step, Apply(c, s, step), f)
  {
  }

  lemma EnqueueAdds(c: Config, s: State, step: Step, f: Fact)
    requires c.Valid() && Enabled(c, s, step) && step.Enqueue?
    ensures Adds(s, step, Apply(c, s, step), f)
  {
  }

  lemma OperatorAdds(c: Config, s: State, step: Step, f: Fact)
    requires c.Valid() && Enabled(c, s, step) && (step.Resend? || step.Strand? || step.Erase?)
    ensures Adds(s, step, Apply(c, s, step), f)
  {
  }

  predicate Noted(step: Step)
  {
    step.Check? || step.Invoke? || step.Return? || step.Ack? || step.Crash? || step.Copy? || step.Bury? || step.Drop?
    || step.Enqueue? || step.Resend? || step.Strand? || step.Erase?
  }

  lemma OthersAddNothing(c: Config, s: State, step: Step)
    requires c.Valid() && Enabled(c, s, step) && !Noted(step)
    ensures Apply(c, s, step).h == s.h
  {
  }

  lemma StepAdds(c: Config, s: State, step: Step, f: Fact)
    requires c.Valid() && Enabled(c, s, step)
    ensures Adds(s, step, Apply(c, s, step), f)
  {
    hide Apply, Enabled, Records, Does;
    if step.Check? {
      CheckAdds(c, s, step, f);
    } else if step.Invoke? || step.Return? || step.Ack? || step.Crash? {
      CallAdds(c, s, step, f);
    } else if step.Copy? {
      CopyAdds(c, s, step, f);
    } else if step.Bury? || step.Drop? {
      BuryAdds(c, s, step, f);
    } else if step.Enqueue? {
      EnqueueAdds(c, s, step, f);
    } else if Noted(step) {
      OperatorAdds(c, s, step, f);
    } else {
      OthersAddNothing(c, s, step);
      NothingDone(s, step, f);
    }
  }

  lemma NothingDone(s: State, step: Step, f: Fact)
    requires !Noted(step)
    ensures !Does(s, step, f)
  {
  }

  ghost predicate DoneAt(c: Config, steps: seq<Step>, k: nat, f: Fact)
    requires c.Valid() && Runs(c, steps)
  {
    k < |steps| && Does(StateAt(c, steps, k), steps[k], f)
  }

  /** The history has a fact exactly if some step of the run made it one. */
  lemma {:induction false} HistoryExact(c: Config, steps: seq<Step>, n: nat, f: Fact)
    requires c.Valid() && Runs(c, steps) && n <= |steps|
    ensures Records(StateAt(c, steps, n).h, f) <==> exists k: nat :: k < n && DoneAt(c, steps, k, f)
    decreases n
  {
    if n == 0 {
      Ledger.StreamsAt(c, steps, 0);
    } else {
      HistoryExact(c, steps, n - 1, f);
      OneStep(c, steps, n - 1);
      StepAdds(c, StateAt(c, steps, n - 1), steps[n - 1], f);
      hide Exec, Runs, Apply, Enabled, Records, Does;
      if Does(StateAt(c, steps, n - 1), steps[n - 1], f) {
        assert DoneAt(c, steps, n - 1, f);
      }
    }
  }

  // ---- Calls, successes and duplicates, in order ----

  /** The attempt of the goroutine whose step it is. */
  ghost function AttemptAt(s: State, t: nat): seq<Attempt>
  {
    if t in s.tasks then [Attempt(s.tasks[t].env.job, s.tasks[t].env.retryCount)] else []
  }

  ghost function Calls(c: Config, steps: seq<Step>, n: nat): seq<Attempt>
    requires c.Valid() && Runs(c, steps) && n <= |steps|
  {
    if n == 0 then []
    else
      Calls(c, steps, n - 1)
      + match steps[n - 1] case Invoke(t) => AttemptAt(StateAt(c, steps, n - 1), t) case _ => []
  }

  ghost function Successes(c: Config, steps: seq<Step>, n: nat): seq<Attempt>
    requires c.Valid() && Runs(c, steps) && n <= |steps|
  {
    if n == 0 then []
    else
      Successes(c, steps, n - 1)
      + match steps[n - 1]
        case Return(t, result) => if result == Success then AttemptAt(StateAt(c, steps, n - 1), t) else []
        case _ => []
  }

  lemma CallSteps(c: Config, s: State, step: Step)
    requires c.Valid() && Enabled(c, s, step) && (step.Invoke? || step.Return? || step.Ack? || step.Crash?)
    ensures Apply(c, s, step).h.calls == s.h.calls + if step.Invoke? then AttemptAt(s, step.t) else []
    ensures Apply(c, s, step).h.wins
            == s.h.wins + if step.Return? && step.result == Success then AttemptAt(s, step.t) else []
  {
  }

  lemma OtherCalls(c: Config, s: State, step: Step)
    requires c.Valid() && Enabled(c, s, step) && Noted(step)
    requires !step.Invoke? && !step.Return? && !step.Ack? && !step.Crash?
    ensures Apply(c, s, step).h.calls == s.h.calls && Apply(c, s, step).h.wins == s.h.wins
  {
  }

  /** The calls and successes on record are the downstream calls entered and the successful returns, in order. */
  lemma {:induction false} CallsExact(c: Config, steps: seq<Step>, n: nat)
    requires c.Valid() && Runs(c, steps) && n <= |steps|
    ensures StateAt(c, steps, n).h.calls == Calls(c, steps, n) && StateAt(c, steps, n).h.wins == Successes(c, steps, n)
    decreases n
  {
    if n == 0 {
      Ledger.StreamsAt(c, steps, 0);
    } else {
      CallsExact(c, steps, n - 1);
      OneStep(c, steps, n - 1);
      var s, step := StateAt(c, steps, n - 1), steps[n - 1];
      hide Exec, Runs, Apply, Enabled;
      if step.Invoke? || step.Return? || step.Ack? || step.Crash? {
        CallSteps(c, s, step);
      } else if !Noted(step) {
        OthersAddNothing(c, s, step);
      } else {
        OtherCalls(c, s, step);
      }
    }
  }
}
