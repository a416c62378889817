/**
 * The code that drives the protocol, step by step: each Redis command goes through a shared server, any
 * number of other clients run between two commands, and a goroutine may die there.
 */
module Cluster {
  import opened Options
  import opened Queue
  import opened Delivery
  import opened Invariant

  /** On whose behalf a command is issued. */
  datatype Owner = Goroutine(t: nat) | Requeuer(o: nat) | Producer(jobs: set<JobId>) | Nobody

  predicate StepOf(step: Step, owner: Owner)
  {
    match step
    case Enqueue(j, _, _, _) => owner.Producer? && j in owner.jobs
    case Check(t, _, _) => owner == Goroutine(t)
    case Invoke(t) => owner == Goroutine(t)
    case Return(t, _) => owner == Goroutine(t)
    case Copy(t, _) => owner == Goroutine(t)
    case Bury(t, _, _) => owner == Goroutine(t)
    case Drop(t) => owner == Goroutine(t)
    case Ack(t, _) => owner == Goroutine(t)
    case Crash(t) => owner == Goroutine(t)
    case Fetch(o, _) => owner == Requeuer(o)
    case Resend(o, _, _, _, _) => owner == Requeuer(o)
    case Remove(o, _) => owner == Requeuer(o)
    case Quit(o) => owner == Requeuer(o)
    case Strand(o, _, _, _) => owner == Requeuer(o)
    case _ => false
  }

  /** The commands issued on the owner's behalf, in order. */
  ghost function Mine(steps: seq<Step>, owner: Owner): seq<Step>
  {
    if steps == [] then []
    else
      var last := steps[|steps| - 1];
      Mine(steps[..|steps| - 1], owner) + if StepOf(last, owner) then [last] else []
  }

  /** What the owner holds in memory is its own. */
  ghost predicate Spared(s: State, s': State, owner: Owner)
  {
    match owner
    case Goroutine(t) => t in s.tasks ==> t in s'.tasks && s'.tasks[t] == s.tasks[t]
    case Requeuer(o) =>
      (o in s.operators <==> o in s'.operators) && (o in s.operators ==> s'.operators[o] == s.operators[o])
    case Producer(jobs) => forall j :: j in jobs && j in s'.h.accepted ==> j in s.h.accepted
    case Nobody => true
  }

  predicate TaskEnds(step: Step)
  {
    step.Copy? || step.Bury? || step.Drop? || step.Ack? || step.Crash?
  }

  lemma EndsSpareTask(c: Config, s: State, step: Step, t: nat)
    requires c.Valid() && Enabled(c, s, step) && !StepOf(step, Goroutine(t)) && t in s.tasks && TaskEnds(step)
    ensures t in Apply(c, s, step).tasks && Apply(c, s, step).tasks[t] == s.tasks[t]
  {
  }

  predicate TaskBegins(step: Step)
  {
    step.Deliver? || step.Reclaim?
  }

  predicate TaskWorks(step: Step)
  {
    step.Invoke? || step.Return?
  }

  lemma CheckSparesTask(c: Config, s: State, u: nat, out: Outcome, err: string, t: nat)
    requires u in s.tasks && t in s.tasks && u != t
    ensures var s' := DoCheck(c, s, u, out, err); t in s'.tasks && s'.tasks[t] == s.tasks[t]
  {
  }

  lemma WorksSpareTask(c: Config, s: State, step: Step, t: nat)
    requires c.Valid() && Enabled(c, s, step) && !StepOf(step, Goroutine(t)) && t in s.tasks && TaskWorks(step)
    ensures t in Apply(c, s, step).tasks && Apply(c, s, step).tasks[t] == s.tasks[t]
  {
  }

  lemma BeginsSpareTask(c: Config, s: State, step: Step, t: nat)
    requires c.Valid() && Enabled(c, s, step) && !StepOf(step, Goroutine(t)) && t in s.tasks && TaskBegins(step)
    ensures t in Apply(c, s, step).tasks && Apply(c, s, step).tasks[t] == s.tasks[t]
  {
  }

  lemma OthersSpareTasks(c: Config, s: State, step: Step)
    requires c.Valid() && Enabled(c, s, step) && !step.Check? && !TaskBegins(step) && !TaskWorks(step)
    requires !TaskEnds(step)
    ensures Apply(c, s, step).tasks == s.tasks
  {
  }

  predicate OperatorStep(step: Step)
  {
    step.Fetch? || step.Resend? || step.Remove? || step.Quit? || step.Strand?
  }

  lemma OperatorsSpareOperator(c: Config, s: State, step: Step, o: nat)
    requires c.Valid() && Enabled(c, s, step) && !StepOf(step, Requeuer(o)) && OperatorStep(step)
    ensures var s' := Apply(c, s, step);
            (o in s.operators <==> o in s'.operators) && (o in s.operators ==> s'.operators[o] == s.operators[o])
  {
  }

  lemma OthersSpareOperator(c: Config, s: State, step: Step, o: nat)
    requires c.Valid() && Enabled(c, s, step) && !OperatorStep(step)
    ensures var s' := Apply(c, s, step);
            (o in s.operators <==> o in s'.operators) && (o in s.operators ==> s'.operators[o] == s.operators[o])
  {
  }

  lemma OthersAccept(c: Config, s: State, step: Step)
    requires c.Valid() && Enabled(c, s, step)
    ensures forall j :: j in Apply(c, s, step).h.accepted ==> j in s.h.accepted || (step.Enqueue? && step.job == j)
  {
  }

  lemma OthersSpare(c: Config, s: State, step: Step, owner: Owner)
    requires c.Valid() && Enabled(c, s, step) && !StepOf(step, owner)
    ensures Spared(s, Apply(c, s, step), owner)
  {
    match owner
    case Goroutine(t) =>
      if t in s.tasks {
        if TaskEnds(step) {
          EndsSpareTask(c, s, step, t);
        } else if TaskBegins(step) {
          BeginsSpareTask(c, s, step, t);
        } else if step.Check? {
          CheckSparesTask(c, s, step.t, step.out, step.err, t);
        } else if TaskWorks(step) {
          WorksSpareTask(c, s, step, t);
        } else {
          OthersSpareTasks(c, s, step);
        }
      }
    case Requeuer(o) =>
      if OperatorStep(step) {
        OperatorsSpareOperator(c, s, step, o);
      } else {
        OthersSpareOperator(c, s, step, o);
      }
    case Producer(_) => OthersAccept(c, s, step);
    case Nobody =>
  }

  class Redis {
    const c: Config
    var s: State
    ghost var steps: seq<Step>

    /** The state is the one reached by the commands so far. */
    ghost predicate Valid()
      reads this
    {
      c.Valid() && Exec(c, Anything, steps) == Some(s)
    }

    constructor (c: Config)
      requires c.Valid()
      ensures Valid() && this.c == c && steps == []
    {
      this.c := c;
      s := Init(c);
      steps := [];
    }

    method Do(step: Step)
      requires Valid() && Enabled(c, s, step)
      modifies this
      ensures Valid() && s == Apply(c, old(s), step) && steps == old(steps) + [step] && Grows(old(s), s)
      ensures forall owner :: Mine(steps, owner) == Mine(old(steps), owner) + if StepOf(step, owner) then [step] else []
    {
      ExecExtends(c, Anything, steps, s, step);
      StepGrows(c, s, step) by { RunKeeps(c, Anything, steps); }
      s := Apply(c, s, step);
      steps := steps + [step];
      assert steps[..|steps| - 1] == old(steps);
    }

    /** SETNX of the deduplication key */
    method SetNx(t: nat, out: Outcome, err: string)
      requires Valid() && AtPc(s, t, Checking)
      modifies this
      ensures Valid() && s == DoCheck(c, old(s), t, out, err) && Grows(old(s), s)
      ensures Mine(steps, Goroutine(t)) == Mine(old(steps), Goroutine(t)) + [Check(t, out, err)]
    {
      Do(Check(t, out, err));
    }

    /** The downstream processor is entered */
    method Enter(t: nat)
      requires Valid() && AtPc(s, t, Calling)
      modifies this
      ensures Valid() && s == DoInvoke(old(s), t) && Grows(old(s), s)
      ensures Mine(steps, Goroutine(t)) == Mine(old(steps), Goroutine(t)) + [Invoke(t)]
    {
      Do(Invoke(t));
    }

    /** The downstream processor returns */
    method Leave(t: nat, result: Result)
      requires Valid() && AtPc(s, t, Running)
      modifies this
      ensures Valid() && s == DoReturn(old(s), t, result) && Grows(old(s), s)
      ensures Mine(steps, Goroutine(t)) == Mine(old(steps), Goroutine(t)) + [Return(t, result)]
    {
      Do(Return(t, result));
    }

    /** XADD of the retry copy */
    method AddCopy(t: nat, out: Outcome)
      requires Valid() && CanCopy(s, t)
      modifies this
      ensures Valid() && s == DoCopy(old(s), t, out) && Grows(old(s), s)
      ensures Mine(steps, Goroutine(t)) == Mine(old(steps), Goroutine(t)) + [Copy(t, out)]
    {
      Do(Copy(t, out));
    }

    /** DLQ.Send */
    method Send(t: nat, out: Outcome, cut: nat)
      requires Valid() && CanBury(c, s, t, cut)
      modifies this
      ensures Valid() && s == DoBury(old(s), t, out, cut) && Grows(old(s), s)
      ensures Mine(steps, Goroutine(t)) == Mine(old(steps), Goroutine(t)) + [Bury(t, out, cut)]
    {
      Do(Bury(t, out, cut));
    }

    /** Retry without a dead letter queue */
    method DropJob(t: nat)
      requires Valid() && CanDrop(c, s, t)
      modifies this
      ensures Valid() && s == DoDrop(old(s), t) && Grows(old(s), s)
      ensures Mine(steps, Goroutine(t)) == Mine(old(steps), Goroutine(t)) + [Drop(t)]
    {
      Do(Drop(t));
    }

    /** XACK */
    method XAck(t: nat, out: Outcome)
      requires Valid() && CanAck(s, t)
      modifies this
      ensures Valid() && s == DoAck(old(s), t, out) && Grows(old(s), s)
      ensures Mine(steps, Goroutine(t)) == Mine(old(steps), Goroutine(t)) + [Ack(t, out)]
    {
      Do(Ack(t, out));
    }

    /** The goroutine's process dies */
    method Die(t: nat)
      requires Valid() && t in s.tasks
      modifies this
      ensures Valid() && s == DoCrash(old(s), t) && Grows(old(s), s)
      ensures Mine(steps, Goroutine(t)) == Mine(old(steps), Goroutine(t)) + [Crash(t)]
    {
      Do(Crash(t));
    }

    /** XADD of a new job with the producer's trimming */
    method XAdd(job: JobId, event: LogEvent, out: Outcome, cut: nat)
      requires Valid() && CanEnqueue(c, s, job, event, cut)
      modifies this
      ensures Valid() && s == DoEnqueue(c, old(s), job, event, out, cut) && Grows(old(s), s)
      ensures steps == old(steps) + [Step.Enqueue(job, event, out, cut)]
      ensures forall jobs :: job in jobs ==>
                Mine(steps, Producer(jobs)) == Mine(old(steps), Producer(jobs)) + [Step.Enqueue(job, event, out, cut)]
    {
      Do(Step.Enqueue(job, event, out, cut));
    }

    /** XADD of a revived job */
    method Resend(o: nat, p: nat, maxLen: nat, out: Outcome, cut: nat)
      requires Valid() && CanResend(s, o, p, maxLen, cut)
      modifies this
      ensures Valid() && s == DoResend(old(s), o, p, out, cut) && Grows(old(s), s)
      ensures steps == old(steps) + [Step.Resend(o, p, maxLen, out, cut)]
      ensures Mine(steps, Requeuer(o)) == Mine(old(steps), Requeuer(o)) + [Step.Resend(o, p, maxLen, out, cut)]
    {
      Do(Step.Resend(o, p, maxLen, out, cut));
    }

    /** XADD of a revived job to a stream that is no partition's */
    method ResendOutside(o: nat, name: string, out: Outcome, cut: nat)
      requires Valid() && CanStrand(c, s, o, name, cut)
      modifies this
      ensures Valid() && s == DoStrand(old(s), o, name, out, cut) && Grows(old(s), s)
      ensures steps == old(steps) + [Step.Strand(o, name, out, cut)]
      ensures Mine(steps, Requeuer(o)) == Mine(old(steps), Requeuer(o)) + [Step.Strand(o, name, out, cut)]
    {
      Do(Step.Strand(o, name, out, cut));
    }

    /** The read of a requeue */
    method Read(o: nat, d: nat)
      requires Valid() && CanFetch(s, o, d)
      modifies this
      ensures Valid() && s == DoFetch(old(s), o, d) && Grows(old(s), s)
      ensures steps == old(steps) + [Step.Fetch(o, d)]
      ensures Mine(steps, Requeuer(o)) == Mine(old(steps), Requeuer(o)) + [Step.Fetch(o, d)]
    {
      Do(Step.Fetch(o, d));
    }

    /** The delete of a requeue */
    method Delete(o: nat, out: Outcome)
      requires Valid() && CanRemove(s, o)
      modifies this
      ensures Valid() && s == DoRemove(old(s), o, out) && Grows(old(s), s)
      ensures steps == old(steps) + [Step.Remove(o, out)]
      ensures Mine(steps, Requeuer(o)) == Mine(old(steps), Requeuer(o)) + [Step.Remove(o, out)]
    {
      Do(Step.Remove(o, out));
    }

    /** The requeueing process dies */
    method Quit(o: nat)
      requires Valid() && o in s.operators
      modifies this
      ensures Valid() && s == old(s).(operators := old(s).operators - {o}) && Grows(old(s), s)
      ensures steps == old(steps) + [Step.Quit(o)]
      ensures Mine(steps, Requeuer(o)) == Mine(old(steps), Requeuer(o)) + [Step.Quit(o)]
    {
      Do(Step.Quit(o));
    }

    /** Any number of commands by everyone but the owner. */
    method Interfere(owner: Owner)
      requires Valid()
      modifies this
      ensures Valid() && old(steps) <= steps && Grows(old(s), s)
      ensures Spared(old(s), s, owner) && Mine(steps, owner) == Mine(old(steps), owner)
    {
      var n: nat := *;
      while 0 < n
        invariant Valid() && old(steps) <= steps && Grows(old(s), s)
        invariant Spared(old(s), s, owner) && Mine(steps, owner) == Mine(old(steps), owner)
      {
        var step: Step := *;
        if Enabled(c, s, step) && !StepOf(step, owner) {
          OthersSpare(c, s, step, owner);
          ghost var before := s;
          Do(step);
          GrowsTransitive(old(s), before, s);
        }
        n := n - 1;
      }
    }
  }

  // ---- consumer.go ----

  /** The envelope a goroutine holds; Retry changes it in place. */
  class Cell {
    var env: Envelope

    constructor (env: Envelope)
      ensures this.env == env
    {
      this.env := env;
    }
  }

  datatype Ending = Acked | AckFailed | CopyFailed | Died

  ghost predicate Pending(s: State, k: Task)
  {
    PartOk(s, k.part) && k.id in s.streams[k.part].pel
  }

  /** Stream p was given this envelope. */
  ghost predicate Carried(s: State, p: nat, env: Envelope)
  {
    PartOk(s, p) && Job(env) in s.streams[p].log
  }

  lemma CarriedStays(s: State, s': State, p: nat, env: Envelope)
    requires Grows(s, s') && Carried(s, p, env)
    ensures Carried(s', p, env)
  {
    var i :| 0 <= i < |s.streams[p].log| && s.streams[p].log[i] == Job(env);
    assert s'.streams[p].log[i] == Job(env);
  }

  /** Consumer.Ack, the last command of a goroutine. */
  method Ack(redis: Redis, t: nat) returns (end: Ending, ghost out: Outcome)
    requires redis.Valid() && AtPc(redis.s, t, Settling)
    modifies redis
    ensures redis.Valid() && Grows(old(redis.s), redis.s) && t !in redis.s.tasks
    ensures Mine(redis.steps, Goroutine(t)) == Mine(old(redis.steps), Goroutine(t)) + [Step.Ack(t, out)]
    ensures end == if out.Errs() then AckFailed else Acked
    ensures end == Acked ==> !Pending(redis.s, old(redis.s.tasks[t]))
  {
    TaskKnown(redis.c, redis.steps, t);
    var o: Outcome := *;
    out := o;
    redis.XAck(t, o);
    end := if o.Errs() then AckFailed else Acked;
  }

  lemma TaskKnown(c: Config, steps: seq<Step>, t: nat)
    requires c.Valid() && Exec(c, Anything, steps).Some? && t in Exec(c, Anything, steps).value.tasks
    ensures var s := Exec(c, Anything, steps).value;
            TaskPartOk(s, t) && EntryOk(c, s.h, s.tasks[t].env) && s.dlq.base <= |s.dlq.log|
  {
    hide Inv;
    RunKeeps(c, Anything, steps);
    var s := Exec(c, Anything, steps).value;
    Facts(c, s, t);
    TaskEntry(c, s, t);
    DeadLetterFacts(c, s, 0);
  }

  /** A goroutine dies after `lifetime` commands of its own, the death being its last step; otherwise it has issued no
      more than that. */
  ghost predicate Lived(lifetime: nat, died: bool, trace: seq<Step>)
  {
    if died then |trace| == lifetime + 1 else |trace| <= lifetime
  }

  /** The commands Retry may issue, in order. */
  ghost predicate RetryTrace(c: Config, t: nat, env: Envelope, end: Ending, trace: seq<Step>)
  {
    match end
    case CopyFailed =>
      env.retryCount + 1 < env.maxRetries && exists out: Outcome :: out.Errs() && trace == [Copy(t, out)]
    case Died =>
      && 0 < |trace| <= 2 && trace[|trace| - 1] == Crash(t)
      && (|trace| == 2 ==> RetryWrite(c, t, env, trace[0]))
    case _ =>
      && |trace| == 2 && RetryWrite(c, t, env, trace[0])
      && trace[1].Ack? && trace[1].t == t && (end == Acked <==> trace[1].out == Ok)
  }

  /** Below the limit a copy that was confirmed; at the limit a dead letter whether or not it was. */
  ghost predicate RetryWrite(c: Config, t: nat, env: Envelope, step: Step)
  {
    if env.retryCount + 1 < env.maxRetries then step == Copy(t, Ok)
    else if c.hasDlq then step.Bury? && step.t == t
    else step == Drop(t)
  }

  /** What Retry's write leaves behind before the acknowledgement. */
  ghost predicate RetryWritten(s: State, k: Task, err: string)
  {
    var a := AttemptOf(k.env);
    if k.env.retryCount + 1 < k.env.maxRetries then
      a in s.h.copied && Carried(s, k.part, k.env.(retryCount := k.env.retryCount + 1, lastError := err))
    else a in s.h.sent || a in s.h.dropped
  }

  /** A trimming of the dead letter stream the server may choose. */
  method DlqTrim(c: Config, q: Dlq, others: nat) returns (cut: nat)
    requires q.base <= |q.log|
    ensures DlqCutAllowed(c, q, others, cut)
  {
    cut := *;
    if !DlqCutAllowed(c, q, others, cut) {
      cut := q.base;
    }
  }

  /** The write of Retry: re-enqueue with the incremented count, or dead-letter, or drop. */
  method RetryWriteOut(redis: Redis, t: nat, cell: Cell, err: string) returns (copyFailed: bool, ghost step: Step)
    requires redis.Valid() && AtPc(redis.s, t, Failing(err)) && cell.env == redis.s.tasks[t].env
    modifies redis, cell
    ensures cell.env == old(cell.env).(retryCount := old(cell.env).retryCount + 1, lastError := err)
    ensures redis.Valid() && Grows(old(redis.s), redis.s)
    ensures Mine(redis.steps, Goroutine(t)) == Mine(old(redis.steps), Goroutine(t)) + [step]
    ensures if copyFailed then
              t !in redis.s.tasks && !Exhausted(old(cell.env)) && step.Copy? && step.out.Errs() && step.t == t
            else RetryWrite(redis.c, t, old(cell.env), step)
                 && t in redis.s.tasks && redis.s.tasks[t] == old(redis.s.tasks[t]).(pc := Settling)
                 && RetryWritten(redis.s, old(redis.s.tasks[t]), err)
  {
    hide DlqCutAllowed, Grows, Mine;
    TaskKnown(redis.c, redis.steps, t);
    ghost var k := redis.s.tasks[t];
    copyFailed := false;
    cell.env := cell.env.(retryCount := cell.env.retryCount + 1, lastError := err);
    var out: Outcome := *;
    if cell.env.retryCount >= cell.env.maxRetries {
      if redis.c.hasDlq {
        var cut := DlqTrim(redis.c, redis.s.dlq, StraysIn(redis.s.strays, redis.c.dlqName));
        step := Bury(t, out, cut);
        redis.Send(t, out, cut);
      } else {
        step := Drop(t);
        redis.DropJob(t);
      }
    } else {
      step := Copy(t, out);
      redis.AddCopy(t, out);
      copyFailed := out.Errs();
      assert out == Ok ==> redis.s.streams[k.part].log[|old(redis.s).streams[k.part].log|] == Job(Bumped(k.env, err));
    }
  }

  /** Consumer.Retry: write, then acknowledge; a crash or other clients' commands may come in between. */
  method Retry(redis: Redis, t: nat, cell: Cell, err: string, lifetime: nat)
    returns (end: Ending, ghost trace: seq<Step>)
    requires redis.Valid() && AtPc(redis.s, t, Failing(err)) && cell.env == redis.s.tasks[t].env
    modifies redis, cell
    ensures redis.Valid() && Grows(old(redis.s), redis.s) && t !in redis.s.tasks
    ensures Mine(redis.steps, Goroutine(t)) == Mine(old(redis.steps), Goroutine(t)) + trace
    ensures RetryTrace(redis.c, t, old(cell.env), end, trace) && Lived(lifetime, end == Died, trace)
    ensures end != Died ==> cell.env == old(cell.env).(retryCount := old(cell.env).retryCount + 1, lastError := err)
    ensures end == Acked ==>
              !Pending(redis.s, old(redis.s.tasks[t])) && RetryWritten(redis.s, old(redis.s.tasks[t]), err)
  {
    hide Grows, RetryWritten, RetryWrite, Mine, Redis.Valid;
    ghost var k, s0 := redis.s.tasks[t], redis.s;
    if lifetime == 0 {
      redis.Die(t);
      return Died, [Crash(t)];
    }
    var copyFailed, step := RetryWriteOut(redis, t, cell, err);
    if copyFailed {
      return CopyFailed, [step];
    }
    ghost var s1 := redis.s;
    redis.Interfere(Goroutine(t));
    GrowsTransitive(s0, s1, redis.s);
    WrittenStays(s1, redis.s, k, err);
    ghost var s2 := redis.s;
    if lifetime == 1 {
      redis.Die(t);
      GrowsTransitive(s0, s2, redis.s);
      return Died, [step, Crash(t)];
    }
    ghost var out;
    end, out := Ack(redis, t);
    GrowsTransitive(s0, s2, redis.s);
    WrittenStays(s2, redis.s, k, err);
    trace := [step, Step.Ack(t, out)];
  }

  lemma WrittenStays(s: State, s': State, k: Task, err: string)
    requires Grows(s, s') && RetryWritten(s, k, err)
    ensures RetryWritten(s', k, err)
  {
    if !Exhausted(k.env) {
      CarriedStays(s, s', k.part, Bumped(k.env, err));
    }
  }
}
