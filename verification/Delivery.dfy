/**
 * The job delivery protocol as a state machine. Every Redis command is one atomic step that may end
 * applied, applied with the reply lost, or not applied; a job goroutine may die between any two steps.
 * A step's label carries everything the code does not decide, so a run is a sequence of labels.
 */
module Delivery {
  import opened Options
  import opened Queue
  import Partition

  datatype Config = Config(
    partitions: nat,
    maxRetries: int,
    maxLen: nat,
    dlqMaxLen: nat,
    dedupTtl: nat,
    reclaimIdle: nat,
    dedup: bool,
    hasDlq: bool,
    base: string,
    dlqName: string)
  {
    /** The conjuncts of validateQueue and validateWorker that the protocol relies on, and that the dead letter
        stream is no partition's stream: Partition.ApartIff says for which names that is so. */
    predicate Valid()
    {
      && 0 < partitions && 0 < maxRetries && 0 < maxLen && 0 < dlqMaxLen && 0 < dedupTtl && 0 < reclaimIdle
      && !Partition.IsPartition(base, partitions, dlqName)
    }
  }

  /** Where a job goroutine stands in processMessage, Process and Retry. */
  datatype Pc =
    | Checking
    | Calling
    | Running
    | Failing(err: string)
    | Settling

  datatype Task = Task(worker: nat, part: nat, id: nat, env: Envelope, pc: Pc)

  datatype DlqEntry = DlqEntry(originalId: nat, env: Envelope, reason: string, sentAt: nat)

  datatype Dlq = Dlq(log: seq<DlqEntry>, base: nat, deleted: set<nat>)
  {
    predicate Holds(d: nat) { base <= d < |log| && d !in deleted }
  }

  datatype Operator = Operator(d: nat, env: Envelope, resent: bool)

  /** A job appended to a stream that is no partition's, so that no worker reads it. */
  datatype Stray = Stray(name: string, env: Envelope)

  datatype Failure = Failure(attempt: Attempt, err: string)

  /** What has happened so far; no step of the code reads it. */
  datatype History = History(
    accepted: map<JobId, LogEvent>,
    claimed: set<Attempt>,
    calls: seq<Attempt>,
    wins: seq<Attempt>,
    won: set<Attempt>,
    failed: set<Failure>,
    copied: set<Attempt>,
    sent: set<Attempt>,
    dropped: set<Attempt>,
    abandoned: set<Attempt>,
    requeued: set<nat>,
    stranded: set<nat>,
    erased: set<nat>)

  datatype State = State(
    now: nat,
    streams: seq<Stream>,
    keys: map<Attempt, nat>,
    dlq: Dlq,
    tasks: map<nat, Task>,
    operators: map<nat, Operator>,
    strays: seq<Stray>,
    duplicates: nat,
    h: History)

  const NOTHING := History(map[], {}, [], [], {}, {}, {}, {}, {}, {}, {}, {}, {})

  function Init(c: Config): State
  {
    State(0, seq(c.partitions, _ => EMPTY_STREAM), map[], Dlq([], 0, {}), map[], map[], [], 0, NOTHING)
  }

  datatype Result = Success | Error(err: string)

  datatype Step =
    | Tick(dt: nat)
    | Enqueue(job: JobId, event: LogEvent, out: Outcome, cut: nat)
    | Inject(p: nat)
    | Deliver(t: nat, worker: nat, p: nat)
    | Reclaim(t: nat, worker: nat, p: nat, id: nat)
    | Purge(p: nat, id: nat)
    | Check(t: nat, out: Outcome, err: string)
    | Invoke(t: nat)
    | Return(t: nat, result: Result)
    | Copy(t: nat, out: Outcome)
    | Bury(t: nat, out: Outcome, cut: nat)
    | Drop(t: nat)
    | Ack(t: nat, out: Outcome)
    | Crash(t: nat)
    | Fetch(o: nat, d: nat)
    | Resend(o: nat, p: nat, maxLen: nat, out: Outcome, cut: nat)
    | Strand(o: nat, name: string, out: Outcome, cut: nat)
    | Remove(o: nat, out: Outcome)
    | Quit(o: nat)
    | Erase(d: nat, out: Outcome)

  function Home(c: Config, event: LogEvent): (p: nat)
    requires c.Valid()
    ensures p < c.partitions
  {
    Partition.PartitionFor(event.service, c.partitions)
  }

  predicate KeyFree(s: State, a: Attempt)
  {
    a !in s.keys || s.keys[a] <= s.now
  }

  predicate AtPc(s: State, t: nat, pc: Pc)
  {
    t in s.tasks && s.tasks[t].pc == pc
  }

  predicate IsFailing(s: State, t: nat)
  {
    t in s.tasks && s.tasks[t].pc.Failing?
  }

  /** `envelope.RetryCount >= envelope.MaxRetries`, after the increment. */
  predicate Exhausted(env: Envelope)
  {
    env.retryCount + 1 >= env.maxRetries
  }

  /** Jobs that requeues put into the stream of this name; the server counts them towards its MAXLEN. */
  function StraysIn(strays: seq<Stray>, name: string): nat
  {
    if strays == [] then 0
    else StraysIn(strays[..|strays| - 1], name) + if strays[|strays| - 1].name == name then 1 else 0
  }

  /** The approximate trimming of the dead letter stream, which also holds `others` entries that are no dead letters. */
  predicate DlqCutAllowed(c: Config, q: Dlq, others: nat, cut: nat)
  {
    && q.base <= cut <= |q.log|
    && (q.base < cut ==> c.dlqMaxLen <= |(set d | cut <= d < |q.log| && d !in q.deleted)| + others + 1)
  }

  predicate PartOk(s: State, p: nat)
  {
    p < |s.streams|
  }

  predicate TaskPartOk(s: State, t: nat)
  {
    t in s.tasks && PartOk(s, s.tasks[t].part)
  }

  predicate CanEnqueue(c: Config, s: State, job: JobId, event: LogEvent, cut: nat)
    requires c.Valid()
  {
    && job !in s.h.accepted
    && PartOk(s, Home(c, event))
    && CutAllowed(s.streams[Home(c, event)], c.maxLen, cut)
  }

  predicate CanDeliver(s: State, t: nat, p: nat)
  {
    t !in s.tasks && PartOk(s, p) && NextId(s.streams[p]) < |s.streams[p].log|
  }

  /** An entry that is stored, pending, and has been so for ReclaimIdleTime. */
  predicate CanReclaim(c: Config, s: State, t: nat, p: nat, id: nat)
  {
    && t !in s.tasks && PartOk(s, p)
    && id in s.streams[p].pel
    && s.streams[p].base <= id < |s.streams[p].log|
    && s.streams[p].pel[id].since + c.reclaimIdle <= s.now
  }

  /** XAUTOCLAIM drops a pending id whose entry has been trimmed. */
  predicate CanPurge(s: State, p: nat, id: nat)
  {
    PartOk(s, p) && id in s.streams[p].pel && id < s.streams[p].base
  }

  predicate CanCopy(s: State, t: nat)
  {
    IsFailing(s, t) && TaskPartOk(s, t) && !Exhausted(s.tasks[t].env)
  }

  predicate CanBury(c: Config, s: State, t: nat, cut: nat)
  {
    IsFailing(s, t) && Exhausted(s.tasks[t].env) && c.hasDlq
    && DlqCutAllowed(c, s.dlq, StraysIn(s.strays, c.dlqName), cut)
  }

  predicate CanDrop(c: Config, s: State, t: nat)
  {
    IsFailing(s, t) && Exhausted(s.tasks[t].env) && !c.hasDlq
  }

  predicate CanAck(s: State, t: nat)
  {
    AtPc(s, t, Settling) && TaskPartOk(s, t)
  }

  predicate CanFetch(s: State, o: nat, d: nat)
  {
    o !in s.operators && s.dlq.Holds(d)
  }

  predicate CanResend(s: State, o: nat, p: nat, maxLen: nat, cut: nat)
  {
    o in s.operators && !s.operators[o].resent && PartOk(s, p) && CutAllowed(s.streams[p], maxLen, cut)
  }

  /** A target that is no partition's stream. Only when it is the dead letter stream itself can its MAXLEN trim
      dead letters. */
  predicate CanStrand(c: Config, s: State, o: nat, name: string, cut: nat)
  {
    && o in s.operators && !s.operators[o].resent && !Partition.IsPartition(c.base, c.partitions, name)
    && (cut == s.dlq.base || (name == c.dlqName && s.dlq.base <= cut <= |s.dlq.log|))
  }

  predicate CanRemove(s: State, o: nat)
  {
    o in s.operators && s.operators[o].resent
  }

  predicate Enabled(c: Config, s: State, step: Step)
    requires c.Valid()
  {
    match step
    case Tick(_) => true
    case Enqueue(j, e, _, cut) => CanEnqueue(c, s, j, e, cut)
    case Inject(p) => PartOk(s, p)
    case Deliver(t, _, p) => CanDeliver(s, t, p)
    case Reclaim(t, _, p, id) => CanReclaim(c, s, t, p, id)
    case Purge(p, id) => CanPurge(s, p, id)
    case Check(t, _, _) => AtPc(s, t, Checking)
    case Invoke(t) => AtPc(s, t, Calling)
    case Return(t, _) => AtPc(s, t, Running)
    case Copy(t, _) => CanCopy(s, t)
    case Bury(t, _, cut) => CanBury(c, s, t, cut)
    case Drop(t) => CanDrop(c, s, t)
    case Ack(t, _) => CanAck(s, t)
    case Crash(t) => t in s.tasks
    case Fetch(o, d) => CanFetch(s, o, d)
    case Resend(o, p, maxLen, _, cut) => CanResend(s, o, p, maxLen, cut)
    case Remove(o, _) => CanRemove(s, o)
    case Quit(o) => o in s.operators
    case Strand(o, name, _, cut) => CanStrand(c, s, o, name, cut)
    case Erase(d, _) => s.dlq.Holds(d)
  }

  function WithStream(s: State, p: nat, st: Stream): State
    requires PartOk(s, p)
  {
    s.(streams := s.streams[p := st])
  }

  function WithPc(s: State, t: nat, pc: Pc): State
    requires t in s.tasks
  {
    s.(tasks := s.tasks[t := s.tasks[t].(pc := pc)])
  }

  /** The goroutine a delivered entry starts, if it decodes. */
  function Spawn(c: Config, s: State, t: nat, worker: nat, p: nat, id: nat, m: Payload): State
  {
    if m.Malformed? then s
    else s.(tasks := s.tasks[t := Task(worker, p, id, m.env, if c.dedup then Checking else Calling)])
  }

  function DoEnqueue(c: Config, s: State, job: JobId, event: LogEvent, out: Outcome, cut: nat): State
    requires c.Valid() && CanEnqueue(c, s, job, event, cut)
  {
    if !out.Applied() then s
    else
      var p := Home(c, event);
      var m := Job(BuildJobEnvelope(job, event, c.maxRetries, s.now));
      WithStream(s, p, Append(s.streams[p], m, cut)).(h := s.h.(accepted := s.h.accepted[job := event]))
  }

  function DoDeliver(c: Config, s: State, t: nat, worker: nat, p: nat): State
    requires CanDeliver(s, t, p)
  {
    var st := s.streams[p];
    Spawn(c, WithStream(s, p, Read(st, worker, s.now)), t, worker, p, NextId(st), st.log[NextId(st)])
  }

  function DoReclaim(c: Config, s: State, t: nat, worker: nat, p: nat, id: nat): State
    requires CanReclaim(c, s, t, p, id)
  {
    var st := s.streams[p];
    Spawn(c, WithStream(s, p, Claim(st, id, worker, s.now)), t, worker, p, id, st.log[id])
  }

  function Fail(s: State, t: nat, err: string): State
    requires t in s.tasks
  {
    WithPc(s, t, Failing(err)).(h := s.h.(failed := s.h.failed + {Failure(AttemptOf(s.tasks[t].env), err)}))
  }

  function SetKey(c: Config, s: State, a: Attempt): State
  {
    s.(keys := s.keys[a := s.now + c.dedupTtl], h := s.h.(claimed := s.h.claimed + {a}))
  }

  /** DeduplicatingProcessor.Process up to the downstream call. */
  function DoCheck(c: Config, s: State, t: nat, out: Outcome, err: string): State
    requires t in s.tasks
  {
    var a := AttemptOf(s.tasks[t].env);
    var free := KeyFree(s, a);
    match out
    case Ok =>
      if free then WithPc(SetKey(c, s, a), t, Calling)
      else WithPc(s, t, Settling).(duplicates := s.duplicates + 1)
    case ReplyLost => Fail(if free then SetKey(c, s, a) else s, t, err)
    case NotApplied => Fail(s, t, err)
  }

  function DoInvoke(s: State, t: nat): State
    requires t in s.tasks
  {
    WithPc(s, t, Running).(h := s.h.(calls := s.h.calls + [AttemptOf(s.tasks[t].env)]))
  }

  function DoReturn(s: State, t: nat, result: Result): State
    requires t in s.tasks
  {
    match result
    case Success => 
      var a := AttemptOf(s.tasks[t].env);
      WithPc(s, t, Settling).(h := s.h.(wins := s.h.wins + [a], won := s.h.won + {a}))
    case Error(err) => Fail(s, t, err)
  }

  /** The re-enqueueing branch of Retry; an error leaves the original pending. */
  function DoCopy(s: State, t: nat, out: Outcome): State
    requires IsFailing(s, t) && TaskPartOk(s, t)
  {
    var k := s.tasks[t];
    var a := AttemptOf(k.env);
    var st := s.streams[k.part];
    var s1 :=
      if !out.Applied() then s.(h := s.h.(abandoned := s.h.abandoned + {a}))
      else WithStream(s, k.part, Append(st, Job(Bumped(k.env, k.pc.err)), st.base))
           .(h := s.h.(copied := s.h.copied + {a}));
    if out.Errs() then s1.(tasks := s1.tasks - {t}) else WithPc(s1, t, Settling)
  }

  /** The dead-letter branch of Retry: a failed send is acknowledged anyway. */
  function DoBury(s: State, t: nat, out: Outcome, cut: nat): State
    requires IsFailing(s, t)
  {
    var k := s.tasks[t];
    var a := AttemptOf(k.env);
    var entry := DlqEntry(k.id, Bumped(k.env, k.pc.err), k.pc.err, s.now);
    var s1 :=
      if !out.Applied() then s.(h := s.h.(dropped := s.h.dropped + {a}))
      else s.(dlq := s.dlq.(log := s.dlq.log + [entry], base := cut), h := s.h.(sent := s.h.sent + {a}));
    WithPc(s1, t, Settling)
  }

  function DoDrop(s: State, t: nat): State
    requires t in s.tasks
  {
    WithPc(s, t, Settling).(h := s.h.(dropped := s.h.dropped + {AttemptOf(s.tasks[t].env)}))
  }

  function DoAck(s: State, t: nat, out: Outcome): State
    requires TaskPartOk(s, t)
  {
    var k := s.tasks[t];
    var s1 := if out.Applied() then WithStream(s, k.part, Acknowledge(s.streams[k.part], k.id)) else s;
    s1.(tasks := s1.tasks - {t})
  }

  /** Past its deduplication check, a goroutine that dies leaves its attempt without an outcome. */
  predicate Carrying(pc: Pc)
  {
    pc.Calling? || pc.Running? || pc.Failing?
  }

  function DoCrash(s: State, t: nat): State
    requires t in s.tasks
  {
    var k := s.tasks[t];
    var s1 := if Carrying(k.pc) then s.(h := s.h.(abandoned := s.h.abandoned + {AttemptOf(k.env)})) else s;
    s1.(tasks := s1.tasks - {t})
  }

  function DoInject(s: State, p: nat): State
    requires PartOk(s, p)
  {
    WithStream(s, p, Append(s.streams[p], Malformed, s.streams[p].base))
  }

  function DoPurge(s: State, p: nat, id: nat): State
    requires PartOk(s, p)
  {
    WithStream(s, p, s.streams[p].(pel := s.streams[p].pel - {id}))
  }

  /** Requeue reads the dead letter and resets its count and error. */
  function DoFetch(s: State, o: nat, d: nat): State
    requires s.dlq.Holds(d)
  {
    s.(operators := s.operators[o := Operator(d, Revived(s.dlq.log[d].env), false)])
  }

  function DoResend(s: State, o: nat, p: nat, out: Outcome, cut: nat): State
    requires o in s.operators && PartOk(s, p)
  {
    var op := s.operators[o];
    var s1 :=
      if !out.Applied() then s
      else WithStream(s, p, Append(s.streams[p], Job(op.env), cut)).(h := s.h.(requeued := s.h.requeued + {op.d}));
    s1.(operators := if out.Errs() then s1.operators - {o} else s1.operators[o := op.(resent := true)])
  }

  function DoStrand(s: State, o: nat, name: string, out: Outcome, cut: nat): State
    requires o in s.operators
  {
    var op := s.operators[o];
    var s1 :=
      if !out.Applied() then s
      else s.(strays := s.strays + [Stray(name, op.env)], dlq := s.dlq.(base := cut),
              h := s.h.(stranded := s.h.stranded + {op.d}));
    s1.(operators := if out.Errs() then s1.operators - {o} else s1.operators[o := op.(resent := true)])
  }

  /** DLQ.Delete called by itself. */
  function DoErase(s: State, d: nat, out: Outcome): State
  {
    if !out.Applied() then s
    else s.(dlq := s.dlq.(deleted := s.dlq.deleted + {d}), h := s.h.(erased := s.h.erased + {d}))
  }

  function DoRemove(s: State, o: nat, out: Outcome): State
    requires o in s.operators
  {
    var d := s.operators[o].d;
    var s1 := if out.Applied() then s.(dlq := s.dlq.(deleted := s.dlq.deleted + {d})) else s;
    s1.(operators := s1.operators - {o})
  }

  function Apply(c: Config, s: State, step: Step): State
    requires c.Valid() && Enabled(c, s, step)
  {
    match step
    case Tick(dt) => s.(now := s.now + dt)
    case Enqueue(j, e, out, cut) => DoEnqueue(c, s, j, e, out, cut)
    case Inject(p) => DoInject(s, p)
    case Deliver(t, w, p) => DoDeliver(c, s, t, w, p)
    case Reclaim(t, w, p, id) => DoReclaim(c, s, t, w, p, id)
    case Purge(p, id) => DoPurge(s, p, id)
    case Check(t, out, err) => DoCheck(c, s, t, out, err)
    case Invoke(t) => DoInvoke(s, t)
    case Return(t, result) => DoReturn(s, t, result)
    case Copy(t, out) => DoCopy(s, t, out)
    case Bury(t, out, cut) => DoBury(s, t, out, cut)
    case Drop(t) => DoDrop(s, t)
    case Ack(t, out) => DoAck(s, t, out)
    case Crash(t) => DoCrash(s, t)
    case Fetch(o, d) => DoFetch(s, o, d)
    case Resend(o, p, _, out, cut) => DoResend(s, o, p, out, cut)
    case Remove(o, out) => DoRemove(s, o, out)
    case Quit(o) => s.(operators := s.operators - {o})
    case Strand(o, name, out, cut) => DoStrand(s, o, name, out, cut)
    case Erase(d, out) => DoErase(s, d, out)
  }

  /** What a theorem assumes about the environment of a run. */
  datatype Assume = Anything | KeysLive | Checked | KeysLiveAndChecked | FaultFree

  /** No deduplication check finds its key present but expired. */
  predicate KeyNotExpired(s: State, step: Step)
  {
    step.Check? && step.t in s.tasks ==>
      var a := AttemptOf(s.tasks[step.t].env);
      a in s.keys ==> s.now < s.keys[a]
  }

  /** Every command succeeds, nothing dies, no entry is trimmed, claimed from its consumer or requeued. */
  predicate NoFault(s: State, step: Step)
  {
    match step
    case Enqueue(_, _, out, cut) => out.Ok? && cut == 0
    case Check(_, out, _) => out.Ok?
    case Copy(_, out) => out.Ok?
    case Bury(_, out, _) => out.Ok?
    case Ack(_, out) => out.Ok?
    case _ => !(step.Reclaim? || step.Purge? || step.Crash? || step.Inject? || step.Fetch? || step.Resend?
                || step.Strand? || step.Erase?)
  }

  predicate Allowed(a: Assume, s: State, step: Step)
  {
    match a
    case Anything => true
    case KeysLive => KeyNotExpired(s, step)
    case Checked => step.Check? ==> step.out.Ok?
    case KeysLiveAndChecked => KeyNotExpired(s, step) && (step.Check? ==> step.out.Ok?)
    case FaultFree => KeyNotExpired(s, step) && NoFault(s, step)
  }

  /** The state a run ends in, or None when some step of it cannot happen. */
  function Exec(c: Config, a: Assume, steps: seq<Step>): Option<State>
    requires c.Valid()
  {
    if steps == [] then Some(Init(c))
    else
      var n := |steps| - 1;
      match Exec(c, a, steps[..n])
      case None => None
      case Some(s) =>
        if Enabled(c, s, steps[n]) && Allowed(a, s, steps[n]) then Some(Apply(c, s, steps[n])) else None
  }

  lemma ExecExtends(c: Config, a: Assume, steps: seq<Step>, s: State, step: Step)
    requires c.Valid() && Exec(c, a, steps) == Some(s) && Enabled(c, s, step) && Allowed(a, s, step)
    ensures Exec(c, a, steps + [step]) == Some(Apply(c, s, step))
  {
    assert (steps + [step])[..|steps|] == steps;
  }

  /** A run under assumptions is a run. */
  lemma {:induction false} Unassume(c: Config, a: Assume, steps: seq<Step>)
    requires c.Valid() && Exec(c, a, steps).Some?
    ensures Exec(c, Anything, steps) == Exec(c, a, steps)
  {
    if steps != [] {
      Unassume(c, a, steps[..|steps| - 1]);
    }
  }
}
