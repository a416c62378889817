/** Runs without faults terminate: a measure over unacknowledged entries. */
module Termination {
  import opened Numbers
  import opened Options
  import opened Queue
  import opened Delivery
  import opened Invariant
  import opened FaultFree
  import Outcomes

  /** The steps an undelivered entry may still cost, its later copies included. */
  function EntryWeight(c: Config, m: Payload): int
  {
    if m.Job? then 6 * (c.maxRetries - m.env.retryCount) else 0
  }

  function TaskWeight(c: Config, k: Task): int
  {
    var whole := 6 * (c.maxRetries - k.env.retryCount);
    match k.pc
    case Checking => whole - 1
    case Calling => whole - 2
    case Running => whole - 3
    case Failing(_) => whole - 4
    case Settling => 1
  }

  function LogWeight(c: Config, log: seq<Payload>, from: nat): int
    decreases |log| - from
  {
    if |log| <= from then 0 else EntryWeight(c, log[from]) + LogWeight(c, log, from + 1)
  }

  function StreamsWeight(c: Config, streams: seq<Stream>): int
  {
    if streams == [] then 0 else LogWeight(c, streams[0].log, streams[0].next) + StreamsWeight(c, streams[1..])
  }

  ghost function TasksWeight(c: Config, m: map<nat, Task>): int
    decreases |m|
  {
    if m == map[] then 0 else TaskWeight(c, m[Pick(m)]) + TasksWeight(c, m - {Pick(m)})
  }

  ghost function Measure(c: Config, s: State): int
  {
    StreamsWeight(c, s.streams) + TasksWeight(c, s.tasks)
  }

  lemma {:induction false} LogAppend(c: Config, log: seq<Payload>, m: Payload, from: nat)
    requires from <= |log|
    ensures LogWeight(c, log + [m], from) == LogWeight(c, log, from) + EntryWeight(c, m)
    decreases |log| - from
  {
    if from < |log| {
      LogAppend(c, log, m, from + 1);
    } else {
      assert LogWeight(c, log + [m], from + 1) == 0;
    }
  }

  lemma {:induction false} StreamsUpdate(c: Config, streams: seq<Stream>, p: nat, st: Stream)
    requires p < |streams|
    ensures StreamsWeight(c, streams[p := st]) ==
            StreamsWeight(c, streams) - LogWeight(c, streams[p].log, streams[p].next) + LogWeight(c, st.log, st.next)
  {
    var streams' := streams[p := st];
    if p == 0 {
      assert streams'[1..] == streams[1..];
    } else {
      assert streams'[1..] == streams[1..][p - 1 := st];
      StreamsUpdate(c, streams[1..], p - 1, st);
    }
  }

  lemma {:induction false} TasksRemove(c: Config, m: map<nat, Task>, t: nat)
    requires t in m
    ensures TasksWeight(c, m) == TaskWeight(c, m[t]) + TasksWeight(c, m - {t})
    decreases |m|
  {
    var u := Pick(m);
    if u != t {
      TasksRemove(c, m - {u}, t);
      assert (m - {u}) - {t} == (m - {t}) - {u};
      TasksRemove(c, m - {t}, u);
    }
  }

  lemma TasksUpdate(c: Config, m: map<nat, Task>, t: nat, k: Task)
    ensures TasksWeight(c, m[t := k]) == TaskWeight(c, k) + TasksWeight(c, m - {t})
  {
    TasksRemove(c, m[t := k], t);
    assert m[t := k] - {t} == m - {t};
  }

  // ---- The weights of a reachable state are not negative ----

  lemma {:induction false} LogWeightNat(c: Config, log: seq<Payload>, from: nat)
    requires forall id :: 0 <= id < |log| && log[id].Job? ==> log[id].env.retryCount < c.maxRetries
    ensures 0 <= LogWeight(c, log, from)
    decreases |log| - from
  {
    if from < |log| {
      LogWeightNat(c, log, from + 1);
    }
  }

  lemma {:induction false} StreamsWeightNat(c: Config, streams: seq<Stream>)
    requires forall p, id :: 0 <= p < |streams| && 0 <= id < |streams[p].log| && streams[p].log[id].Job? ==>
               streams[p].log[id].env.retryCount < c.maxRetries
    ensures 0 <= StreamsWeight(c, streams)
  {
    if streams != [] {
      assert forall id :: 0 <= id < |streams[0].log| && streams[0].log[id].Job? ==>
        streams[0].log[id].env.retryCount < c.maxRetries;
      LogWeightNat(c, streams[0].log, streams[0].next);
      assert forall p :: 0 <= p < |streams[1..]| ==> streams[1..][p] == streams[p + 1];
      StreamsWeightNat(c, streams[1..]);
    }
  }

  lemma {:induction false} TasksWeightNat(c: Config, m: map<nat, Task>)
    requires forall t :: t in m ==> m[t].env.retryCount < c.maxRetries
    ensures 0 <= TasksWeight(c, m)
    decreases |m|
  {
    if m != map[] {
      TasksWeightNat(c, m - {Pick(m)});
    }
  }

  lemma MeasureNat(c: Config, s: State)
    requires Inv(c, s)
    ensures 0 <= Measure(c, s)
  {
    forall p, id | 0 <= p < |s.streams| && 0 <= id < |s.streams[p].log| && s.streams[p].log[id].Job?
      ensures s.streams[p].log[id].env.retryCount < c.maxRetries
    {
      assert At(s, p, id);
      assert EntryOk(c, s.h, Msg(s, p, id).env);
    }
    forall t | t in s.tasks ensures s.tasks[t].env.retryCount < c.maxRetries {
      TaskEntry(c, s, t);
    }
    hide Inv;
    StreamsWeightNat(c, s.streams);
    TasksWeightNat(c, s.tasks);
  }

  // ---- Every worker step decreases the measure ----

  predicate WorkerStep(step: Step)
  {
    !step.Tick? && !step.Enqueue?
  }

  lemma TaskMoves(c: Config, s: State, s': State, t: nat)
    requires t in s.tasks && t in s'.tasks && s'.tasks == s.tasks[t := s.tasks[t].(pc := s'.tasks[t].pc)]
    requires StreamsWeight(c, s'.streams) == StreamsWeight(c, s.streams)
    requires TaskWeight(c, s'.tasks[t]) < TaskWeight(c, s.tasks[t])
    ensures Measure(c, s') < Measure(c, s)
  {
    TasksRemove(c, s.tasks, t);
    TasksUpdate(c, s.tasks, t, s'.tasks[t]);
  }

  lemma DeliverDecreases(c: Config, s: State, t: nat, worker: nat, p: nat)
    requires CanDeliver(s, t, p) && s.streams[p].base == 0 && s.streams[p].log[s.streams[p].next].Job?
    ensures Measure(c, DoDeliver(c, s, t, worker, p)) < Measure(c, s)
  {
    var s' := DoDeliver(c, s, t, worker, p);
    var st := s.streams[p];
    StreamsUpdate(c, s.streams, p, Read(st, worker, s.now));
    TasksUpdate(c, s.tasks, t, s'.tasks[t]);
    assert s.tasks - {t} == s.tasks;
  }

  lemma CopyDecreases(c: Config, s: State, t: nat)
    requires CanCopy(s, t) && s.tasks[t].env.retryCount < c.maxRetries
    requires s.streams[s.tasks[t].part].next <= |s.streams[s.tasks[t].part].log|
    ensures Measure(c, DoCopy(s, t, Ok)) < Measure(c, s)
  {
    var s' := DoCopy(s, t, Ok);
    var k := s.tasks[t];
    var st := s.streams[k.part];
    var m := Job(Bumped(k.env, k.pc.err));
    StreamsUpdate(c, s.streams, k.part, Append(st, m, st.base));
    LogAppend(c, st.log, m, st.next);
    TasksRemove(c, s.tasks, t);
    TasksUpdate(c, s.tasks, t, s'.tasks[t]);
  }

  lemma AckDecreases(c: Config, s: State, t: nat)
    requires CanAck(s, t)
    ensures Measure(c, DoAck(s, t, Ok)) < Measure(c, s)
  {
    var k := s.tasks[t];
    StreamsUpdate(c, s.streams, k.part, Acknowledge(s.streams[k.part], k.id));
    TasksRemove(c, s.tasks, t);
  }

  lemma StepDecreases(c: Config, s: State, step: Step)
    requires c.Valid() && Inv(c, s) && Orderly(s) && Outcomes.Held(s)
    requires Enabled(c, s, step) && Allowed(FaultFree, s, step) && WorkerStep(step)
    ensures Measure(c, Apply(c, s, step)) < Measure(c, s)
  {
    hide Inv, Orderly, Outcomes.Held, Measure, StreamsWeight, TasksWeight;
    OrderlyFacts(s, 0);
    match step
    case Deliver(t, w, p) =>
      NextIsJob(s, p);
      DeliverDecreases(c, s, t, w, p);
    case Copy(t, _) =>
      Facts(c, s, t);
      TaskEntry(c, s, t);
      CopyDecreases(c, s, t);
    case Ack(t, _) => AckDecreases(c, s, t);
    case _ => LocalDecreases(c, s, step);
  }

  lemma NextIsJob(s: State, p: nat)
    requires Outcomes.Held(s) && PartOk(s, p) && s.streams[p].next < |s.streams[p].log|
    ensures s.streams[p].log[s.streams[p].next].Job?
  {
    assert At(s, p, s.streams[p].next);
  }

  lemma LocalDecreases(c: Config, s: State, step: Step)
    requires c.Valid() && Inv(c, s) && Orderly(s) && Enabled(c, s, step) && Allowed(FaultFree, s, step)
    requires WorkerStep(step) && !step.Deliver? && !step.Copy? && !step.Ack?
    ensures Measure(c, Apply(c, s, step)) < Measure(c, s)
  {
    hide Inv, Orderly, Measure, StreamsWeight, TasksWeight;
    OrderlyFacts(s, 0);
    match step
    case Check(t, out, err) =>
      CheckingPlace(s, t);
      TaskMoves(c, s, DoCheck(c, s, t, out, err), t);
    case Invoke(t) => TaskMoves(c, s, DoInvoke(s, t), t);
    case Return(t, result) =>
      TaskEntry(c, s, t);
      TaskMoves(c, s, DoReturn(s, t, result), t);
    case Bury(t, out, cut) =>
      TaskEntry(c, s, t);
      TaskMoves(c, s, DoBury(s, t, out, cut), t);
    case Drop(t) =>
      TaskEntry(c, s, t);
      TaskMoves(c, s, DoDrop(s, t), t);
  }

  lemma EnqueueWeight(c: Config, s: State, job: JobId, event: LogEvent)
    requires c.Valid() && StreamsOk(c, s) && CanEnqueue(c, s, job, event, 0)
    ensures Measure(c, DoEnqueue(c, s, job, event, Ok, 0)) == Measure(c, s) + 6 * c.maxRetries
  {
    var p := Home(c, event);
    var m := Job(BuildJobEnvelope(job, event, c.maxRetries, s.now));
    StreamsUpdate(c, s.streams, p, Append(s.streams[p], m, 0));
    LogAppend(c, s.streams[p].log, m, s.streams[p].next);
  }

  function WorkerSteps(steps: seq<Step>): nat
  {
    if steps == [] then 0
    else WorkerSteps(steps[..|steps| - 1]) + if WorkerStep(steps[|steps| - 1]) then 1 else 0
  }

  function Enqueues(steps: seq<Step>): nat
  {
    if steps == [] then 0
    else Enqueues(steps[..|steps| - 1]) + if steps[|steps| - 1].Enqueue? then 1 else 0
  }

  /** One step's share: a worker step uses up weight, an accepted job brings some. */
  lemma StepShare(c: Config, s: State, step: Step)
    requires c.Valid() && Inv(c, s) && Orderly(s) && Outcomes.Held(s)
    requires Enabled(c, s, step) && Allowed(FaultFree, s, step)
    ensures Measure(c, Apply(c, s, step)) + (if WorkerStep(step) then 1 else 0)
            <= Measure(c, s) + (if step.Enqueue? then 6 * c.maxRetries else 0)
  {
    hide Inv, Orderly, Outcomes.Held, Measure;
    match step
    case Tick(dt) => TickWeight(c, s, dt);
    case Enqueue(j, e, _, _) =>
      Facts(c, s, 0);
      EnqueueWeight(c, s, j, e);
    case _ => StepDecreases(c, s, step);
  }

  /** The budget of one more step. */
  lemma Spent(weight: int, weight': int, used: int, jobs: nat, perJob: int, uses: bool, brings: bool)
    requires used + weight <= perJob * jobs
    requires weight' + (if uses then 1 else 0) <= weight + (if brings then perJob else 0)
    ensures used + (if uses then 1 else 0) + weight' <= perJob * (jobs + if brings then 1 else 0)
  {
    assert perJob * (jobs + 1) == perJob * jobs + perJob;
  }

  lemma {:induction false} Budget(c: Config, steps: seq<Step>)
    requires c.Valid() && Exec(c, FaultFree, steps).Some?
    ensures WorkerSteps(steps) + Measure(c, Exec(c, FaultFree, steps).value) <= 6 * c.maxRetries * Enqueues(steps)
  {
    if steps == [] {
      InitWeight(c, c.partitions);
    } else {
      hide Inv, Orderly, Outcomes.Held, Measure, Enabled, Allowed, Apply, WorkerStep;
      var n := |steps| - 1;
      var s := Exec(c, FaultFree, steps[..n]).value;
      Budget(c, steps[..n]);
      RunKeeps(c, FaultFree, steps[..n]);
      RunOrderly(c, steps[..n]);
      Outcomes.RunHeld(c, steps[..n]);
      StepShare(c, s, steps[n]);
      Spent(Measure(c, s), Measure(c, Apply(c, s, steps[n])), WorkerSteps(steps[..n]), Enqueues(steps[..n]),
            6 * c.maxRetries, WorkerStep(steps[n]), steps[n].Enqueue?);
    }
  }

  lemma TickWeight(c: Config, s: State, dt: nat)
    ensures Measure(c, s.(now := s.now + dt)) == Measure(c, s)
  {
  }

  lemma {:induction false} InitWeight(c: Config, n: nat)
    ensures StreamsWeight(c, seq(n, _ => EMPTY_STREAM)) == 0
  {
    if 0 < n {
      assert seq(n, _ => EMPTY_STREAM)[1..] == seq(n - 1, _ => EMPTY_STREAM);
      InitWeight(c, n - 1);
    }
  }

  /** A fault-free run that accepted E jobs has at most 6 * MaxRetries * E consumer and worker steps. */
  lemma Terminates(c: Config, steps: seq<Step>)
    requires c.Valid() && Exec(c, FaultFree, steps).Some?
    ensures WorkerSteps(steps) <= 6 * c.maxRetries * Enqueues(steps)
  {
    hide Inv, Measure;
    Budget(c, steps);
    RunKeeps(c, FaultFree, steps);
    MeasureNat(c, Exec(c, FaultFree, steps).value);
  }

  /** Until it is drained, a fault-free run has a worker step to take. */
  lemma Progress(c: Config, steps: seq<Step>) returns (step: Step)
    requires c.Valid() && Exec(c, FaultFree, steps).Some? && !Outcomes.Drained(Exec(c, FaultFree, steps).value)
    ensures WorkerStep(step) && Exec(c, FaultFree, steps + [step]).Some?
  {
    hide Inv, Orderly;
    var s := Exec(c, FaultFree, steps).value;
    RunKeeps(c, FaultFree, steps);
    RunOrderly(c, steps);
    OrderlyFacts(s, 0);
    if s.tasks != map[] {
      step := TaskProgress(c, s);
    } else {
      var p: nat :| p < |s.streams| && s.streams[p].next != |s.streams[p].log|;
      Facts(c, s, 0);
      var t := FreshKey(s.tasks);
      step := Deliver(t, 0, p);
    }
    ExecExtends(c, FaultFree, steps, s, step);
  }

  lemma TaskProgress(c: Config, s: State) returns (step: Step)
    requires c.Valid() && Inv(c, s) && Orderly(s) && s.tasks != map[]
    ensures WorkerStep(step) && Enabled(c, s, step) && Allowed(FaultFree, s, step)
  {
    hide Inv, Orderly;
    var t := Pick(s.tasks);
    Facts(c, s, t);
    DeadLetterFacts(c, s, 0);
    var k := s.tasks[t];
    match k.pc
    case Checking =>
      CheckingPlace(s, t);
      step := Check(t, Ok, "");
    case Calling => step := Invoke(t);
    case Running => step := Return(t, Success);
    case Failing(_) =>
      step := if !Exhausted(k.env) then Copy(t, Ok) else if c.hasDlq then Bury(t, Ok, s.dlq.base) else Drop(t);
    case Settling => step := Ack(t, Ok);
  }
}
