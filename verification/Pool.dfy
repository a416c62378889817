/**
 * Worker concurrency: the poll loop and the reclaim loop take permits from one semaphore and start job
 * goroutines in one errgroup; shutdown drains them.
 */
module Pool {
  import opened Numbers
  import opened Options

  type Message = nat

  /** At the top of its loop, waiting for the reply of Consume, holding a message, or holding a permit for it. */
  datatype PollLoop = Polling | PollCalling | Consumed(m: Message) | PollPermit(m: Message) | PollExited

  /** Waiting for its ticker, waiting for the reply of a reclaim, or working off what it returned. */
  datatype ReclaimLoop =
    | Idle
    | Reclaiming
    | Batch(ms: seq<Message>)
    | BatchPermit(m: Message, rest: seq<Message>)
    | ReclaimExited

  /** A job goroutine: started, between the two updates of activeJobs (with its XACK ahead or behind), or about to
      release its permit. */
  datatype Phase = Spawned | Active | Acked | Leaving
  {
    predicate Counted() { Active? || Acked? }
  }

  datatype Job = Job(m: Message, phase: Phase)

  /**
   * `delivered` and `pending` are the consumer group's: messages handed to any consumer, and those of them not yet
   * acknowledged. `taken`, `ran` and `acked` are this worker's; `gone` left the pending list by somebody else's doing.
   */
  datatype State = State(
    free: int,
    cancelled: bool,
    poll: PollLoop,
    reclaim: ReclaimLoop,
    jobs: map<nat, Job>,
    activeJobs: int,
    delivered: set<Message>,
    pending: set<Message>,
    taken: set<Message>,
    ran: set<Message>,
    acked: set<Message>,
    gone: set<Message>)

  datatype Step =
    | Cancel
    | PollCall
    | Consume(m: Message)
    | PollEmpty
    | PollAcquire
    | PollGiveUp
    | PollSpawn(j: nat)
    | PollExit
    | ReclaimCall
    | Reclaim(ms: seq<Message>)
    | ReclaimEmpty
    | ReclaimAcquire
    | ReclaimGiveUp
    | ReclaimSpawn(j: nat)
    | ReclaimExit
    | JobStart(j: nat)
    | JobAck(j: nat)
    | JobEnd(j: nat)
    | JobRelease(j: nat)
    | OtherDeliver(m: Message)
    | OtherSettle(m: Message)

  predicate JobIn(s: State, j: nat, p: Phase)
  {
    j in s.jobs && s.jobs[j].phase == p
  }

  /** Both loops look at the context before they issue a call, and a command under a cancelled context does not reach
      the server; what was issued before may still be answered. */
  predicate Enabled(s: State, step: Step)
  {
    match step
    case Cancel => true
    case PollCall => s.poll == Polling && !s.cancelled
    case Consume(m) => s.poll == PollCalling && m !in s.delivered
    case PollEmpty => s.poll == PollCalling
    case PollAcquire => s.poll.Consumed? && 0 < s.free
    case PollGiveUp => s.poll.Consumed? && s.cancelled
    case PollSpawn(j) => s.poll.PollPermit? && j !in s.jobs
    case PollExit => s.poll == Polling && s.cancelled
    case ReclaimCall => s.reclaim == Idle && !s.cancelled
    case Reclaim(ms) => s.reclaim == Reclaiming && forall m :: m in ms ==> m in s.pending
    case ReclaimEmpty => s.reclaim == Reclaiming
    case ReclaimAcquire => s.reclaim.Batch? && s.reclaim.ms != [] && 0 < s.free
    case ReclaimGiveUp => s.reclaim.Batch? && (s.cancelled || s.reclaim.ms == [])
    case ReclaimSpawn(j) => s.reclaim.BatchPermit? && j !in s.jobs
    case ReclaimExit => s.reclaim == Idle && s.cancelled
    case JobStart(j) => JobIn(s, j, Spawned)
    case JobAck(j) => JobIn(s, j, Active)
    case JobEnd(j) => JobIn(s, j, Active) || JobIn(s, j, Acked)
    case JobRelease(j) => JobIn(s, j, Leaving)
    case OtherDeliver(m) => m !in s.delivered
    case OtherSettle(m) => m in s.pending
  }

  function WithJob(s: State, j: nat, job: Job): State
  {
    s.(jobs := s.jobs[j := job])
  }

  function Apply(s: State, step: Step): State
    requires Enabled(s, step)
  {
    match step
    case Cancel => s.(cancelled := true)
    case PollCall => s.(poll := PollCalling)
    case PollEmpty => s.(poll := Polling)
    case ReclaimCall => s.(reclaim := Reclaiming)
    case ReclaimEmpty => s.(reclaim := Idle)
    case Consume(m) =>
      s.(poll := Consumed(m), delivered := s.delivered + {m}, pending := s.pending + {m}, taken := s.taken + {m})
    case PollAcquire => s.(poll := PollPermit(s.poll.m), free := s.free - 1)
    case PollGiveUp => s.(poll := PollExited)
    case PollSpawn(j) => WithJob(s, j, Job(s.poll.m, Spawned)).(poll := Polling)
    case PollExit => s.(poll := PollExited)
    case Reclaim(ms) => s.(reclaim := Batch(ms), taken := s.taken + set m | m in ms)
    case ReclaimAcquire => s.(reclaim := BatchPermit(s.reclaim.ms[0], s.reclaim.ms[1..]), free := s.free - 1)
    case ReclaimGiveUp => s.(reclaim := Idle)
    case ReclaimSpawn(j) => WithJob(s, j, Job(s.reclaim.m, Spawned)).(reclaim := Batch(s.reclaim.rest))
    case ReclaimExit => s.(reclaim := ReclaimExited)
    case JobStart(j) =>
      WithJob(s, j, s.jobs[j].(phase := Active)).(activeJobs := s.activeJobs + 1, ran := s.ran + {s.jobs[j].m})
    case JobAck(j) =>
      var m := s.jobs[j].m;
      WithJob(s, j, Job(m, Acked)).(pending := s.pending - {m}, acked := s.acked + {m})
    case JobEnd(j) => WithJob(s, j, s.jobs[j].(phase := Leaving)).(activeJobs := s.activeJobs - 1)
    case JobRelease(j) => s.(jobs := s.jobs - {j}, free := s.free + 1)
    case OtherDeliver(m) => s.(delivered := s.delivered + {m}, pending := s.pending + {m})
    case OtherSettle(m) => s.(pending := s.pending - {m}, gone := s.gone + {m})
  }

  function Init(concurrency: nat): State
  {
    State(concurrency, false, Polling, Idle, map[], 0, {}, {}, {}, {}, {}, {})
  }

  function Exec(concurrency: nat, steps: seq<Step>): Option<State>
  {
    if steps == [] then Some(Init(concurrency))
    else
      var n := |steps| - 1;
      match Exec(concurrency, steps[..n])
      case None => None
      case Some(s) => if Enabled(s, steps[n]) then Some(Apply(s, steps[n])) else None
  }

  // ---- Accounting ----

  /** Permits out: one per job goroutine, and one for a loop that has acquired but not yet spawned. */
  function HeldPermits(s: State): nat
  {
    |s.jobs| + (if s.poll.PollPermit? then 1 else 0) + (if s.reclaim.BatchPermit? then 1 else 0)
  }

  ghost function ActiveSet(s: State): set<nat>
  {
    set j | j in s.jobs && s.jobs[j].phase.Counted()
  }

  ghost predicate Ok(concurrency: nat, s: State)
  {
    && 0 <= s.free
    && s.free + HeldPermits(s) == concurrency
    && s.activeJobs == |ActiveSet(s)|
    && TakenOk(s)
  }

  /** What this worker took is still pending unless a job that ran it acknowledged it, or others settled it. */
  ghost predicate TakenOk(s: State)
  {
    && (forall m :: m in s.taken ==> m in s.pending || m in s.acked || m in s.gone)
    && s.acked <= s.ran
    && (forall j :: j in s.jobs && s.jobs[j].phase == Active ==> s.jobs[j].m in s.ran)
  }

  lemma SizeWithout(a: set<nat>, j: nat)
    ensures |a - {j}| == |a| - (if j in a then 1 else 0)
  {
    assert j !in a ==> a - {j} == a;
  }

  predicate IsCounted(s: State, j: nat)
  {
    j in s.jobs && s.jobs[j].phase.Counted()
  }

  lemma ActiveAfter(s: State, s': State, j: nat)
    requires forall i :: i != j ==> (i in s.jobs <==> i in s'.jobs) && (i in s.jobs ==> s'.jobs[i] == s.jobs[i])
    ensures |ActiveSet(s')| - (if IsCounted(s', j) then 1 else 0) == |ActiveSet(s)| - (if IsCounted(s, j) then 1 else 0)
  {
    assert ActiveSet(s') - {j} == ActiveSet(s) - {j};
    SizeWithout(ActiveSet(s), j);
    SizeWithout(ActiveSet(s'), j);
  }

  lemma JobsAfter(m: map<nat, Job>, j: nat, job: Job)
    ensures |m[j := job]| == |m| + (if j in m then 0 else 1)
  {
    assert m[j := job].Keys == m.Keys + {j};
    assert |m[j := job]| == |m[j := job].Keys| && |m| == |m.Keys|;
  }

  lemma JobsWithout(m: map<nat, Job>, j: nat)
    requires j in m
    ensures |m - {j}| == |m| - 1
  {
    assert (m - {j}).Keys == m.Keys - {j};
    assert |m - {j}| == |(m - {j}).Keys| && |m| == |m.Keys|;
  }

  lemma SpawnKeeps(concurrency: nat, s: State, step: Step, j: nat)
    requires Ok(concurrency, s) && Enabled(s, step) && step in {PollSpawn(j), ReclaimSpawn(j)}
    ensures Ok(concurrency, Apply(s, step))
  {
    var s' := Apply(s, step);
    ActiveAfter(s, s', j);
    JobsAfter(s.jobs, j, s'.jobs[j]);
    hide ActiveSet;
  }

  lemma WorkKeeps(concurrency: nat, s: State, step: Step, j: nat)
    requires Ok(concurrency, s) && Enabled(s, step) && step in {JobStart(j), JobAck(j), JobEnd(j)}
    ensures Ok(concurrency, Apply(s, step))
  {
    var s' := Apply(s, step);
    ActiveAfter(s, s', j);
    JobsAfter(s.jobs, j, s'.jobs[j]);
    hide ActiveSet;
  }

  lemma ReleaseKeeps(concurrency: nat, s: State, j: nat)
    requires Ok(concurrency, s) && JobIn(s, j, Leaving)
    ensures Ok(concurrency, s.(jobs := s.jobs - {j}, free := s.free + 1))
  {
    var s' := s.(jobs := s.jobs - {j}, free := s.free + 1);
    assert ActiveSet(s') == ActiveSet(s);
    hide ActiveSet;
    JobsWithout(s.jobs, j);
  }

  lemma StepKeeps(concurrency: nat, s: State, step: Step)
    requires Ok(concurrency, s) && Enabled(s, step)
    ensures Ok(concurrency, Apply(s, step))
  {
    match step
    case PollSpawn(j) => SpawnKeeps(concurrency, s, step, j);
    case ReclaimSpawn(j) => SpawnKeeps(concurrency, s, step, j);
    case JobStart(j) => WorkKeeps(concurrency, s, step, j);
    case JobAck(j) => WorkKeeps(concurrency, s, step, j);
    case JobEnd(j) => WorkKeeps(concurrency, s, step, j);
    case JobRelease(j) => ReleaseKeeps(concurrency, s, j);
    case _ => assert ActiveSet(Apply(s, step)) == ActiveSet(s);
  }

  lemma {:induction false} RunKeeps(concurrency: nat, steps: seq<Step>)
    ensures var r := Exec(concurrency, steps); r.Some? ==> Ok(concurrency, r.value)
  {
    if steps != [] && Exec(concurrency, steps).Some? {
      var n := |steps| - 1;
      RunKeeps(concurrency, steps[..n]);
      hide Ok;
      StepKeeps(concurrency, Exec(concurrency, steps[..n]).value, steps[n]);
    } else {
      assert ActiveSet(Init(concurrency)) == {};
    }
  }

  /** In every interleaving free and held permits add up to Concurrency, and no more jobs are active than
      permits are held. */
  lemma PermitsConserved(concurrency: nat, steps: seq<Step>)
    requires Exec(concurrency, steps).Some?
    ensures var s := Exec(concurrency, steps).value;
            s.free + HeldPermits(s) == concurrency && 0 <= s.activeJobs <= HeldPermits(s) <= concurrency
  {
    RunKeeps(concurrency, steps);
    var s := Exec(concurrency, steps).value;
    assert ActiveSet(s) <= s.jobs.Keys;
    SubsetSize(ActiveSet(s), s.jobs.Keys);
    assert |s.jobs.Keys| == |s.jobs|;
  }

  lemma {:induction false} SubsetSize(a: set<nat>, b: set<nat>)
    requires a <= b
    ensures |a| <= |b|
  {
    if a != {} {
      var x :| x in a;
      SubsetSize(a - {x}, b - {x});
    }
  }

  /** All goroutines of the errgroup have returned. */
  predicate WaitReturns(s: State)
  {
    s.poll == PollExited && s.reclaim == ReclaimExited && s.jobs == map[]
  }

  /** When g.Wait returns no job is active, every permit is free, and every message this worker polled or took over
      from another consumer, whether it then gave up waiting for a permit or ran it without an acknowledgement, is
      still pending, unless a job that ran it acknowledged it or somebody else did. */
  lemma DrainedOnReturn(concurrency: nat, steps: seq<Step>)
    requires Exec(concurrency, steps).Some? && WaitReturns(Exec(concurrency, steps).value)
    ensures var s := Exec(concurrency, steps).value;
            && s.activeJobs == 0 && s.free == concurrency && s.acked <= s.ran
            && forall m :: m in s.taken && m !in s.acked && m !in s.gone ==> m in s.pending
  {
    RunKeeps(concurrency, steps);
    assert ActiveSet(Exec(concurrency, steps).value) == {};
  }

  /** A worker that polled nothing takes over another consumer's message. */
  lemma TakenOverRun(m: Message) returns (steps: seq<Step>, s: State)
    ensures Exec(1, steps) == Some(s)
    ensures s == Init(1).(reclaim := Batch([m]), delivered := {m}, pending := {m}, taken := {m})
  {
    s := Init(1);
    steps := [];
    Run1(s, steps, OtherDeliver(m));
    steps, s := steps + [OtherDeliver(m)], Apply(s, OtherDeliver(m));
    Run1(s, steps, ReclaimCall);
    steps, s := steps + [ReclaimCall], Apply(s, ReclaimCall);
    Run1(s, steps, Reclaim([m]));
    steps, s := steps + [Reclaim([m])], Apply(s, Reclaim([m]));
    assert s.taken == {m} && s.delivered == {m} && s.pending == {m};
  }

  /** Such a worker gives the message up at shutdown: it is among the taken, never run, and still pending when Wait
      returns. */
  lemma GivenUpRun(m: Message) returns (steps: seq<Step>)
    ensures Exec(1, steps).Some?
    ensures var s := Exec(1, steps).value; WaitReturns(s) && s.taken == {m} && s.ran == {} && m in s.pending
  {
    var s: State;
    steps, s := TakenOverRun(m);
    Run1(s, steps, Cancel);
    steps, s := steps + [Cancel], Apply(s, Cancel);
    Run1(s, steps, ReclaimGiveUp);
    steps, s := steps + [ReclaimGiveUp], Apply(s, ReclaimGiveUp);
    Run1(s, steps, ReclaimExit);
    steps, s := steps + [ReclaimExit], Apply(s, ReclaimExit);
    Run1(s, steps, PollExit);
    steps, s := steps + [PollExit], Apply(s, PollExit);
  }

  lemma Run1(s: State, steps: seq<Step>, step: Step)
    requires Exec(1, steps) == Some(s) && Enabled(s, step)
    ensures Exec(1, steps + [step]) == Some(Apply(s, step))
  {
    assert (steps + [step])[..|steps|] == steps;
  }

  // ---- The drain ends ----

  /** Steps of the environment. */
  predicate External(step: Step)
  {
    step.Cancel? || step.OtherDeliver? || step.OtherSettle?
  }

  /** After cancellation the loops and jobs always have a step left until Wait returns. */
  lemma ShutdownProgress(concurrency: nat, steps: seq<Step>) returns (step: Step)
    requires Exec(concurrency, steps).Some?
    requires Exec(concurrency, steps).value.cancelled && !WaitReturns(Exec(concurrency, steps).value)
    ensures Enabled(Exec(concurrency, steps).value, step) && !External(step)
  {
    var s := Exec(concurrency, steps).value;
    if s.jobs != map[] {
      var j :| j in s.jobs;
      step := match s.jobs[j].phase
        case Spawned => JobStart(j)
        case Active => JobEnd(j)
        case Acked => JobEnd(j)
        case Leaving => JobRelease(j);
    } else if s.poll != PollExited {
      step := if s.poll.Polling? then PollExit else if s.poll.PollCalling? then PollEmpty
              else if s.poll.Consumed? then PollGiveUp else PollSpawn(0);
    } else {
      step := if s.reclaim.Idle? then ReclaimExit else if s.reclaim.Reclaiming? then ReclaimEmpty
              else if s.reclaim.Batch? then ReclaimGiveUp else ReclaimSpawn(0);
    }
  }

  function JobWeight(job: Job): nat
  {
    match job.phase
    case Spawned => 4
    case Active => 3
    case Acked => 2
    case Leaving => 1
  }

  ghost function JobsWeight(m: map<nat, Job>): nat
    decreases |m|
  {
    if m == map[] then 0
    else
      JobsWithout(m, Pick(m));
      JobWeight(m[Pick(m)]) + JobsWeight(m - {Pick(m)})
  }

  lemma {:induction false} WeightWithout(m: map<nat, Job>, j: nat)
    requires j in m
    ensures JobsWeight(m) == JobWeight(m[j]) + JobsWeight(m - {j})
    decreases |m|
  {
    var i := Pick(m);
    if i != j {
      JobsWithout(m, i);
      JobsWithout(m, j);
      WeightWithout(m - {i}, j);
      assert (m - {i}) - {j} == (m - {j}) - {i};
      WeightWithout(m - {j}, i);
    }
  }

  lemma WeightWith(m: map<nat, Job>, j: nat, job: Job)
    ensures JobsWeight(m[j := job]) == JobWeight(job) + JobsWeight(m - {j})
  {
    WeightWithout(m[j := job], j);
    assert m[j := job] - {j} == m - {j};
  }

  function PollWeight(poll: PollLoop): nat
  {
    match poll
    case Polling => 1
    case PollCalling => 8
    case Consumed(_) => 7
    case PollPermit(_) => 6
    case PollExited => 0
  }

  function ReclaimWeight(reclaim: ReclaimLoop): nat
  {
    match reclaim
    case Idle => 1
    case Reclaiming => 3
    case Batch(ms) => 2 + 6 * |ms|
    case BatchPermit(_, rest) => 7 + 6 * |rest|
    case ReclaimExited => 0
  }

  /** The work still in hand. */
  ghost function Left(s: State): nat
  {
    PollWeight(s.poll) + ReclaimWeight(s.reclaim) + JobsWeight(s.jobs)
  }

  lemma JobStepShrinks(s: State, step: Step, j: nat)
    requires Enabled(s, step) && step in {JobStart(j), JobAck(j), JobEnd(j), JobRelease(j)}
    ensures Left(Apply(s, step)) < Left(s)
  {
    WeightWithout(s.jobs, j);
    if !step.JobRelease? {
      WeightWith(s.jobs, j, Apply(s, step).jobs[j]);
    }
  }

  lemma SpawnShrinks(s: State, step: Step, j: nat)
    requires Enabled(s, step) && step in {PollSpawn(j), ReclaimSpawn(j)}
    ensures Left(Apply(s, step)) < Left(s)
  {
    WeightWith(s.jobs, j, Apply(s, step).jobs[j]);
    assert s.jobs - {j} == s.jobs;
  }

  /** How much work a step brings in: the reply of a reclaim, by its size. */
  function Brought(step: Step): nat
  {
    if step.Reclaim? then 6 * |step.ms| else 0
  }

  /** After cancellation every step of the worker's own uses up work in hand, and only the reply of a reclaim that was
      under way brings more. */
  lemma StepShrinks(s: State, step: Step)
    requires Enabled(s, step) && s.cancelled
    ensures Left(Apply(s, step)) + (if External(step) then 0 else 1) <= Left(s) + Brought(step)
  {
    match step
    case PollSpawn(j) => SpawnShrinks(s, step, j);
    case ReclaimSpawn(j) => SpawnShrinks(s, step, j);
    case JobStart(j) => JobStepShrinks(s, step, j);
    case JobAck(j) => JobStepShrinks(s, step, j);
    case JobEnd(j) => JobStepShrinks(s, step, j);
    case JobRelease(j) => JobStepShrinks(s, step, j);
    case _ =>
  }

  function OwnSteps(steps: seq<Step>): nat
  {
    if steps == [] then 0 else OwnSteps(steps[..|steps| - 1]) + if External(steps[|steps| - 1]) then 0 else 1
  }

  function AllBrought(steps: seq<Step>): nat
  {
    if steps == [] then 0 else AllBrought(steps[..|steps| - 1]) + Brought(steps[|steps| - 1])
  }

  /** From cancellation on, the worker takes no more steps than it has work in hand, counting what a reclaim under way
      returns; so, as there always is a step left until Wait returns, the drain ends. */
  lemma {:induction false} DrainEnds(concurrency: nat, steps: seq<Step>, later: seq<Step>)
    requires Exec(concurrency, steps).Some? && Exec(concurrency, steps).value.cancelled
    requires Exec(concurrency, steps + later).Some?
    ensures Exec(concurrency, steps + later).value.cancelled
    ensures OwnSteps(later) + Left(Exec(concurrency, steps + later).value)
            <= Left(Exec(concurrency, steps).value) + AllBrought(later)
  {
    if later == [] {
      assert steps + later == steps;
    } else {
      var n := |later| - 1;
      var all := steps + later;
      assert all[..|all| - 1] == steps + later[..n] && all[|all| - 1] == later[n];
      DrainEnds(concurrency, steps, later[..n]);
      StepShrinks(Exec(concurrency, steps + later[..n]).value, later[n]);
    }
  }

  /** A message or a batch that may still arrive. */
  function InFlight(s: State): nat
  {
    (if s.poll == PollCalling then 1 else 0) + (if s.reclaim == Reclaiming then 1 else 0)
  }

  function Arrivals(steps: seq<Step>): nat
  {
    if steps == [] then 0
    else
      var last := steps[|steps| - 1];
      Arrivals(steps[..|steps| - 1]) + if last.Consume? || last.Reclaim? then 1 else 0
  }

  lemma InFlightStep(s: State, step: Step)
    requires Enabled(s, step) && s.cancelled
    ensures Apply(s, step).cancelled && InFlight(s) <= 2
    ensures InFlight(Apply(s, step)) + (if step.Consume? || step.Reclaim? then 1 else 0) <= InFlight(s)
  {
  }

  /** After cancellation nothing arrives but the replies of the calls under way: one message and one batch at most
      (InFlightStep). */
  lemma {:induction false} OnlyInFlight(concurrency: nat, steps: seq<Step>, later: seq<Step>)
    requires Exec(concurrency, steps).Some? && Exec(concurrency, steps).value.cancelled
    requires Exec(concurrency, steps + later).Some?
    ensures Exec(concurrency, steps + later).value.cancelled
    ensures Arrivals(later) + InFlight(Exec(concurrency, steps + later).value)
            <= InFlight(Exec(concurrency, steps).value)
  {
    if later == [] {
      assert steps + later == steps;
    } else {
      var n := |later| - 1;
      var all := steps + later;
      assert all[..|all| - 1] == steps + later[..n] && all[|all| - 1] == later[n];
      hide Enabled, Apply, InFlight;
      OnlyInFlight(concurrency, steps, later[..n]);
      InFlightStep(Exec(concurrency, steps + later[..n]).value, later[n]);
    }
  }
}
