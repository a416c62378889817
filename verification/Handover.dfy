/** No message is lost inside a worker: what its loops take is started as a job once, or given up at shutdown. */
module Handover {
  import opened Numbers
  import opened Options
  import opened Pool

  function One(b: bool): nat
  {
    if b then 1 else 0
  }

  /** How often x occurs in a batch. */
  function Occurs(ms: seq<Message>, x: Message): nat
  {
    if ms == [] then 0 else One(ms[0] == x) + Occurs(ms[1..], x)
  }

  /** How often a step hands x to this worker. */
  function Takes(step: Step, x: Message): nat
  {
    if step.Consume? then One(step.m == x) else if step.Reclaim? then Occurs(step.ms, x) else 0
  }

  /** Whether the step is the start of a job for x. */
  function Starts(s: State, step: Step, x: Message): nat
    requires Enabled(s, step)
  {
    if step.JobStart? then One(s.jobs[step.j].m == x) else 0
  }

  /** How often x is among what a loop gives up in this step. */
  function GivesUp(s: State, step: Step, x: Message): nat
    requires Enabled(s, step)
  {
    if step.PollGiveUp? then One(s.poll.m == x) else if step.ReclaimGiveUp? then Occurs(s.reclaim.ms, x) else 0
  }

  /** How often x was polled or reclaimed. */
  function Taken(steps: seq<Step>, x: Message): nat
  {
    if steps == [] then 0 else Taken(steps[..|steps| - 1], x) + Takes(steps[|steps| - 1], x)
  }

  /** How often a job for x was started. */
  function Started(concurrency: nat, steps: seq<Step>, x: Message): nat
    requires Exec(concurrency, steps).Some?
  {
    if steps == [] then 0
    else
      var n := |steps| - 1;
      Started(concurrency, steps[..n], x) + Starts(Exec(concurrency, steps[..n]).value, steps[n], x)
  }

  /** How often x was given up. */
  function GivenUp(concurrency: nat, steps: seq<Step>, x: Message): nat
    requires Exec(concurrency, steps).Some?
  {
    if steps == [] then 0
    else
      var n := |steps| - 1;
      GivenUp(concurrency, steps[..n], x) + GivesUp(Exec(concurrency, steps[..n]).value, steps[n], x)
  }

  /** How many goroutines have yet to begin with x. */
  ghost function Unstarted(jobs: map<nat, Job>, x: Message): nat
  {
    |Waiting(jobs, x)|
  }

  ghost function Waiting(jobs: map<nat, Job>, x: Message): set<nat>
  {
    set j | j in jobs && jobs[j] == Job(x, Spawned)
  }

  /** How often x is held by a loop or by an unstarted job. */
  ghost function InHand(s: State, x: Message): nat
  {
    OnPoll(s.poll, x) + OnReclaim(s.reclaim, x) + Unstarted(s.jobs, x)
  }

  function OnPoll(poll: PollLoop, x: Message): nat
  {
    match poll
    case Consumed(m) => One(m == x)
    case PollPermit(m) => One(m == x)
    case _ => 0
  }

  function OnReclaim(reclaim: ReclaimLoop, x: Message): nat
  {
    match reclaim
    case Batch(ms) => Occurs(ms, x)
    case BatchPermit(m, rest) => One(m == x) + Occurs(rest, x)
    case _ => 0
  }

  lemma UnstartedAfter(jobs: map<nat, Job>, jobs': map<nat, Job>, j: nat, x: Message)
    requires forall i :: i != j ==> (i in jobs <==> i in jobs') && (i in jobs ==> jobs'[i] == jobs[i])
    ensures Unstarted(jobs', x) + One(j in Waiting(jobs, x)) == Unstarted(jobs, x) + One(j in Waiting(jobs', x))
  {
    WaitingElsewhere(jobs, jobs', j, x);
    hide Waiting;
    SizeWithout(Waiting(jobs, x), j);
    SizeWithout(Waiting(jobs', x), j);
  }

  lemma WaitingElsewhere(jobs: map<nat, Job>, jobs': map<nat, Job>, j: nat, x: Message)
    requires forall i :: i != j ==> (i in jobs <==> i in jobs') && (i in jobs ==> jobs'[i] == jobs[i])
    ensures Waiting(jobs, x) - {j} == Waiting(jobs', x) - {j}
  {
  }

  /** A step moves messages between hands: what it takes in is held afterwards, and what it lets go of was held. */
  lemma StepHands(s: State, step: Step, x: Message)
    requires Enabled(s, step)
    ensures InHand(Apply(s, step), x) + Starts(s, step, x) + GivesUp(s, step, x) == InHand(s, x) + Takes(step, x)
  {
    var s' := Apply(s, step);
    if step.PollSpawn? || step.ReclaimSpawn? || step.JobStart? || step.JobAck? || step.JobEnd? || step.JobRelease? {
      UnstartedAfter(s.jobs, s'.jobs, step.j, x);
    } else {
      assert s'.jobs == s.jobs;
    }
    hide Unstarted;
  }

  /** In every interleaving, each time a message was polled or reclaimed it was started as a job, was given up, or is in
      the hands of a loop or an unstarted job. */
  lemma {:induction false} NothingLost(concurrency: nat, steps: seq<Step>, x: Message)
    requires Exec(concurrency, steps).Some?
    ensures Taken(steps, x)
            == Started(concurrency, steps, x) + GivenUp(concurrency, steps, x)
               + InHand(Exec(concurrency, steps).value, x)
  {
    if steps == [] {
      assert Init(concurrency).jobs == map[];
    } else {
      var n := |steps| - 1;
      NothingLost(concurrency, steps[..n], x);
      StepHands(Exec(concurrency, steps[..n]).value, steps[n], x);
      hide InHand, Apply, Enabled, Starts, GivesUp, Takes;
    }
  }

  lemma GivesUpLate(s: State, step: Step, x: Message)
    requires Enabled(s, step)
    ensures !s.cancelled ==> GivesUp(s, step, x) == 0 && !step.PollExit? && !step.ReclaimExit?
    ensures !Apply(s, step).cancelled ==> !s.cancelled
    ensures Apply(s, step).poll == PollExited ==> s.poll == PollExited || s.cancelled
    ensures Apply(s, step).reclaim == ReclaimExited ==> s.reclaim == ReclaimExited || s.cancelled
  {
  }

  /** A loop gives up, and returns, only once the worker is being shut down. */
  lemma {:induction false} NothingGivenUp(concurrency: nat, steps: seq<Step>, x: Message)
    requires Exec(concurrency, steps).Some?
    ensures var s := Exec(concurrency, steps).value;
            !s.cancelled ==>
              GivenUp(concurrency, steps, x) == 0 && s.poll != PollExited && s.reclaim != ReclaimExited
  {
    if steps != [] {
      var n := |steps| - 1;
      NothingGivenUp(concurrency, steps[..n], x);
      GivesUpLate(Exec(concurrency, steps[..n]).value, steps[n], x);
      hide Apply, Enabled, GivesUp;
    }
  }

  /** What the worker does not decide is left open, before and after cancellation: a poll under way may bring any
      message not delivered yet, a reclaim under way any batch of pending ones, either may bring nothing, and a running
      job may acknowledge its message or end without. */
  lemma AnyReply(s: State, m: Message, ms: seq<Message>, j: nat)
    ensures s.poll == PollCalling ==> Enabled(s, PollEmpty) && (Enabled(s, Consume(m)) <==> m !in s.delivered)
    ensures s.reclaim == Reclaiming ==>
              Enabled(s, ReclaimEmpty) && (Enabled(s, Reclaim(ms)) <==> forall x :: x in ms ==> x in s.pending)
    ensures JobIn(s, j, Active) ==> Enabled(s, JobAck(j)) && Enabled(s, JobEnd(j))
    ensures Enabled(s, OtherDeliver(m)) <==> m !in s.delivered
    ensures Enabled(s, OtherSettle(m)) <==> m in s.pending
  {
  }

  /** The poll loop returns when it gives up or finds the context cancelled, and does nothing after that. */
  lemma {:induction false} PollExitFinal(concurrency: nat, steps: seq<Step>, k: nat)
    requires Exec(concurrency, steps).Some? && k < |steps| && (steps[k].PollGiveUp? || steps[k].PollExit?)
    ensures Exec(concurrency, steps).value.poll == PollExited
  {
    var n := |steps| - 1;
    if k < n {
      assert steps[..n][k] == steps[k];
      PollExitFinal(concurrency, steps[..n], k);
    }
  }

  /** When g.Wait returns, every message was started as often as it was taken, but for those given up. */
  lemma AllStarted(concurrency: nat, steps: seq<Step>, x: Message)
    requires Exec(concurrency, steps).Some? && WaitReturns(Exec(concurrency, steps).value)
    ensures Taken(steps, x) == Started(concurrency, steps, x) + GivenUp(concurrency, steps, x)
  {
    NothingLost(concurrency, steps, x);
    assert InHand(Exec(concurrency, steps).value, x) == 0;
  }

  ghost predicate Recorded(s: State, x: Message, taken: nat, started: nat)
  {
    && (x in s.delivered <==> x in s.pending || x in s.acked || x in s.gone)
    && (x in s.pending ==> x !in s.acked && x !in s.gone)
    && (x in s.taken <==> 0 < taken)
    && (x in s.taken ==> x in s.delivered)
    && (x in s.ran <==> 0 < started)
  }

  lemma {:induction false} OccursIff(ms: seq<Message>, x: Message)
    ensures 0 < Occurs(ms, x) <==> x in ms
  {
    if ms != [] {
      OccursIff(ms[1..], x);
    }
  }

  lemma StepRecords(s: State, step: Step, x: Message, taken: nat, started: nat)
    requires Enabled(s, step) && Recorded(s, x, taken, started) && TakenOk(s) && started <= taken
    ensures Recorded(Apply(s, step), x, taken + Takes(step, x), started + Starts(s, step, x))
  {
    if step.Reclaim? {
      OccursIff(step.ms, x);
    }
  }

  /** The group's pending list is what was handed out and not settled since, and what the worker is on record as having
      taken and run is what it took and started. */
  lemma {:induction false} RecordsExact(concurrency: nat, steps: seq<Step>, x: Message)
    requires Exec(concurrency, steps).Some?
    ensures Recorded(Exec(concurrency, steps).value, x, Taken(steps, x), Started(concurrency, steps, x))
  {
    if steps != [] {
      var n := |steps| - 1;
      RecordsExact(concurrency, steps[..n], x);
      NothingLost(concurrency, steps[..n], x);
      RunKeeps(concurrency, steps[..n]);
      StepRecords(Exec(concurrency, steps[..n]).value, steps[n], x, Taken(steps[..n], x),
                  Started(concurrency, steps[..n], x));
      hide Apply, Enabled, Recorded, Starts, Takes;
    }
  }
}
