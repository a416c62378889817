/** The producer over the shared server, and requeueing from the dead letter stream. */
module Producers {
  import opened Options
  import opened Queue
  import opened Delivery
  import opened Invariant
  import opened Cluster
  import DeadLetters
  import Depth
  import opened Partition

  lemma PartsKnown(c: Config, steps: seq<Step>)
    requires c.Valid() && Exec(c, Anything, steps).Some?
    ensures var s := Exec(c, Anything, steps).value; StreamsOk(c, s) && s.dlq.base <= |s.dlq.log|
  {
    hide Inv;
    RunKeeps(c, Anything, steps);
    Facts(c, Exec(c, Anything, steps).value, 0);
    DeadLetterFacts(c, Exec(c, Anything, steps).value, 0);
  }

  /** A trimming the server may choose. */
  method Trim(st: Stream, maxLen: nat) returns (cut: nat)
    requires st.base <= |st.log|
    ensures CutAllowed(st, maxLen, cut)
  {
    cut := *;
    if !CutAllowed(st, maxLen, cut) {
      cut := st.base;
    }
  }

  // ---- StreamLength ----

  lemma {:induction false} ObservedStays(c: Config, steps: seq<Step>, steps': seq<Step>, times: seq<nat>)
    requires c.Valid() && steps <= steps' && forall i :: 0 <= i < |times| ==> times[i] <= |steps|
    ensures Depth.Observed(c, steps', times) == Depth.Observed(c, steps, times)
  {
    if times != [] {
      var n := |times| - 1;
      ObservedStays(c, steps, steps', times[..n]);
      assert steps'[..times[n]] == steps[..times[n]];
    }
  }

  lemma NothingYet(c: Config, steps: seq<Step>)
    requires c.Valid()
    ensures Depth.Observed(c, steps, []) == 0
  {
  }

  /** One more partition, asked now. */
  lemma OneMore(c: Config, steps: seq<Step>, times: seq<nat>)
    requires c.Valid() && Exec(c, Anything, steps).Some? && |times| < |Exec(c, Anything, steps).value.streams|
    requires forall i :: 0 <= i < |times| ==> times[i] <= |steps|
    ensures Depth.Observed(c, steps, times + [|steps|])
            == Depth.Observed(c, steps, times) + Length(Exec(c, Anything, steps).value.streams[|times|])
  {
    var times' := times + [|steps|];
    assert times'[..|times|] == times && steps[..|steps|] == steps;
  }

  /** The partitions asked so far, each since `begin`, add up to the total. */
  ghost predicate Asking(c: Config, steps: seq<Step>, begin: nat, times: seq<nat>, total: int)
    requires c.Valid()
  {
    (forall i :: 0 <= i < |times| ==> begin <= times[i] <= |steps|) && total == Depth.Observed(c, steps, times)
  }

  predicate SomeErrs(erring: set<nat>, n: nat)
  {
    exists i: nat :: i < n && i in erring
  }

  /** One XLEN, after whatever the others did. */
  method AskOne(redis: Redis, i: nat, ghost begin: nat, ghost times: seq<nat>, total: int)
    returns (total': int, ghost times': seq<nat>)
    requires redis.Valid() && i == |times| < redis.c.partitions
    requires begin <= |redis.steps| && Asking(redis.c, redis.steps, begin, times, total)
    modifies redis
    ensures redis.Valid() && old(redis.steps) <= redis.steps && |times'| == i + 1
    ensures Asking(redis.c, redis.steps, begin, times', total')
  {
    hide Depth.Observed, Grows, Mine;
    ghost var before := redis.steps;
    redis.Interfere(Nobody);
    ObservedStays(redis.c, before, redis.steps, times);
    PartsKnown(redis.c, redis.steps);
    total' := total + Length(redis.s.streams[i]);
    OneMore(redis.c, redis.steps, times);
    times' := times + [|redis.steps|];
  }

  /** StreamLength: one XLEN per partition, with everyone else active in between; which queries err is given. */
  method StreamLength(redis: Redis, erring: set<nat>) returns (total: int, failed: bool, ghost times: seq<nat>)
    requires redis.Valid()
    modifies redis
    ensures redis.Valid() && old(redis.steps) <= redis.steps
    ensures failed <==> SomeErrs(erring, redis.c.partitions)
    ensures !failed ==> |times| == redis.c.partitions
    ensures !failed ==> Asking(redis.c, redis.steps, |old(redis.steps)|, times, total)
    ensures !failed ==> Depth.BacklogSeen(redis.c, redis.steps, times) <= total
  {
    total, failed, times := 0, false, [];
    assert Asking(redis.c, redis.steps, |redis.steps|, times, total);
    hide Redis.Valid;
    for i := 0 to redis.c.partitions
      invariant redis.Valid() && redis.c.Valid() && old(redis.steps) <= redis.steps && |times| == i
      invariant Asking(redis.c, redis.steps, |old(redis.steps)|, times, total)
      invariant !SomeErrs(erring, i)
    {
      hide Asking;
      if i in erring {
        return 0, true, times;
      }
      total, times := AskOne(redis, i, |old(redis.steps)|, times, total);
      ConfigKept(redis);
    }
    Depth.DepthCoversBacklog(redis.c, redis.steps, times);
  }

  lemma ConfigKept(redis: Redis)
    requires redis.Valid()
    ensures redis.c.Valid()
  {
  }

  // ---- Enqueue ----

  /** The event is entry `id` of its service's stream, as a fresh envelope. */
  ghost predicate Landed(c: Config, s: State, job: JobId, event: LogEvent, id: nat)
    requires c.Valid()
  {
    var p := PartitionFor(event.service, c.partitions);
    && p < |s.streams| && id < |s.streams[p].log|
    && var m := s.streams[p].log[id];
       && m.Job? && m.env.job == job && m.env.data == event
       && m.env.retryCount == 0 && m.env.maxRetries == c.maxRetries && m.env.lastError == ""
       && m.env.eventType == "log_event"
  }

  /** Producer.Enqueue: the id of the new entry, or None after an error. */
  method Enqueue(redis: Redis, job: JobId, event: LogEvent) returns (id: Option<nat>, ghost step: Step)
    requires redis.Valid() && job !in redis.s.h.accepted
    modifies redis
    ensures redis.Valid() && Grows(old(redis.s), redis.s) && redis.steps == old(redis.steps) + [step]
    ensures forall jobs :: job in jobs ==>
              Mine(redis.steps, Producer(jobs)) == Mine(old(redis.steps), Producer(jobs)) + [step]
    ensures step.Enqueue? && step.job == job && step.event == event && (id == None <==> step.out.Errs())
    ensures redis.s.h.accepted.Keys <= old(redis.s.h.accepted.Keys) + {job}
    ensures id.Some? ==> Landed(redis.c, redis.s, job, event, id.value)
    ensures id.Some? ==>
              var p := PartitionFor(event.service, redis.c.partitions);
              && p < |redis.s.streams| == |old(redis.s.streams)| && id.value == |old(redis.s.streams)[p].log|
              && redis.s.streams[p].log == old(redis.s.streams)[p].log
                   + [Job(Envelope(job, event, old(redis.s.now), 0, redis.c.maxRetries, "log_event", ""))]
              && forall q: nat :: q < |redis.s.streams| && q != p ==> redis.s.streams[q] == old(redis.s.streams)[q]
  {
    PartsKnown(redis.c, redis.steps);
    var p := PartitionFor(event.service, redis.c.partitions);
    var cut := Trim(redis.s.streams[p], redis.c.maxLen);
    var out: Outcome := *;
    var next := |redis.s.streams[p].log|;
    step := Step.Enqueue(job, event, out, cut);
    redis.XAdd(job, event, out, cut);
    id := if out.Errs() then None else Some(next);
  }

  // ---- EnqueueBatch ----

  /** Event i of the batch is entry ids[i] of its service's stream. */
  ghost predicate Placed(c: Config, s: State, jobs: seq<JobId>, events: seq<LogEvent>, ids: seq<nat>, i: int)
    requires c.Valid() && |jobs| == |events| && 0 <= i < |ids| <= |events|
  {
    Landed(c, s, jobs[i], events[i], ids[i])
  }

  ghost predicate SamePartition(c: Config, e: LogEvent, f: LogEvent)
    requires c.Valid()
  {
    PartitionFor(e.service, c.partitions) == PartitionFor(f.service, c.partitions)
  }

  /** Events of the same partition keep their order. */
  ghost predicate Ordered(c: Config, events: seq<LogEvent>, ids: seq<nat>)
    requires c.Valid() && |ids| <= |events|
  {
    forall i, k :: 0 <= i < k < |ids| && SamePartition(c, events[i], events[k]) ==> ids[i] < ids[k]
  }

  lemma PlacedStays(c: Config, s: State, s': State, jobs: seq<JobId>, events: seq<LogEvent>, ids: seq<nat>)
    requires c.Valid() && |jobs| == |events| && |ids| <= |events| && Grows(s, s')
    requires forall i :: 0 <= i < |ids| ==> Placed(c, s, jobs, events, ids, i)
    ensures forall i :: 0 <= i < |ids| ==> Placed(c, s', jobs, events, ids, i)
  {
    forall i | 0 <= i < |ids| ensures Placed(c, s', jobs, events, ids, i) {
      assert Placed(c, s, jobs, events, ids, i);
    }
  }

  /** One more event at the end of its stream. */
  lemma BatchGrows(c: Config, s: State, s': State, jobs: seq<JobId>, events: seq<LogEvent>, ids: seq<nat>, id: nat)
    requires c.Valid() && |jobs| == |events| && |ids| < |events| && Grows(s, s')
    requires Ordered(c, events, ids) && forall i :: 0 <= i < |ids| ==> Placed(c, s, jobs, events, ids, i)
    requires var p := PartitionFor(events[|ids|].service, c.partitions);
             p < |s.streams| && id == |s.streams[p].log|
    requires Placed(c, s', jobs, events, ids + [id], |ids|)
    ensures Ordered(c, events, ids + [id])
    ensures forall i :: 0 <= i <= |ids| ==> Placed(c, s', jobs, events, ids + [id], i)
  {
    PlacedStays(c, s, s', jobs, events, ids);
    forall i | 0 <= i < |ids|
      ensures Placed(c, s', jobs, events, ids + [id], i)
      ensures SamePartition(c, events[i], events[|ids|]) ==> ids[i] < id
    {
      assert Placed(c, s, jobs, events, ids, i) && Placed(c, s', jobs, events, ids, i);
    }
  }

  /** The commands of a batch: one XADD per event, in order; the batch fails exactly when one of them errs. */
  ghost predicate BatchTrace(jobs: seq<JobId>, events: seq<LogEvent>, trace: seq<Step>, failed: bool)
    requires |jobs| == |events|
  {
    && |trace| <= |events|
    && (forall i :: 0 <= i < |trace| ==> trace[i].Enqueue? && trace[i].job == jobs[i] && trace[i].event == events[i])
    && (failed <==> exists i :: 0 <= i < |trace| && trace[i].Enqueue? && trace[i].out.Errs())
  }

  lemma TraceGrows(jobs: seq<JobId>, events: seq<LogEvent>, trace: seq<Step>, failed: bool, step: Step)
    requires |jobs| == |events| && |trace| < |events| && BatchTrace(jobs, events, trace, failed)
    requires step.Enqueue? && step.job == jobs[|trace|] && step.event == events[|trace|]
    ensures BatchTrace(jobs, events, trace + [step], failed || step.out.Errs())
  {
    var longer := trace + [step];
    assert longer[|trace|] == step;
    if failed {
      var i :| 0 <= i < |trace| && trace[i].Enqueue? && trace[i].out.Errs();
      assert longer[i] == trace[i];
    }
  }

  /** The job ids drawn for the batch are new. */
  ghost predicate Distinct(jobs: seq<JobId>)
  {
    forall i, k :: 0 <= i < k < |jobs| ==> jobs[i] != jobs[k]
  }

  ghost predicate Fresh(s: State, jobs: seq<JobId>, n: nat)
  {
    forall i :: n <= i < |jobs| ==> jobs[i] !in s.h.accepted
  }

  function BatchOf(jobs: seq<JobId>): Owner
  {
    Producer(set j | j in jobs)
  }

  /** The batch so far. */
  ghost predicate BatchOk(c: Config, s: State, jobs: seq<JobId>, events: seq<LogEvent>, ids: seq<nat>)
    requires c.Valid() && |jobs| == |events| && |ids| <= |events|
  {
    Ordered(c, events, ids) && forall i :: 0 <= i < |ids| ==> Placed(c, s, jobs, events, ids, i)
  }

  /** Other clients' commands, then the batch's n-th. */
  method BatchNext(redis: Redis, jobs: seq<JobId>, events: seq<LogEvent>, ghost ids: seq<nat>, n: nat)
    returns (id: Option<nat>, ghost step: Step)
    requires redis.Valid() && |jobs| == |events| && n < |events| && |ids| <= n
    requires Distinct(jobs) && Fresh(redis.s, jobs, n)
    requires BatchOk(redis.c, redis.s, jobs, events, ids)
    modifies redis
    ensures redis.Valid() && Grows(old(redis.s), redis.s)
    ensures Mine(redis.steps, BatchOf(jobs)) == Mine(old(redis.steps), BatchOf(jobs)) + [step]
    ensures step.Enqueue? && step.job == jobs[n] && step.event == events[n] && (id == None <==> step.out.Errs())
    ensures Fresh(redis.s, jobs, n + 1)
    ensures BatchOk(redis.c, redis.s, jobs, events, [])
    ensures |ids| == n && id.Some? ==> BatchOk(redis.c, redis.s, jobs, events, ids + [id.value])
  {
    hide Landed;
    ghost var s0 := redis.s;
    redis.Interfere(BatchOf(jobs));
    PlacedStays(redis.c, s0, redis.s, jobs, events, ids);
    ghost var s1 := redis.s;
    id, step := Enqueue(redis, jobs[n], events[n]);
    GrowsTransitive(s0, s1, redis.s);
    if |ids| == n && id.Some? {
      BatchGrows(redis.c, s1, redis.s, jobs, events, ids, id.value);
    }
  }

  /** From the first run to the second, the owner issued these commands. */
  ghost predicate Issued(first: seq<Step>, second: seq<Step>, owner: Owner, trace: seq<Step>)
  {
    Mine(second, owner) == Mine(first, owner) + trace
  }

  lemma IssuedMore(first: seq<Step>, second: seq<Step>, third: seq<Step>, owner: Owner, trace: seq<Step>, step: Step)
    requires Issued(first, second, owner, trace) && Mine(third, owner) == Mine(second, owner) + [step]
    ensures Issued(first, third, owner, trace + [step])
  {
  }

  /** EnqueueBatch: the pipelined commands are all sent, in order, with other clients' commands between them.
      It fails exactly when one of them erred, whatever the others did; on success every event is where
      Enqueue would have put it, and events of one partition are in batch order. */
  method EnqueueBatch(redis: Redis, jobs: seq<JobId>, events: seq<LogEvent>)
    returns (ids: seq<nat>, failed: bool, ghost trace: seq<Step>)
    requires redis.Valid() && |jobs| == |events|
    requires Distinct(jobs) && Fresh(redis.s, jobs, 0)
    modifies redis
    ensures redis.Valid() && Grows(old(redis.s), redis.s)
    ensures Issued(old(redis.steps), redis.steps, BatchOf(jobs), trace)
    ensures |trace| == |events| && BatchTrace(jobs, events, trace, failed)
    ensures failed ==> ids == []
    ensures !failed ==> |ids| == |events| && BatchOk(redis.c, redis.s, jobs, events, ids)
  {
    assert redis.c.Valid() && Grows(redis.s, redis.s);
    assert BatchTrace(jobs, events, [], false) && BatchOk(redis.c, redis.s, jobs, events, []);
    assert Issued(redis.steps, redis.steps, BatchOf(jobs), []);
    hide *;
    ids, failed, trace := [], false, [];
    for n := 0 to |events|
      invariant redis.Valid() && Grows(old(redis.s), redis.s)
      invariant Issued(old(redis.steps), redis.steps, BatchOf(jobs), trace)
      invariant |trace| == n && BatchTrace(jobs, events, trace, failed)
      invariant |ids| <= n && (!failed ==> |ids| == n) && (failed ==> ids == [])
      invariant BatchOk(redis.c, redis.s, jobs, events, ids)
      invariant Fresh(redis.s, jobs, n)
    {
      ghost var before, was := redis.s, redis.steps;
      var id, step := BatchNext(redis, jobs, events, ids, n);
      IssuedMore(old(redis.steps), was, redis.steps, BatchOf(jobs), trace, step);
      GrowsTransitive(old(redis.s), before, redis.s);
      TraceGrows(jobs, events, trace, failed, step);
      trace := trace + [step];
      if id == None || failed {
        failed, ids := true, [];
      } else {
        ids := ids + [id.value];
      }
    }
  }

  // ---- DLQ.Requeue ----

  /** The XADD of a requeue to the stream of this name. */
  ghost predicate AppendsTo(c: Config, o: nat, name: string, maxLen: nat, step: Step)
  {
    match PartitionOf(c.base, c.partitions, name)
    case Some(p) => step.Resend? && step.o == o && step.p == p && step.maxLen == maxLen
    case None => step.Strand? && step.o == o && step.name == name
  }

  ghost function OutcomeOf(step: Step): Outcome
  {
    match step
    case Resend(_, _, _, out, _) => out
    case Strand(_, _, out, _) => out
    case _ => NotApplied
  }

  /** The commands of one Requeue after its read: one XADD to the named stream, and only after its confirmation the
      delete; a process may die before each of them, and an erring XADD is the last. */
  ghost predicate AppendTrace(c: Config, o: nat, name: string, maxLen: nat, life: nat, ok: bool, trace: seq<Step>)
  {
    if life == 0 then trace == [Quit(o)] && !ok
    else
      && trace != [] && AppendsTo(c, o, name, maxLen, trace[0])
      && if OutcomeOf(trace[0]).Errs() then |trace| == 1 && !ok
         else
           && |trace| == 2 && ok == (1 < life)
           && if ok then trace[1].Remove? && trace[1].o == o else trace[1] == Quit(o)
  }

  /** `life` is how many commands the process may issue before it dies, `held` whether the read found the entry. */
  ghost predicate RequeueTrace(c: Config, o: nat, d: nat, name: string, maxLen: nat, life: nat, held: bool, ok: bool,
                               trace: seq<Step>)
  {
    if life == 0 || !held then trace == [] && !ok
    else trace != [] && trace[0] == Fetch(o, d) && AppendTrace(c, o, name, maxLen, life - 1, ok, trace[1..])
  }

  /** DLQ.Requeue: read the dead letter, append its job with count 0 and no error to the stream of the given name,
      then delete it. Success means that its own XADD, step k of the run, appended the job and that the entry is in its
      place. At the end the dead letter is still held, was trimmed or deleted by an operator, or has been requeued. */
  method Requeue(redis: Redis, o: nat, d: nat, name: string, maxLen: nat, life: nat)
    returns (ok: bool, ghost trace: seq<Step>, ghost k: nat)
    requires redis.Valid() && o !in redis.s.operators
    modifies redis
    ensures redis.Valid() && Grows(old(redis.s), redis.s) && o !in redis.s.operators
    ensures Mine(redis.steps, Requeuer(o)) == Mine(old(redis.steps), Requeuer(o)) + trace
    ensures RequeueTrace(redis.c, o, d, name, maxLen, life, old(redis.s.dlq.Holds(d)), ok, trace)
    ensures |trace| == 3 ==>
              && |old(redis.steps)| <= k < |redis.steps| && redis.steps[k] == trace[1]
              && DeadLetters.RequeuedAt(redis.c, redis.steps, k, d)
    ensures d < |redis.s.dlq.log| ==> DeadLetters.Accounted(redis.c, redis.steps, redis.s, d)
  {
    hide Grows, Mine, DeadLetters.RequeuedAt, DeadLetters.Accounted, OperatorOk, AppendTrace;
    assert Grows(redis.s, redis.s) by { GrowsSelf(redis.s); }
    ghost var s0 := redis.s;
    trace, k := [], 0;
    if life == 0 || !redis.s.dlq.Holds(d) {
      DeadLetterKept(redis.c, redis.steps, d);
      return false, trace, k;
    }
    redis.Read(o, d);
    ghost var s1 := redis.s;
    redis.Interfere(Requeuer(o));
    ghost var s2 := redis.s;
    GrowsTransitive(s0, s1, s2);
    LetterKnown(redis.c, redis.steps, o);
    ghost var rest;
    ok, rest, k := AppendAndDelete(redis, o, d, name, maxLen, life - 1);
    trace := [Fetch(o, d)] + rest;
    assert trace[1..] == rest;
    GrowsTransitive(s0, s2, redis.s);
    DeadLetterKept(redis.c, redis.steps, d);
  }

  lemma GrowsSelf(s: State)
    ensures Grows(s, s)
  {
  }

  lemma LetterKnown(c: Config, steps: seq<Step>, o: nat)
    requires c.Valid() && Exec(c, Anything, steps).Some? && o in Exec(c, Anything, steps).value.operators
    ensures OperatorOk(Exec(c, Anything, steps).value, Exec(c, Anything, steps).value.operators[o])
  {
    hide Inv;
    RunKeeps(c, Anything, steps);
    DeadLetterFacts(c, Exec(c, Anything, steps).value, o);
  }

  /** The XADD of Requeue, to whatever stream has the name. */
  method AppendTo(redis: Redis, o: nat, name: string, maxLen: nat) returns (err: bool, ghost step: Step)
    requires redis.Valid() && o in redis.s.operators && !redis.s.operators[o].resent
    requires OperatorOk(redis.s, redis.s.operators[o])
    modifies redis
    ensures redis.Valid() && Grows(old(redis.s), redis.s) && redis.steps == old(redis.steps) + [step]
    ensures Mine(redis.steps, Requeuer(o)) == Mine(old(redis.steps), Requeuer(o)) + [step]
    ensures AppendsTo(redis.c, o, name, maxLen, step) && err == OutcomeOf(step).Errs()
    ensures err ==> o !in redis.s.operators
    ensures !err ==> o in redis.s.operators && redis.s.operators[o] == old(redis.s.operators[o]).(resent := true)
    ensures !err ==> DeadLetters.Requeues(old(redis.s), step, redis.s, old(redis.s.operators[o].d))
  {
    hide Mine, Grows, DeadLetters.Requeues;
    PartsKnown(redis.c, redis.steps);
    ghost var s0 := redis.s;
    var out: Outcome := *;
    err := out.Errs();
    var target := PartitionOf(redis.c.base, redis.c.partitions, name);
    if target.Some? {
      var p := target.value;
      var cut := Trim(redis.s.streams[p], maxLen);
      step := Step.Resend(o, p, maxLen, out, cut);
      redis.Resend(o, p, maxLen, out, cut);
      if !err {
        DeadLetters.ResendRequeues(s0, o, p, maxLen, out, cut);
      }
    } else {
      var cut: nat := *;
      if name != redis.c.dlqName || cut < redis.s.dlq.base || |redis.s.dlq.log| < cut {
        cut := redis.s.dlq.base;
      }
      step := Step.Strand(o, name, out, cut);
      redis.ResendOutside(o, name, out, cut);
      if !err {
        DeadLetters.StrandRequeues(redis.c, s0, o, name, out, cut);
      }
    }
  }

  /** From the XADD on. */
  method AppendAndDelete(redis: Redis, o: nat, d: nat, name: string, maxLen: nat, life: nat)
    returns (ok: bool, ghost rest: seq<Step>, ghost k: nat)
    requires redis.Valid() && o in redis.s.operators && OperatorOk(redis.s, redis.s.operators[o])
    requires redis.s.operators[o].d == d && !redis.s.operators[o].resent
    modifies redis
    ensures redis.Valid() && Grows(old(redis.s), redis.s) && o !in redis.s.operators
    ensures Mine(redis.steps, Requeuer(o)) == Mine(old(redis.steps), Requeuer(o)) + rest
    ensures AppendTrace(redis.c, o, name, maxLen, life, ok, rest)
    ensures |rest| == 2 ==>
              && |old(redis.steps)| <= k < |redis.steps| && redis.steps[k] == rest[0]
              && DeadLetters.RequeuedAt(redis.c, redis.steps, k, d)
  {
    hide Grows, Mine, DeadLetters.RequeuedAt, DeadLetters.Requeues, OperatorOk, AppendsTo, OutcomeOf;
    ghost var s0, steps0 := redis.s, redis.steps;
    if life == 0 {
      redis.Quit(o);
      return false, [Step.Quit(o)], 0;
    }
    var err, step := AppendTo(redis, o, name, maxLen);
    if err {
      return false, [step], 0;
    }
    k := |steps0|;
    ghost var s1, steps1 := redis.s, redis.steps;
    RequeuedNow(redis.c, steps0, step, d);
    redis.Interfere(Requeuer(o));
    ghost var s2, steps2 := redis.s, redis.steps;
    GrowsTransitive(s0, s1, s2);
    DeadLetters.RequeuedStays(redis.c, steps1, steps2, k, d);
    ghost var last;
    ok, last := DeleteLetter(redis, o, 1 < life);
    rest := [step, last];
    DeadLetters.RequeuedStays(redis.c, steps2, redis.steps, k, d);
    GrowsTransitive(s0, s2, redis.s);
  }

  /** The delete after a confirmed XADD, unless the process dies. */
  method DeleteLetter(redis: Redis, o: nat, lives: bool) returns (ok: bool, ghost last: Step)
    requires redis.Valid() && o in redis.s.operators && redis.s.operators[o].resent
    modifies redis
    ensures redis.Valid() && Grows(old(redis.s), redis.s) && o !in redis.s.operators
    ensures redis.steps == old(redis.steps) + [last]
    ensures Mine(redis.steps, Requeuer(o)) == Mine(old(redis.steps), Requeuer(o)) + [last]
    ensures ok == lives && if ok then last.Remove? && last.o == o else last == Step.Quit(o)
  {
    hide Grows, Mine;
    if !lives {
      redis.Quit(o);
      return false, Step.Quit(o);
    }
    var out: Outcome := *;
    redis.Delete(o, out);
    return true, Step.Remove(o, out);
  }

  lemma RequeuedNow(c: Config, steps: seq<Step>, step: Step, d: nat)
    requires c.Valid() && Exec(c, Anything, steps).Some? && Exec(c, Anything, steps + [step]).Some?
    requires DeadLetters.Requeues(Exec(c, Anything, steps).value, step, Exec(c, Anything, steps + [step]).value, d)
    ensures DeadLetters.RequeuedAt(c, steps + [step], |steps|, d)
  {
    assert (steps + [step])[..|steps|] == steps;
  }

  lemma DeadLetterKept(c: Config, steps: seq<Step>, d: nat)
    requires c.Valid() && Exec(c, Anything, steps).Some?
    ensures var s := Exec(c, Anything, steps).value;
            d < |s.dlq.log| ==> DeadLetters.Accounted(c, steps, s, d)
  {
    if d < |Exec(c, Anything, steps).value.dlq.log| {
      DeadLetters.RequeueConserves(c, steps, d);
    }
  }
}
