/** processMessage and DeduplicatingProcessor.Process over the shared server. */
module Workers {
  import opened Options
  import opened Queue
  import opened Delivery
  import opened Invariant
  import opened Cluster

  datatype Processed = Skipped | Succeeded | FailedWith(err: string) | Gone

  /** What a goroutine knows when Process returns. */
  ghost predicate ProcessedOk(c: Config, s: State, t: nat, k: Task, r: Processed)
  {
    var a := AttemptOf(k.env);
    match r
    case Gone => t !in s.tasks
    case Skipped => c.dedup && AtPc(s, t, Settling) && s.tasks[t] == k.(pc := Settling) && a in s.h.claimed
    case Succeeded => AtPc(s, t, Settling) && s.tasks[t] == k.(pc := Settling) && a in s.h.won
    case FailedWith(err) =>
      AtPc(s, t, Failing(err)) && s.tasks[t] == k.(pc := Failing(err)) && Failure(a, err) in s.h.failed
  }

  /** The commands Process may issue: a duplicate or a failed check never reaches downstream, and downstream
      is reached only through a check that claimed the key, or without deduplication. */
  ghost predicate ProcessTrace(c: Config, t: nat, r: Processed, trace: seq<Step>)
  {
    match r
    case Gone => trace != [] && trace[|trace| - 1] == Crash(t)
    case Skipped => c.dedup && |trace| == 1 && trace[0].Check? && trace[0].out == Ok
    case Succeeded => CalledTrace(c, t, trace, Success)
    case FailedWith(err) =>
      || CalledTrace(c, t, trace, Error(err))
      || (c.dedup && |trace| == 1 && trace[0].Check? && trace[0].out.Errs() && trace[0].err == err)
  }

  ghost predicate CalledTrace(c: Config, t: nat, trace: seq<Step>, result: Result)
  {
    var n := if c.dedup then 1 else 0;
    && |trace| == n + 2
    && (c.dedup ==> trace[0].Check? && trace[0].out == Ok)
    && trace[n] == Invoke(t) && trace[n + 1] == Return(t, result)
  }

  lemma ClaimedKeys(c: Config, steps: seq<Step>)
    requires c.Valid() && Exec(c, Anything, steps).Some?
    ensures var s := Exec(c, Anything, steps).value; s.keys.Keys <= s.h.claimed
  {
    hide Inv;
    RunKeeps(c, Anything, steps);
    Facts(c, Exec(c, Anything, steps).value, 0);
  }

  /** The downstream call of a goroutine that may make it. */
  method CallDownstream(redis: Redis, t: nat, lifetime: nat) returns (r: Processed, ghost trace: seq<Step>)
    requires redis.Valid() && AtPc(redis.s, t, Calling)
    modifies redis
    ensures redis.Valid() && Grows(old(redis.s), redis.s)
    ensures Mine(redis.steps, Goroutine(t)) == Mine(old(redis.steps), Goroutine(t)) + trace
    ensures !r.Skipped? && ProcessedOk(redis.c, redis.s, t, old(redis.s.tasks[t]), r)
    ensures Lived(lifetime, r.Gone?, trace)
    ensures match r
            case Gone => trace == [Crash(t)] || trace == [Invoke(t), Crash(t)]
            case Succeeded => trace == [Invoke(t), Return(t, Success)]
            case FailedWith(err) => trace == [Invoke(t), Return(t, Error(err))]
            case Skipped => true
  {
    ghost var s0 := redis.s;
    if lifetime == 0 {
      redis.Die(t);
      return Gone, [Crash(t)];
    }
    redis.Enter(t);
    ghost var s1 := redis.s;
    redis.Interfere(Goroutine(t));
    ghost var s2 := redis.s;
    GrowsTransitive(s0, s1, s2);
    if lifetime == 1 {
      redis.Die(t);
      GrowsTransitive(s0, s2, redis.s);
      return Gone, [Invoke(t), Crash(t)];
    }
    var result: Result := *;
    redis.Leave(t, result);
    GrowsTransitive(s0, s2, redis.s);
    r := match result case Success => Succeeded case Error(err) => FailedWith(err);
    trace := [Invoke(t), Return(t, result)];
  }

  /** The deduplication check: Some(r) when Process returns without a downstream call. */
  method CheckFirst(redis: Redis, t: nat) returns (r: Option<Processed>, ghost check: Step)
    requires redis.Valid() && redis.c.dedup && AtPc(redis.s, t, Checking)
    modifies redis
    ensures redis.Valid() && Grows(old(redis.s), redis.s)
    ensures Mine(redis.steps, Goroutine(t)) == Mine(old(redis.steps), Goroutine(t)) + [check]
    ensures check.Check? && check.t == t
    // However it was answered, a check that was applied leaves the attempt's key set and live: set anew for DedupTTL
    // when it was missing or expired, and untouched when it was live.
    ensures check.out.Applied() ==> !KeyFree(redis.s, AttemptOf(old(redis.s.tasks[t].env)))
    ensures var a := AttemptOf(old(redis.s.tasks[t].env));
            redis.s.keys ==
            if check.out == NotApplied || (a in old(redis.s.keys) && old(redis.s.now) < old(redis.s.keys)[a])
            then old(redis.s.keys)
            else old(redis.s.keys)[a := old(redis.s.now) + redis.c.dedupTtl]
    ensures redis.s.duplicates == old(redis.s.duplicates) + (if r == Some(Skipped) then 1 else 0)
    ensures match r
            case None =>
              check.out == Ok && AtPc(redis.s, t, Calling) && redis.s.tasks[t] == old(redis.s.tasks[t]).(pc := Calling)
            case Some(e) =>
              && ProcessedOk(redis.c, redis.s, t, old(redis.s.tasks[t]), e)
              && if check.out.Errs() then e == FailedWith(check.err) else e == Skipped
  {
    hide Grows, Mine;
    var out: Outcome := *;
    var err: string := *;
    var wasNew := KeyFree(redis.s, AttemptOf(redis.s.tasks[t].env));
    ClaimedKeys(redis.c, redis.steps);
    redis.SetNx(t, out, err);
    check := Check(t, out, err);
    if out.Errs() {
      return Some(FailedWith(err)), check;
    }
    r := if wasNew then None else Some(Skipped);
  }

  /** DeduplicatingProcessor.Process, or the plain processor when deduplication is off; `used` counts its commands. */
  method Process(redis: Redis, t: nat, lifetime: nat) returns (r: Processed, used: nat, ghost trace: seq<Step>)
    requires redis.Valid() && AtPc(redis.s, t, if redis.c.dedup then Checking else Calling)
    modifies redis
    ensures redis.Valid() && Grows(old(redis.s), redis.s)
    ensures Mine(redis.steps, Goroutine(t)) == Mine(old(redis.steps), Goroutine(t)) + trace
    ensures ProcessedOk(redis.c, redis.s, t, old(redis.s.tasks[t]), r)
    ensures ProcessTrace(redis.c, t, r, trace) && Lived(lifetime, r.Gone?, trace) && used == |trace|
  {
    hide KeyFree, Grows, Mine, Redis.Valid;
    if !redis.c.dedup {
      r, trace := CallDownstream(redis, t, lifetime);
      used := if r.Gone? then lifetime + 1 else 2;
      return;
    }
    ghost var s0 := redis.s;
    if lifetime == 0 {
      redis.Die(t);
      return Gone, 1, [Crash(t)];
    }
    var answer, check := CheckFirst(redis, t);
    if answer.Some? {
      return answer.value, 1, [check];
    }
    ghost var s1 := redis.s;
    redis.Interfere(Goroutine(t));
    ghost var s2 := redis.s;
    GrowsTransitive(s0, s1, s2);
    ghost var rest;
    r, rest := CallDownstream(redis, t, lifetime - 1);
    GrowsTransitive(s0, s2, redis.s);
    trace := [check] + rest;
    used := if r.Gone? then lifetime + 1 else 3;
  }

  /** Why an acknowledged entry needed no further work. */
  ghost predicate Answered(c: Config, s: State, a: Attempt)
  {
    Settled(s.h, a) || (c.dedup && a in s.h.claimed)
  }

  lemma AnsweredStays(c: Config, s: State, s': State, a: Attempt)
    requires Grows(s, s') && Answered(c, s, a)
    ensures Answered(c, s', a)
  {
  }

  /** The commands of one processMessage: those of Process, then those of Retry after an error, XACK otherwise, and a
      death between any two of them. */
  ghost predicate MessageTrace(c: Config, t: nat, env: Envelope, r: Processed, end: Ending, first: seq<Step>,
                               second: seq<Step>)
  {
    && ProcessTrace(c, t, r, first)
    && match r
       case Gone => second == [] && end == Died
       case FailedWith(_) => RetryTrace(c, t, env, end, second)
       case _ =>
         || (second == [Crash(t)] && end == Died)
         || (|second| == 1 && second[0].Ack? && end == if second[0].out == Ok then Acked else AckFailed)
  }

  /** The end of processMessage without an error: the acknowledgement, unless the goroutine dies before it. */
  method AckOrDie(redis: Redis, t: nat, lifetime: nat) returns (end: Ending, ghost trace: seq<Step>)
    requires redis.Valid() && AtPc(redis.s, t, Settling)
    modifies redis
    ensures redis.Valid() && Grows(old(redis.s), redis.s) && t !in redis.s.tasks
    ensures Mine(redis.steps, Goroutine(t)) == Mine(old(redis.steps), Goroutine(t)) + trace
    ensures Lived(lifetime, end == Died, trace) && |trace| == 1
    ensures if end == Died then trace[0] == Crash(t)
            else trace[0].Ack? && end == if trace[0].out == Ok then Acked else AckFailed
    ensures end == Acked ==> !Cluster.Pending(redis.s, old(redis.s.tasks[t]))
  {
    hide Grows, Mine;
    if lifetime == 0 {
      redis.Die(t);
      return Died, [Crash(t)];
    }
    ghost var out;
    end, out := Cluster.Ack(redis, t);
    trace := [Step.Ack(t, out)];
  }

  /** processMessage: process, then acknowledge or retry; the goroutine dies after `lifetime` commands, if it issues as
      many. It ends in every case; when its entry was acknowledged the attempt had succeeded, been copied,
      dead-lettered or dropped, or, with deduplication only, been claimed by somebody. */
  method ProcessMessage(redis: Redis, t: nat, cell: Cell, lifetime: nat)
    returns (end: Ending, ghost r: Processed, ghost first: seq<Step>, ghost second: seq<Step>)
    requires redis.Valid() && AtPc(redis.s, t, if redis.c.dedup then Checking else Calling)
    requires cell.env == redis.s.tasks[t].env
    modifies redis, cell
    ensures redis.Valid() && Grows(old(redis.s), redis.s) && t !in redis.s.tasks
    ensures Mine(redis.steps, Goroutine(t)) == Mine(old(redis.steps), Goroutine(t)) + (first + second)
    ensures MessageTrace(redis.c, t, old(cell.env), r, end, first, second)
    ensures Lived(lifetime, end == Died, first + second)
    ensures end == Acked ==>
              && !Cluster.Pending(redis.s, old(redis.s.tasks[t]))
              && Answered(redis.c, redis.s, AttemptOf(old(redis.s.tasks[t].env)))
  {
    hide ProcessTrace, RetryTrace, Grows, Mine;
    ghost var s0 := redis.s;
    ghost var k := redis.s.tasks[t];
    var processed, used;
    processed, used, first := Process(redis, t, lifetime);
    r, second := processed, [];
    ghost var s1 := redis.s;
    if processed.Gone? {
      return Died, r, first, second;
    }
    redis.Interfere(Goroutine(t));
    ghost var s2 := redis.s;
    GrowsTransitive(s0, s1, s2);
    if processed.FailedWith? {
      end, second := Retry(redis, t, cell, processed.err, lifetime - used);
    } else {
      AnsweredStays(redis.c, s1, s2, AttemptOf(k.env));
      end, second := AckOrDie(redis, t, lifetime - used);
      AnsweredStays(redis.c, s2, redis.s, AttemptOf(k.env));
    }
    GrowsTransitive(s0, s2, redis.s);
  }
}
