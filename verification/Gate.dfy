/** The ingestion service: streams, the metrics sampled from them, the decision on those, and the enqueue it gates. */
module Gate {
  import opened Options
  import opened Queue
  import opened Delivery
  import opened Cluster
  import opened Producers
  import Depth
  import Metrics
  import Throttler
  import Updater

  // ---- The open circuit stays open ----

  /** Update v published the depth StreamLength returned after asking partition i at moment times[v][i] of the
      delivery run, and a later update asked each partition no earlier. Update 0 is the initial zero. */
  ghost predicate SampledFrom(c: Config, steps: seq<Step>, samples: seq<Metrics.Sample>, times: seq<seq<nat>>)
    requires c.Valid()
  {
    && |times| == |samples|
    && (forall v :: 1 <= v < |times| ==>
         Asked(c, steps, times[v]) && samples[v].depth == Depth.Observed(c, steps, times[v]))
    && (forall v, w :: 1 <= v <= w < |times| ==> NoEarlier(times[v], times[w]))
  }

  ghost predicate Asked(c: Config, steps: seq<Step>, moments: seq<nat>)
  {
    |moments| == c.partitions && forall i :: 0 <= i < |moments| ==> moments[i] <= |steps|
  }

  ghost predicate NoEarlier(first: seq<nat>, second: seq<nat>)
  {
    |first| == |second| && forall i :: 0 <= i < |first| ==> first[i] <= second[i]
  }

  /** Update k found the depth beyond the circuit threshold, which lies below every MAXLEN in use. */
  ghost predicate Tripped(c: Config, tc: Throttler.Config, steps: seq<Step>, samples: seq<Metrics.Sample>, k: nat)
    requires c.Valid()
  {
    var threshold := tc.circuitOpenScore * tc.softDepthLimit as real;
    && 1 <= k < |samples| && samples[k].depth as real > threshold
    && Depth.TrimFloor(c, steps) as real > threshold
  }

  lemma StaysDeep(c: Config, tc: Throttler.Config, steps: seq<Step>, samples: seq<Metrics.Sample>, times: seq<seq<nat>>,
                  k: nat, v: nat)
    requires c.Valid() && Exec(c, Anything, steps).Some? && SampledFrom(c, steps, samples, times)
    requires Tripped(c, tc, steps, samples, k) && k <= v < |samples|
    ensures samples[v].depth as real > tc.circuitOpenScore * tc.softDepthLimit as real
  {
    hide Exec, Depth.Observed, Depth.TrimFloor;
    assert NoEarlier(times[k], times[v]) && Asked(c, steps, times[k]) && Asked(c, steps, times[v]);
    Depth.DepthLatch(c, steps, times[k], times[v], tc.circuitOpenScore * tc.softDepthLimit as real);
  }

  /** Over every delivery run and every interleaving of updater and deciders: once update k has seen a depth beyond the
      circuit threshold, every decider that read the timestamp of update k or a later one, and not too long ago,
      opens the circuit. */
  lemma CircuitLatch(c: Config, tc: Throttler.Config, steps: seq<Step>, msteps: seq<Metrics.Step>, times: seq<seq<nat>>,
                     d: nat, k: nat)
    requires c.Valid() && tc.enabled && tc.Valid() && Exec(c, Anything, steps).Some? && Metrics.Exec(msteps).Some?
    requires var m := Metrics.Exec(msteps).value;
             && SampledFrom(c, steps, m.samples, times) && Tripped(c, tc, steps, m.samples, k)
             && d in m.deciders && 2 <= Metrics.Rank(m.deciders[d].phase) && k <= m.deciders[d].stamp.version
             && !Throttler.Stale(tc, m.deciders[d].stamp.value, m.deciders[d].checkedAt)
    ensures Metrics.DecisionOf(tc, Metrics.Exec(msteps).value.deciders[d]) == Throttler.CircuitOpen
  {
    hide Exec, Metrics.Exec, Throttler.Stale, SampledFrom, Tripped;
    var m := Metrics.Exec(msteps).value;
    forall v | k <= v < |m.samples|
      ensures m.samples[v].depth as real > tc.circuitOpenScore * tc.softDepthLimit as real
    {
      StaysDeep(c, tc, steps, m.samples, times, k, v);
    }
    Metrics.LatchedDecision(tc, msteps, d, k);
  }

  // ---- updateMetrics with its queries ----

  /** More commands on the server change nothing about what was asked before. */
  lemma SampledStays(c: Config, steps: seq<Step>, steps': seq<Step>, samples: seq<Metrics.Sample>, times: seq<seq<nat>>)
    requires c.Valid() && steps <= steps' && SampledFrom(c, steps, samples, times)
    ensures SampledFrom(c, steps', samples, times)
  {
    forall v | 1 <= v < |times|
      ensures Asked(c, steps', times[v]) && samples[v].depth == Depth.Observed(c, steps', times[v])
    {
      assert Asked(c, steps, times[v]);
      ObservedStays(c, steps, steps', times[v]);
    }
  }

  /** One more update, which asked every partition after all commands that earlier updates had seen. */
  lemma SampledMore(c: Config, before: seq<Step>, steps: seq<Step>, samples: seq<Metrics.Sample>,
                    sample: Metrics.Sample,
                    times: seq<seq<nat>>, moments: seq<nat>)
    requires c.Valid() && before <= steps && samples != [] && SampledFrom(c, before, samples, times)
    requires Asked(c, steps, moments) && forall i :: 0 <= i < |moments| ==> |before| <= moments[i]
    requires sample.depth == Depth.Observed(c, steps, moments)
    ensures SampledFrom(c, steps, samples + [sample], times + [moments])
  {
    SampledStays(c, before, steps, samples, times);
    hide Depth.Observed;
    forall v | 1 <= v < |times| ensures NoEarlier(times[v], moments) {
      assert Asked(c, before, times[v]);
    }
  }

  /** updateMetrics: unless one of its length queries errs it publishes one more sample, with the depth it read and the
      pending count and age it was given or zeros; what is published was sampled from the streams, under any
      interleaving with the other clients and with the deciders. */
  method UpdateMetrics(redis: Redis, board: Updater.Board, erring: set<nat>, pending: Option<(int, int)>,
                       ghost times: seq<seq<nat>>)
    returns (total: int, failed: bool, ghost times': seq<seq<nat>>)
    requires redis.Valid() && board.Valid() && board.s.stored == 4 && board.s.samples != []
    requires SampledFrom(redis.c, redis.steps, board.s.samples, times)
    modifies redis, board
    ensures redis.Valid() && board.Valid() && board.s.stored == 4 && board.s.samples != []
    ensures SampledFrom(redis.c, redis.steps, board.s.samples, times')
    ensures failed <==> SomeErrs(erring, redis.c.partitions)
    ensures failed ==> board.s.samples == old(board.s.samples) && times' == times
    ensures !failed ==>
              var k := |old(board.s.samples)|;
              var (count, age) := if pending.Some? then pending.value else (0, 0);
              && Updater.Published(board.s, k) && board.s.samples[..k] == old(board.s.samples)
              && board.s.samples[k] == Metrics.Sample(total, count, age, board.s.samples[k].at)
              && times' == times + [times'[|times|]]
  {
    ghost var before, samples := redis.steps, board.s.samples;
    ghost var moments;
    total, failed, moments := StreamLength(redis, erring);
    Updater.UpdateMetrics(board, if failed then None else Some(total), pending);
    if failed {
      SampledStays(redis.c, before, redis.steps, samples, times);
      times' := times;
    } else {
      ghost var k := |samples|;
      assert board.s.samples == samples + [board.s.samples[k]];
      SampledMore(redis.c, before, redis.steps, samples, board.s.samples[k], times, moments);
      times' := times + [moments];
    }
  }

  // ---- IngestLog ----

  datatype Ingested = QueueSaturated | RateLimited(retryAfter: int) | Invalid | EnqueueFailed | Accepted(id: nat)

  predicate ValidEvent(event: Option<LogEvent>)
  {
    event.Some? && event.value.level != "" && event.value.message != ""
  }

  /** What the answer says about the decision and the event. */
  ghost predicate Answers(r: Ingested, decision: (Throttler.Decision, int), event: Option<LogEvent>)
  {
    match decision.0
    case CircuitOpen => r == QueueSaturated
    case RateLimit => r == RateLimited(decision.1)
    case Allow =>
      if event == None || event.value.level == "" || event.value.message == "" then r == Invalid
      else r.Accepted? || r.EnqueueFailed?
  }

  /** The decision made on what decider d loaded. */
  ghost function Decided(tc: Throttler.Config, m: Metrics.State, d: nat): (Throttler.Decision, int)
    requires tc.enabled ==> tc.Valid() && d in m.deciders
  {
    if !tc.enabled then (Throttler.Allow, 0)
    else
      var k := m.deciders[d];
      Throttler.Decide(tc, k.depth.value, k.pending.value, k.age.value, k.stamp.value, k.checkedAt)
  }

  /** IngestLog: the throttler decides on the published metrics, then the event is validated, and only what passes both
      reaches the queue; everybody else is active in between. */
  method IngestLog(redis: Redis, board: Updater.Board, tc: Throttler.Config, d: nat, event: Option<LogEvent>,
                   job: JobId)
    returns (r: Ingested)
    requires redis.Valid() && job !in redis.s.h.accepted
    requires board.Valid() && d !in board.s.deciders && (tc.enabled ==> tc.Valid())
    modifies redis, board
    ensures redis.Valid() && board.Valid() && (tc.enabled ==> d in board.s.deciders)
    ensures Answers(r, Decided(tc, board.s, d), event)
    // A refused or invalid request issues no command; any other exactly one XADD.
    ensures var own := Producer({job});
            if r.Accepted? || r.EnqueueFailed? then
              |Mine(redis.steps, own)| == |Mine(old(redis.steps), own)| + 1
            else Mine(redis.steps, own) == Mine(old(redis.steps), own)
    ensures r == Invalid ==> event == None || event.value.level == "" || event.value.message == ""
    ensures r.Accepted? ==> event.Some? && event.value.level != "" && event.value.message != ""
    ensures r.Accepted? ==> Landed(redis.c, redis.s, job, event.value, r.id)
    // Once an update has tripped the circuit, a request whose decision is fresh and no older than it is refused.
    ensures tc.enabled ==> forall times: seq<seq<nat>>, k: nat ::
              Latched(redis.c, tc, redis.steps, board.s, times, d, k) ==> r == QueueSaturated
  {
    hide Throttler.Decide;
    var decision := Updater.Decision(board, tc, d);
    redis.Interfere(Producer({job}));
    if tc.enabled {
      LatchOpens(redis, board, tc, d);
    }
    hide Latched, Mine;
    match decision.0 {
      case CircuitOpen => return QueueSaturated;
      case RateLimit => return RateLimited(decision.1);
      case Allow =>
    }
    if !ValidEvent(event) {
      return Invalid;
    }
    ghost var before := redis.steps;
    var id, step := Producers.Enqueue(redis, job, event.value);
    if tc.enabled {
      LatchOpens(redis, board, tc, d);
    }
    r := if id == None then EnqueueFailed else Accepted(id.value);
  }

  ghost predicate Latched(c: Config, tc: Throttler.Config, steps: seq<Step>, m: Metrics.State, times: seq<seq<nat>>,
                          d: nat, k: nat)
    requires c.Valid()
  {
    && SampledFrom(c, steps, m.samples, times) && Tripped(c, tc, steps, m.samples, k)
    && d in m.deciders && k <= m.deciders[d].stamp.version
    && !Throttler.Stale(tc, m.deciders[d].stamp.value, m.deciders[d].checkedAt)
  }

  lemma LatchOpens(redis: Redis, board: Updater.Board, tc: Throttler.Config, d: nat)
    requires redis.Valid() && board.Valid() && tc.enabled && tc.Valid()
    requires d in board.s.deciders
    requires !Throttler.Stale(tc, board.s.deciders[d].stamp.value, board.s.deciders[d].checkedAt) ==>
               2 <= Metrics.Rank(board.s.deciders[d].phase)
    ensures forall times: seq<seq<nat>>, k: nat :: Latched(redis.c, tc, redis.steps, board.s, times, d, k) ==>
              Decided(tc, board.s, d).0 == Throttler.CircuitOpen
  {
    forall times: seq<seq<nat>>, k: nat | Latched(redis.c, tc, redis.steps, board.s, times, d, k)
      ensures Decided(tc, board.s, d).0 == Throttler.CircuitOpen
    {
      hide SampledFrom, Tripped, Throttler.Decide;
      CircuitLatch(redis.c, tc, redis.steps, board.steps, times, d, k);
    }
  }
}
