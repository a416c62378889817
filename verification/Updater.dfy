/** updateMetrics and Decision as code over the shared atomics, with everyone else's loads and stores in between. */
module Updater {
  import opened Options
  import opened Metrics
  import opened Numbers
  import Throttler

  datatype Owner = Publisher | Deciding(d: nat)

  predicate StepOf(step: Step, owner: Owner)
  {
    match step
    case Tick(_) => false
    case Fetched(_, _, _) => owner == Publisher
    case Store => owner == Publisher
    case Load(d) => owner == Deciding(d)
  }

  /** Other clients write neither what the publisher writes nor what a decider has read. */
  ghost predicate Spared(s: State, s': State, owner: Owner)
  {
    && s.now <= s'.now
    && match owner
       case Publisher =>
         && s'.samples == s.samples && s'.stored == s.stored
         && s'.depth == s.depth && s'.pending == s.pending && s'.age == s.age && s'.stamp == s.stamp
       case Deciding(d) =>
         (d in s'.deciders <==> d in s.deciders) && (d in s.deciders ==> s'.deciders[d] == s.deciders[d])
  }

  class Board {
    var s: State
    ghost var steps: seq<Step>

    /** The state is the one reached by the stores and loads so far. */
    ghost predicate Valid()
      reads this
    {
      Exec(steps) == Some(s)
    }

    constructor ()
      ensures Valid() && s == INIT
    {
      s := INIT;
      steps := [];
    }

    method Do(step: Step)
      requires Valid() && Enabled(s, step)
      modifies this
      ensures Valid() && s == Apply(old(s), step) && steps == old(steps) + [step]
    {
      s := Apply(s, step);
      steps := steps + [step];
      assert steps[..|steps| - 1] == old(steps);
    }

    /** Any number of stores, loads and ticks of everyone but the owner. */
    method Interfere(owner: Owner)
      requires Valid()
      modifies this
      ensures Valid() && Spared(old(s), s, owner)
    {
      var n: nat := *;
      while 0 < n
        invariant Valid() && Spared(old(s), s, owner)
      {
        var step: Step := *;
        if Enabled(s, step) && !StepOf(step, owner) {
          Do(step);
        }
        n := n - 1;
      }
    }

    /** One atomic store of the publisher, after whatever the others did. */
    method StoreOne()
      requires Valid() && s.stored < 4 && s.samples != []
      modifies this
      ensures Valid() && old(s.now) <= s.now
      ensures exists s1 :: Spared(old(s), s1, Publisher) && s == StoreNext(s1)
    {
      Interfere(Publisher);
      ghost var s1 := s;
      Do(Store);
    }

    method LoadOne(d: nat)
      requires Valid() && (d in s.deciders ==> s.deciders[d].phase != Done)
      modifies this
      ensures Valid() && d in s.deciders
      ensures exists s1 :: Spared(old(s), s1, Deciding(d)) && s == s1.(deciders := s1.deciders[d := LoadNext(s1, d)])
    {
      Interfere(Deciding(d));
      ghost var s1 := s;
      Do(Load(d));
    }
  }

  /** All four atomics come from update k. */
  ghost predicate Published(s: State, k: nat)
  {
    && s.stored == 4 && k == |s.samples| - 1
    && s.depth == Cell(s.samples[k].depth, k) && s.pending == Cell(s.samples[k].pending, k)
    && s.age == Cell(s.samples[k].age, k) && s.stamp == Cell(s.samples[k].at / NANOS, k)
  }

  /** updateMetrics: a failed depth query leaves every metric alone, a failed pending query publishes zeros
      for pending count and age, and all four atomics end up from the same update. */
  method UpdateMetrics(board: Board, depth: Option<int>, pending: Option<(int, int)>)
    requires board.Valid() && board.s.stored == 4
    modifies board
    ensures board.Valid() && board.s.stored == 4
    ensures depth == None ==> Spared(old(board.s), board.s, Publisher)
    ensures depth.Some? ==>
              var k := |old(board.s).samples|;
              var (count, age) := if pending.Some? then pending.value else (0, 0);
              && Published(board.s, k) && board.s.samples[..k] == old(board.s).samples
              && board.s.samples[k] == Sample(depth.value, count, age, board.s.samples[k].at)
              && old(board.s).now <= board.s.samples[k].at <= board.s.now
  {
    board.Interfere(Publisher);
    if depth == None {
      return;
    }
    var count, age := 0, 0;
    if pending.Some? {
      count, age := pending.value.0, pending.value.1;
    }
    board.Do(Fetched(depth.value, count, age));
    board.StoreOne();
    board.StoreOne();
    board.StoreOne();
    board.StoreOne();
  }

  /** Decision: it answers on exactly the values it loaded, takes the pending count only where it needs it,
      and throttles only on an update stamped within 2 * MetricsUpdateInterval. */
  method Decision(board: Board, c: Throttler.Config, d: nat) returns (r: (Throttler.Decision, int))
    requires board.Valid() && d !in board.s.deciders && (c.enabled ==> c.Valid())
    modifies board
    ensures board.Valid()
    ensures !c.enabled ==> r == (Throttler.Allow, 0) && board.s == old(board.s)
    ensures c.enabled ==> d in board.s.deciders
    ensures c.enabled ==>
              var k := board.s.deciders[d];
              && r == Throttler.Decide(c, k.depth.value, k.pending.value, k.age.value, k.stamp.value, k.checkedAt)
              && FromUpdate(board.s, k)
              && (!Throttler.Stale(c, k.stamp.value, k.checkedAt) ==> 3 <= Rank(k.phase))
              && (r.0 != Throttler.Allow ==>
                    && 3 <= Rank(k.phase) && k.stamp.version < |board.s.samples|
                    && 0 <= k.checkedAt - board.s.samples[k.stamp.version].at <= 2 * c.metricsUpdateInterval)
              && (r.0 == Throttler.RateLimit ==> k.phase == Done)
  {
    if !c.enabled {
      return (Throttler.Allow, 0);
    }
    r := DecideOn(board, c, d);
    NoOlderThanStamp(board.steps, d);
    FreshnessOfDecision(c, board.steps, d);
  }

  /** Decision when the throttler is enabled. */
  method DecideOn(board: Board, c: Throttler.Config, d: nat) returns (r: (Throttler.Decision, int))
    requires board.Valid() && d !in board.s.deciders && c.enabled && c.Valid()
    modifies board
    ensures board.Valid() && d in board.s.deciders && 1 <= Rank(board.s.deciders[d].phase)
    ensures var k := board.s.deciders[d];
            && r == Throttler.Decide(c, k.depth.value, k.pending.value, k.age.value, k.stamp.value, k.checkedAt)
            && (r.0 != Throttler.Allow || !Throttler.Stale(c, k.stamp.value, k.checkedAt) ==> 3 <= Rank(k.phase))
            && (r.0 == Throttler.RateLimit ==> k.phase == Done)
  {
    hide Throttler.Score, Throttler.RetryAfter, Throttler.Seconds;
    board.LoadOne(d);
    board.LoadOne(d);
    if Throttler.Stale(c, board.s.deciders[d].stamp.value, board.s.deciders[d].checkedAt) {
      return (Throttler.Allow, 0);
    }
    board.LoadOne(d);
    board.LoadOne(d);
    var depth, age := board.s.deciders[d].depth.value, Throttler.Seconds(board.s.deciders[d].age.value);
    var score := Throttler.Score(c, depth, age);
    if score > c.circuitOpenScore {
      return (Throttler.CircuitOpen, 0);
    }
    if score > c.rateLimitScore {
      board.LoadOne(d);
      return (Throttler.RateLimit, Throttler.RetryAfter(c, depth, board.s.deciders[d].pending.value, age));
    }
    r := (Throttler.Allow, 0);
  }
}
