/**
 * Publication of the throttler's metrics: one updater stores depth, pending count, age and timestamp
 * in that order while any number of deciders load timestamp, depth, age and pending count in that order.
 */
module Metrics {
  import opened Numbers
  import opened Options
  import opened Throttler

  /** The results of one updateMetrics call; `at` is the clock when its timestamp was taken. */
  datatype Sample = Sample(depth: int, pending: int, age: int, at: nat)

  /** An atomic, with the number of the update that stored it. */
  datatype Cell = Cell(value: int, version: nat)

  datatype Phase = Stamped | Timed | DepthRead | AgeRead | Done

  /** A call of Decision in progress. */
  datatype Decider = Decider(phase: Phase, stamp: Cell, checkedAt: nat, depth: Cell, age: Cell, pending: Cell)

  datatype State = State(
    now: nat,
    samples: seq<Sample>,
    stored: nat,
    depth: Cell,
    pending: Cell,
    age: Cell,
    stamp: Cell,
    deciders: map<nat, Decider>)

  const ZERO := Cell(0, 0)

  /** All atomics start at zero, as update number 0. */
  const INIT := State(0, [Sample(0, 0, 0, 0)], 4, ZERO, ZERO, ZERO, ZERO, map[])

  datatype Step =
    | Tick(dt: nat)
    | Fetched(depth: int, pending: int, age: int)
    | Store
    | Load(d: nat)

  predicate Enabled(s: State, step: Step)
  {
    match step
    case Tick(_) => true
    case Fetched(_, _, _) => s.stored == 4
    case Store => s.stored < 4 && s.samples != []
    case Load(d) => d in s.deciders ==> s.deciders[d].phase != Done
  }

  function StoreNext(s: State): State
    requires s.samples != []
  {
    var k := |s.samples| - 1;
    var x := s.samples[k];
    var s1 := s.(stored := s.stored + 1);
    if s.stored == 0 then s1.(depth := Cell(x.depth, k))
    else if s.stored == 1 then s1.(pending := Cell(x.pending, k))
    else if s.stored == 2 then s1.(age := Cell(x.age, k))
    else s1.(stamp := Cell(s.now / NANOS, k), samples := s.samples[k := x.(at := s.now)])
  }

  function LoadNext(s: State, d: nat): Decider
  {
    if d !in s.deciders then Decider(Stamped, s.stamp, 0, ZERO, ZERO, ZERO)
    else
      var r := s.deciders[d];
      match r.phase
      case Stamped => r.(phase := Timed, checkedAt := s.now)
      case Timed => r.(phase := DepthRead, depth := s.depth)
      case DepthRead => r.(phase := AgeRead, age := s.age)
      case AgeRead => r.(phase := Done, pending := s.pending)
      case Done => r
  }

  function Apply(s: State, step: Step): State
    requires Enabled(s, step)
  {
    match step
    case Tick(dt) => s.(now := s.now + dt)
    case Fetched(depth, pending, age) => s.(samples := s.samples + [Sample(depth, pending, age, 0)], stored := 0)
    case Store => StoreNext(s)
    case Load(d) => s.(deciders := s.deciders[d := LoadNext(s, d)])
  }

  function Exec(steps: seq<Step>): Option<State>
  {
    if steps == [] then Some(INIT)
    else
      var n := |steps| - 1;
      match Exec(steps[..n])
      case None => None
      case Some(s) => if Enabled(s, steps[n]) then Some(Apply(s, steps[n])) else None
  }

  // ---- The invariant ----

  ghost predicate CellsOk(s: State)
  {
    && s.samples != [] && s.stored <= 4 && (s.stored < 4 ==> 2 <= |s.samples|)
    && var k := |s.samples| - 1;
       && s.depth.version == (if 1 <= s.stored then k else k - 1)
       && s.pending.version == (if 2 <= s.stored then k else k - 1)
       && s.age.version == (if 3 <= s.stored then k else k - 1)
       && s.stamp.version == (if 4 <= s.stored then k else k - 1)
       && s.depth.value == s.samples[s.depth.version].depth
       && s.pending.value == s.samples[s.pending.version].pending
       && s.age.value == s.samples[s.age.version].age
       && s.stamp.value == s.samples[s.stamp.version].at / NANOS
  }

  function Rank(p: Phase): nat
  {
    match p
    case Stamped => 0
    case Timed => 1
    case DepthRead => 2
    case AgeRead => 3
    case Done => 4
  }

  /** What a decider has read so far comes from its timestamp's update or a later one. */
  ghost predicate DeciderOk(s: State, r: Decider)
  {
    var k := r.stamp.version;
    && k <= s.stamp.version < |s.samples|
    && r.stamp.value == s.samples[k].at / NANOS
    && (1 <= Rank(r.phase) ==> s.samples[k].at <= r.checkedAt <= s.now)
    && (2 <= Rank(r.phase) ==> k <= r.depth.version < |s.samples| && r.depth.value == s.samples[r.depth.version].depth)
    && (3 <= Rank(r.phase) ==> k <= r.age.version < |s.samples| && r.age.value == s.samples[r.age.version].age)
    && (4 <= Rank(r.phase) ==>
         k <= r.pending.version < |s.samples| && r.pending.value == s.samples[r.pending.version].pending)
  }

  ghost predicate Inv(s: State)
  {
    && CellsOk(s)
    && (forall k :: 0 <= k < |s.samples| ==> s.samples[k].at <= s.now)
    && (forall d :: d in s.deciders ==> DeciderOk(s, s.deciders[d]))
  }

  lemma StoreKeeps(s: State)
    requires Inv(s) && Enabled(s, Store)
    ensures Inv(StoreNext(s))
  {
    var s' := StoreNext(s);
    assert CellsOk(s');
    forall d | d in s'.deciders ensures DeciderOk(s', s'.deciders[d]) {
      assert DeciderOk(s, s.deciders[d]);
    }
  }

  lemma StepKeeps(s: State, step: Step)
    requires Inv(s) && Enabled(s, step)
    ensures Inv(Apply(s, step))
  {
    match step
    case Store => StoreKeeps(s);
    case Load(d) => assert d in s.deciders ==> DeciderOk(s, s.deciders[d]);
    case _ =>
      var s' := Apply(s, step);
      forall d | d in s'.deciders ensures DeciderOk(s', s'.deciders[d]) {
        assert DeciderOk(s, s.deciders[d]);
      }
  }

  lemma {:induction false} RunKeeps(steps: seq<Step>)
    ensures Exec(steps).Some? ==> Inv(Exec(steps).value)
  {
    if steps != [] && Exec(steps).Some? {
      RunKeeps(steps[..|steps| - 1]);
      StepKeeps(Exec(steps[..|steps| - 1]).value, steps[|steps| - 1]);
    }
  }

  // ---- What a decider decides on ----

  /** In every interleaving, a decider that read the timestamp of update k reads depth, age and pending
      count of update k or later, each as that update fetched it. */
  lemma NoOlderThanStamp(steps: seq<Step>, d: nat)
    requires Exec(steps).Some? && d in Exec(steps).value.deciders
    ensures FromUpdate(Exec(steps).value, Exec(steps).value.deciders[d])
  {
    RunKeeps(steps);
    assert DeciderOk(Exec(steps).value, Exec(steps).value.deciders[d]);
  }

  ghost predicate FromUpdate(s: State, r: Decider)
  {
    var k := r.stamp.version;
    && (2 <= Rank(r.phase) ==> k <= r.depth.version < |s.samples| && r.depth.value == s.samples[r.depth.version].depth)
    && (3 <= Rank(r.phase) ==> k <= r.age.version < |s.samples| && r.age.value == s.samples[r.age.version].age)
    && (4 <= Rank(r.phase) ==>
         k <= r.pending.version < |s.samples| && r.pending.value == s.samples[r.pending.version].pending)
  }

  ghost function DecisionOf(c: Config, r: Decider): Decision
    requires c.enabled && c.Valid()
  {
    Decide(c, r.depth.value, r.pending.value, r.age.value, r.stamp.value, r.checkedAt).0
  }

  /** Although timestamps are cut to whole seconds: a throttling decision rests on an update stamped within
      2 * MetricsUpdateInterval, and an update stamped at least a second more recently is never stale. */
  lemma FreshnessOfDecision(c: Config, steps: seq<Step>, d: nat)
    requires c.enabled && c.Valid() && Exec(steps).Some?
    requires d in Exec(steps).value.deciders && 1 <= Rank(Exec(steps).value.deciders[d].phase)
    ensures var s := Exec(steps).value; var r := s.deciders[d];
            r.stamp.version < |s.samples| &&
            var age := r.checkedAt - s.samples[r.stamp.version].at;
            && 0 <= age
            && (DecisionOf(c, r) != Allow ==> age <= 2 * c.metricsUpdateInterval)
            && (age + NANOS <= 2 * c.metricsUpdateInterval ==> !Stale(c, r.stamp.value, r.checkedAt))
  {
    RunKeeps(steps);
    var s := Exec(steps).value;
    var r := s.deciders[d];
    assert DeciderOk(s, r);
    var at := s.samples[r.stamp.version].at;
    assert at - NANOS < at / NANOS * NANOS <= at;
  }

  /** When every update from number k on found the depth beyond the circuit threshold, no decider that read
      the timestamp of update k or later lets a request through on fresh metrics. */
  lemma LatchedDecision(c: Config, steps: seq<Step>, d: nat, k: nat)
    requires c.enabled && c.Valid() && Exec(steps).Some?
    requires d in Exec(steps).value.deciders && 2 <= Rank(Exec(steps).value.deciders[d].phase)
    requires forall v :: k <= v < |Exec(steps).value.samples| ==>
               Exec(steps).value.samples[v].depth as real > c.circuitOpenScore * c.softDepthLimit as real
    requires var r := Exec(steps).value.deciders[d]; k <= r.stamp.version && !Stale(c, r.stamp.value, r.checkedAt)
    ensures DecisionOf(c, Exec(steps).value.deciders[d]) == CircuitOpen
  {
    NoOlderThanStamp(steps, d);
    var r := Exec(steps).value.deciders[d];
    hide Exec, Stale;
    DeepOpensCircuit(c, r.depth.value, r.pending.value, r.age.value, r.stamp.value, r.checkedAt);
  }
}
