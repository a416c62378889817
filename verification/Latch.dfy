/** Exactly when an observed depth beyond a threshold can fall below it again. */
module Latch {
  import opened Numbers
  import opened Options
  import opened Queue
  import opened Delivery
  import opened Invariant
  import opened Fate
  import opened Burial
  import opened Depth
  import Targets

  /** In this run StreamLength first returns more than the threshold, and later, each partition asked no earlier than
      before, no more than it. */
  ghost predicate Breaks(c: Config, steps: seq<Step>, first: seq<nat>, second: seq<nat>, threshold: real)
    requires c.Valid()
  {
    && Exec(c, Anything, steps).Some? && |first| == |second| == c.partitions
    && (forall i :: 0 <= i < |first| ==> first[i] <= second[i] <= |steps|)
    && Observed(c, steps, first) as real > threshold >= Observed(c, steps, second) as real
  }

  // ---- When it cannot ----

  lemma NoResends(c: Config, steps: seq<Step>)
    requires c.Valid() && !c.hasDlq && steps != [] && Exec(c, Anything, steps).Some?
    ensures !steps[|steps| - 1].Resend?
  {
    Targets.RunNoLetters(c, steps[..|steps| - 1]);
  }

  /** No MAXLEN in use is at or below the threshold. */
  lemma {:induction false} FloorAbove(c: Config, steps: seq<Step>, threshold: real)
    requires c.Valid() && Exec(c, Anything, steps).Some?
    requires c.maxLen as real > threshold && (!c.hasDlq || 1.0 > threshold)
    ensures TrimFloor(c, steps) as real > threshold
  {
    if steps != [] {
      FloorAbove(c, steps[..|steps| - 1], threshold);
      if !c.hasDlq {
        NoResends(c, steps);
      }
      hide Exec;
      assert TrimsTo(c, steps[|steps| - 1]) as real > threshold;
    }
  }

  // ---- When it can ----

  /** Only the home stream of the event holds entries, n of them. */
  ghost predicate OnlyHome(c: Config, s: State, n: int)
    requires c.Valid()
  {
    && |s.streams| == c.partitions
    && forall q: nat :: q < c.partitions ==> Length(s.streams[q]) == if q == Home(c, EVENT) then n else 0
  }

  /** Asked at one moment, the partitions add up to the home stream. */
  lemma {:induction false} SumHome(c: Config, steps: seq<Step>, k: nat, n: int, m: nat)
    requires c.Valid() && k <= |steps| && m <= c.partitions && Exec(c, Anything, steps[..k]).Some?
    requires OnlyHome(c, Exec(c, Anything, steps[..k]).value, n)
    ensures Observed(c, steps, seq(m, _ => k)) == if Home(c, EVENT) < m then n else 0
  {
    var times := seq(m, _ => k);
    if 0 < m {
      SumHome(c, steps, k, n, m - 1);
      assert times[..m - 1] == seq(m - 1, _ => k);
      hide Exec;
    }
  }

  lemma EnqueueHome(c: Config, s: State, job: JobId, cut: nat, n: int)
    requires c.Valid() && OnlyHome(c, s, n) && CanEnqueue(c, s, job, EVENT, cut)
    ensures var s' := DoEnqueue(c, s, job, EVENT, Ok, cut); var p := Home(c, EVENT);
            && OnlyHome(c, s', |s.streams[p].log| + 1 - cut) && s'.streams[p].base == cut
            && |s'.streams[p].log| == |s.streams[p].log| + 1
            && s'.dlq == s.dlq && s'.operators == s.operators
  {
  }

  /** n more jobs, none of them trimmed. */
  lemma {:induction false} Fill(c: Config, steps: seq<Step>, s: State, n: nat, have: nat)
    returns (steps': seq<Step>, s': State)
    requires c.Valid() && Exec(c, Anything, steps) == Some(s) && OnlyHome(c, s, have)
    requires s.streams[Home(c, EVENT)].base == 0
    ensures Exec(c, Anything, steps') == Some(s') && OnlyHome(c, s', have + n) && steps <= steps'
    ensures s'.streams[Home(c, EVENT)].base == 0 && s'.dlq == s.dlq && s'.operators == s.operators
  {
    steps', s' := steps, s;
    if 0 < n {
      steps', s' := Fill(c, steps, s, n - 1, have);
      var job := FreshKey(s'.h.accepted);
      EnqueueHome(c, s', job, 0, have + n - 1);
      ExecExtends(c, Anything, steps', s', Enqueue(job, EVENT, Ok, 0));
      steps', s' := steps' + [Enqueue(job, EVENT, Ok, 0)], DoEnqueue(c, s', job, EVENT, Ok, 0);
    }
  }

  /** Two moments of a run with all entries in the home stream. */
  lemma TwoMoments(c: Config, steps: seq<Step>, more: seq<Step>, n: int, m: int, threshold: real)
    requires c.Valid() && Exec(c, Anything, steps).Some? && Exec(c, Anything, steps + more).Some?
    requires OnlyHome(c, Exec(c, Anything, steps).value, n) && OnlyHome(c, Exec(c, Anything, steps + more).value, m)
    requires n as real > threshold >= m as real
    ensures var parts := c.partitions;
            Breaks(c, steps + more, seq(parts, _ => |steps|), seq(parts, _ => |steps + more|), threshold)
  {
    var all := steps + more;
    assert all[..|steps|] == steps && all[..|all|] == all;
    SumHome(c, all, |steps|, n, c.partitions);
    SumHome(c, all, |all|, m, c.partitions);
  }

  /** Producers alone: a stream grown beyond the threshold is trimmed to MaxLen. */
  lemma ProducersBreak(c: Config, threshold: real) returns (steps: seq<Step>, first: seq<nat>, second: seq<nat>)
    requires c.Valid() && c.maxLen as real <= threshold
    ensures Breaks(c, steps, first, second, threshold)
  {
    var p, n := Home(c, EVENT), threshold.Floor + 1;
    var s;
    steps, s := Fill(c, [], Init(c), n, 0);
    var job := FreshKey(s.h.accepted);
    var cut := n + 1 - c.maxLen;
    var step := Enqueue(job, EVENT, Ok, cut);
    EnqueueHome(c, s, job, cut, n);
    ExecExtends(c, Anything, steps, s, step);
    TwoMoments(c, steps, [step], n, c.maxLen, threshold);
    first, second := seq(c.partitions, _ => |steps|), seq(c.partitions, _ => |steps + [step]|);
    steps := steps + [step];
  }

  lemma BuriedHome(c: Config, s: State)
    requires c.Valid() && Buried(c, s)
    ensures OnlyHome(c, s, c.maxRetries) && s.streams[Home(c, EVENT)].base == 0
    ensures s.dlq == Dlq([Letter(c)], 0, {}) && s.operators == map[]
  {
  }

  lemma ResendHome(c: Config, s: State, o: nat, n: nat)
    requires c.Valid() && OnlyHome(c, s, n) && 0 < n && s.streams[Home(c, EVENT)].base == 0
    requires o in s.operators && !s.operators[o].resent
    ensures CanResend(s, o, Home(c, EVENT), 1, n) && OnlyHome(c, DoResend(s, o, Home(c, EVENT), Ok, n), 1)
  {
  }

  /** A requeue with MAXLEN 1 leaves a single entry. */
  lemma RequeueBreaks(c: Config, threshold: real) returns (steps: seq<Step>, first: seq<nat>, second: seq<nat>)
    requires c.Valid() && c.hasDlq && 1.0 <= threshold
    ensures Breaks(c, steps, first, second, threshold)
  {
    hide OnlyHome, Buried;
    var p, n := Home(c, EVENT), threshold.Floor + 1 + c.maxRetries;
    var s;
    steps, s := BuriedRun(c, Anything);
    BuriedHome(c, s);
    steps, s := Fill(c, steps, s, threshold.Floor + 1, c.maxRetries);
    ExecExtends(c, Anything, steps, s, Fetch(0, 0));
    var s1 := DoFetch(s, 0, 0);
    assert OnlyHome(c, s1, n) by { SameHome(c, s, s1, n); }
    ResendHome(c, s1, 0, n);
    var step := Resend(0, p, 1, Ok, n);
    ExecExtends(c, Anything, steps + [Fetch(0, 0)], s1, step);
    var more := [Fetch(0, 0), step];
    assert steps + [Fetch(0, 0)] + [step] == steps + more;
    TwoMoments(c, steps, more, n, 1, threshold);
    first, second := seq(c.partitions, _ => |steps|), seq(c.partitions, _ => |steps + more|);
    steps := steps + more;
  }

  lemma SameHome(c: Config, s: State, s': State, n: int)
    requires c.Valid() && OnlyHome(c, s, n) && s'.streams == s.streams
    ensures OnlyHome(c, s', n)
  {
  }

  /** Some run brings an observed depth beyond the threshold back to it, exactly when the producers' MaxLen does not
      exceed the threshold, or there is a dead letter queue to requeue from, with a MAXLEN of the caller's, and the
      threshold leaves room for one entry. */
  lemma BreaksIff(c: Config, threshold: real)
    requires c.Valid() && 0.0 <= threshold
    ensures (exists steps, first, second :: Breaks(c, steps, first, second, threshold)) <==>
            c.maxLen as real <= threshold || (c.hasDlq && 1.0 <= threshold)
  {
    if c.maxLen as real <= threshold {
      var steps, first, second := ProducersBreak(c, threshold);
    } else if c.hasDlq && 1.0 <= threshold {
      var steps, first, second := RequeueBreaks(c, threshold);
    } else {
      forall steps, first, second ensures !Breaks(c, steps, first, second, threshold) {
        if Exec(c, Anything, steps).Some? && |first| == |second| && Observable(steps, first, second) {
          FloorAbove(c, steps, threshold);
          if Observed(c, steps, first) as real > threshold {
            DepthLatch(c, steps, first, second, threshold);
          }
        }
      }
    }
  }

  ghost predicate Observable(steps: seq<Step>, first: seq<nat>, second: seq<nat>)
    requires |first| == |second|
  {
    forall i :: 0 <= i < |first| ==> first[i] <= second[i] <= |steps|
  }
}
