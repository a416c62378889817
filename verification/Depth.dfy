/** Stream depth only falls by trimming, so an open circuit stays open. */
module Depth {
  import opened Numbers
  import opened Options
  import opened Queue
  import opened Delivery
  import opened Invariant
  import Spacing

  /** The MAXLEN a step may trim a partition stream to; Requeue passes its own. */
  function TrimsTo(c: Config, step: Step): nat
  {
    if step.Resend? && 0 < step.maxLen then step.maxLen else c.maxLen
  }

  /** The smallest MAXLEN any command of the run may trim to. */
  function TrimFloor(c: Config, steps: seq<Step>): int
  {
    if steps == [] then c.maxLen else Min(TrimFloor(c, steps[..|steps| - 1]), TrimsTo(c, steps[|steps| - 1]))
  }

  lemma {:induction false} FloorBelow(c: Config, steps: seq<Step>, k: nat)
    requires k < |steps|
    ensures TrimFloor(c, steps) <= TrimsTo(c, steps[k]) && TrimFloor(c, steps) <= c.maxLen
  {
    if k < |steps| - 1 {
      FloorBelow(c, steps[..|steps| - 1], k);
    } else if 0 < k {
      FloorBelow(c, steps[..k], 0);
    }
  }

  /** Entries that are stored and unacknowledged. */
  ghost function Backlog(st: Stream): set<nat>
  {
    set id | st.base <= id < |st.log| && (st.next <= id || id in st.pel)
  }

  lemma {:induction false} IntervalSize(lo: nat, hi: nat, ids: set<nat>)
    requires lo <= hi && forall id :: id in ids ==> lo <= id < hi
    ensures |ids| <= hi - lo
    decreases hi - lo
  {
    if lo < hi {
      IntervalSize(lo + 1, hi, ids - {lo});
    } else {
      assert ids == {};
    }
  }

  lemma StreamCoversBacklog(st: Stream)
    requires st.base <= |st.log|
    ensures |Backlog(st)| <= Length(st)
  {
    IntervalSize(st.base, |st.log|, Backlog(st));
  }

  /** No stream below the floor gets shorter, and none falls below it. */
  ghost predicate DepthKept(s: State, s': State, floor: int)
  {
    && |s'.streams| == |s.streams|
    && forall p: nat :: p < |s.streams| ==> Min(Length(s.streams[p]), floor) <= Length(s'.streams[p])
  }

  ghost predicate NoneShrinks(s: State, s': State)
  {
    && |s'.streams| == |s.streams|
    && forall p: nat :: p < |s.streams| ==> Length(s.streams[p]) <= Length(s'.streams[p])
  }

  /** Consuming, acknowledging, retrying, reclaiming and dead-lettering never make a stream shorter. */
  lemma WorkerKeepsDepth(c: Config, s: State, step: Step)
    requires c.Valid() && Enabled(c, s, step) && !step.Enqueue? && !step.Resend?
    ensures NoneShrinks(s, Apply(c, s, step))
  {
    match step
    case Copy(t, out) => CopyKeepsDepth(s, t, out);
    case Ack(t, out) => AckKeepsDepth(s, t, out);
    case _ =>
  }

  lemma CopyKeepsDepth(s: State, t: nat, out: Outcome)
    requires CanCopy(s, t)
    ensures NoneShrinks(s, DoCopy(s, t, out))
  {
  }

  lemma AckKeepsDepth(s: State, t: nat, out: Outcome)
    requires CanAck(s, t)
    ensures NoneShrinks(s, DoAck(s, t, out))
  {
  }

  lemma StepKeepsDepth(c: Config, s: State, step: Step, floor: int)
    requires c.Valid() && StreamsOk(c, s) && Enabled(c, s, step) && floor <= c.maxLen && floor <= TrimsTo(c, step)
    ensures DepthKept(s, Apply(c, s, step), floor)
  {
    if !step.Enqueue? && !step.Resend? {
      WorkerKeepsDepth(c, s, step);
    }
  }

  /** What a dead letter stream that is a partition's stream would do: the XADD of a dead letter, which no consumer can
      decode, may leave a longer stream with exactly DLQMaxLen entries. */
  lemma CollisionShortens(c: Config, st: Stream) returns (cut: nat)
    requires c.Valid() && st.base <= |st.log| && c.dlqMaxLen <= Length(st)
    ensures CutAllowed(st, c.dlqMaxLen, cut) && Length(Append(st, Malformed, cut)) == c.dlqMaxLen
  {
    cut := |st.log| + 1 - c.dlqMaxLen;
  }

  // ---- Over runs ----

  /** The length of stream p after the first k steps. */
  ghost function LengthAt(c: Config, steps: seq<Step>, k: nat, p: nat): int
    requires c.Valid() && k <= |steps|
  {
    var r := Exec(c, Anything, steps[..k]);
    if r.Some? && p < |r.value.streams| then Length(r.value.streams[p]) else 0
  }

  lemma LengthNat(c: Config, steps: seq<Step>, k: nat, p: nat)
    requires c.Valid() && k <= |steps|
    ensures 0 <= LengthAt(c, steps, k, p)
  {
    RunKeeps(c, Anything, steps[..k]);
  }

  lemma OneStepFloor(c: Config, steps: seq<Step>, k: nat, p: nat)
    requires c.Valid() && 0 < k <= |steps| && Exec(c, Anything, steps[..k]).Some?
    ensures Exec(c, Anything, steps[..k - 1]).Some?
    ensures Min(LengthAt(c, steps, k - 1, p), TrimFloor(c, steps)) <= LengthAt(c, steps, k, p)
  {
    hide Inv, Apply, Enabled, TrimFloor, TrimsTo;
    var pre := steps[..k];
    assert pre[..k - 1] == steps[..k - 1] && pre[k - 1] == steps[k - 1];
    var s := Exec(c, Anything, steps[..k - 1]).value;
    RunKeeps(c, Anything, steps[..k - 1]);
    Facts(c, s, 0);
    FloorBelow(c, steps, k - 1);
    StepKeepsDepth(c, s, steps[k - 1], TrimFloor(c, steps));
    LengthNat(c, steps, k, p);
  }

  /** Over any stretch of any run a stream keeps its length, down to the smallest MAXLEN in use. */
  lemma {:induction false} DepthFloor(c: Config, steps: seq<Step>, i: nat, k: nat, p: nat)
    requires c.Valid() && i <= k <= |steps| && Exec(c, Anything, steps[..k]).Some?
    ensures Min(LengthAt(c, steps, i, p), TrimFloor(c, steps)) <= LengthAt(c, steps, k, p)
    decreases k
  {
    if i < k {
      OneStepFloor(c, steps, k, p);
      hide Exec, LengthAt, TrimFloor;
      DepthFloor(c, steps, i, k - 1, p);
    }
  }

  /** What StreamLength adds up: partition i is asked for its length at some moment times[i] of the run. */
  ghost function Observed(c: Config, steps: seq<Step>, times: seq<nat>): int
    requires c.Valid() && forall i :: 0 <= i < |times| ==> times[i] <= |steps|
  {
    if times == [] then 0
    else
      var n := |times| - 1;
      Observed(c, steps, times[..n]) + LengthAt(c, steps, times[n], n)
  }

  lemma {:induction false} ObservedNat(c: Config, steps: seq<Step>, times: seq<nat>)
    requires c.Valid() && forall k :: 0 <= k < |times| ==> times[k] <= |steps|
    ensures 0 <= Observed(c, steps, times)
  {
    if times != [] {
      ObservedNat(c, steps, times[..|times| - 1]);
      LengthNat(c, steps, times[|times| - 1], |times| - 1);
    }
  }

  /** The unacknowledged entries of each partition at the moment it is asked. */
  ghost function BacklogSeen(c: Config, steps: seq<Step>, times: seq<nat>): int
    requires c.Valid() && forall i :: 0 <= i < |times| ==> times[i] <= |steps|
  {
    if times == [] then 0
    else
      var n := |times| - 1;
      BacklogSeen(c, steps, times[..n]) + BacklogAt(c, steps, times[n], n)
  }

  ghost function BacklogAt(c: Config, steps: seq<Step>, k: nat, p: nat): int
    requires c.Valid() && k <= |steps|
  {
    var r := Exec(c, Anything, steps[..k]);
    if r.Some? && p < |r.value.streams| then |Backlog(r.value.streams[p])| else 0
  }

  /** What StreamLength returns is at least the backlog over all partitions. */
  lemma {:induction false} DepthCoversBacklog(c: Config, steps: seq<Step>, times: seq<nat>)
    requires c.Valid() && forall i :: 0 <= i < |times| ==> times[i] <= |steps|
    ensures BacklogSeen(c, steps, times) <= Observed(c, steps, times)
  {
    if times != [] {
      var n := |times| - 1;
      DepthCoversBacklog(c, steps, times[..n]);
      OneBacklog(c, steps, times[n], n);
      hide BacklogAt, LengthAt;
    }
  }

  lemma OneBacklog(c: Config, steps: seq<Step>, k: nat, p: nat)
    requires c.Valid() && k <= |steps|
    ensures BacklogAt(c, steps, k, p) <= LengthAt(c, steps, k, p)
  {
    hide Inv;
    var r := Exec(c, Anything, steps[..k]);
    if r.Some? && p < |r.value.streams| {
      RunKeeps(c, Anything, steps[..k]);
      Facts(c, r.value, 0);
      assert StreamOk(r.value.streams[p]);
      StreamCoversBacklog(r.value.streams[p]);
    }
  }

  /** Reading each partition later loses nothing, unless some partition had reached the floor. */
  lemma {:induction false} ObservedGrows(c: Config, steps: seq<Step>, first: seq<nat>, second: seq<nat>)
    requires c.Valid() && |first| == |second| && Exec(c, Anything, steps).Some?
    requires forall i :: 0 <= i < |first| ==> first[i] <= second[i] <= |steps|
    ensures Observed(c, steps, first) <= Observed(c, steps, second) || TrimFloor(c, steps) <= Observed(c, steps, second)
  {
    if first != [] {
      var n := |first| - 1;
      ObservedGrows(c, steps, first[..n], second[..n]);
      Spacing.PrefixRuns(c, Anything, steps, second[n]);
      DepthFloor(c, steps, first[n], second[n], n);
      ObservedNat(c, steps, second[..n]);
      LengthNat(c, steps, second[n], n);
      hide Exec, LengthAt, TrimFloor;
    }
  }

  /** Once an observed depth exceeds a threshold below every MAXLEN in use, every later observation exceeds it:
      neither consumers nor admitted producers nor requeues bring the depth down again. */
  lemma DepthLatch(c: Config, steps: seq<Step>, first: seq<nat>, second: seq<nat>, threshold: real)
    requires c.Valid() && Exec(c, Anything, steps).Some?
    requires |first| == |second| && forall i :: 0 <= i < |first| ==> first[i] <= second[i] <= |steps|
    requires TrimFloor(c, steps) as real > threshold && Observed(c, steps, first) as real > threshold
    ensures Observed(c, steps, second) as real > threshold
  {
    ObservedGrows(c, steps, first, second);
    hide Observed, Exec, TrimFloor;
    var m, a, b := TrimFloor(c, steps), Observed(c, steps, first), Observed(c, steps, second);
    assert a as real <= b as real || m as real <= b as real;
  }
}
