/** What the streams hold, read off the steps of a run: their entries, their pending lists and the dead letters. */
module Ledger {
  import opened Options
  import opened Queue
  import opened Delivery
  import opened Timeline
  import opened Partition
  import Acks
  import Invariant

  // ---- Pending lists ----

  /** The step hands entry id of stream p to a worker: a read the first stored entry past the group's cursor, a reclaim
      the entry it names. */
  ghost predicate Hands(s: State, step: Step, p: nat, id: nat)
  {
    && p < |s.streams|
    && var st := s.streams[p];
       match step
       case Deliver(_, _, q) => q == p && id == if st.next < st.base then st.base else st.next
       case Reclaim(_, _, q, i) => q == p && i == id
       case _ => false
  }

  /** The step takes entry id of stream p off the pending list: an XACK that reached the server, or the purge of a
      trimmed entry. */
  ghost predicate Releases(s: State, step: Step, p: nat, id: nat)
  {
    match step
    case Ack(t, out) => out != NotApplied && t in s.tasks && s.tasks[t].part == p && s.tasks[t].id == id
    case Purge(q, i) => q == p && i == id
    case _ => false
  }

  /** After the first n steps, entry id of stream p is with whom step k handed it to. */
  ghost predicate HeldSince(c: Config, steps: seq<Step>, n: nat, p: nat, id: nat, k: nat)
    requires c.Valid() && Runs(c, steps) && n <= |steps|
  {
    && k < n && Hands(StateAt(c, steps, k), steps[k], p, id)
    && forall j :: k < j < n ==>
         !Hands(StateAt(c, steps, j), steps[j], p, id) && !Releases(StateAt(c, steps, j), steps[j], p, id)
  }

  /** What a step does to the pending list, entry by entry. */
  ghost predicate PelMoves(s: State, step: Step, s': State, p: nat, id: nat)
  {
    && p < |s.streams| && p < |s'.streams|
    && var pel, pel' := s.streams[p].pel, s'.streams[p].pel;
    if Hands(s, step, p, id) then
      (step.Deliver? || step.Reclaim?) && id in pel' && pel'[id] == Pending(step.worker, s.now)
    else if Releases(s, step, p, id) then id !in pel'
    else (id in pel' <==> id in pel) && (id in pel ==> pel'[id] == pel[id])
  }

  lemma TakeMoves(c: Config, s: State, step: Step, p: nat, id: nat)
    requires c.Valid() && Enabled(c, s, step) && p < |s.streams| && (step.Deliver? || step.Reclaim? || step.Purge?)
    ensures PelMoves(s, step, Apply(c, s, step), p, id)
  {
  }

  lemma AckMoves(c: Config, s: State, step: Step, p: nat, id: nat)
    requires c.Valid() && Enabled(c, s, step) && p < |s.streams| && step.Ack?
    ensures PelMoves(s, step, Apply(c, s, step), p, id)
  {
  }

  lemma AppendMoves(c: Config, s: State, step: Step, p: nat, id: nat)
    requires c.Valid() && Enabled(c, s, step) && p < |s.streams|
    requires step.Enqueue? || step.Copy? || step.Resend? || step.Inject?
    ensures PelMoves(s, step, Apply(c, s, step), p, id)
  {
  }

  predicate OnStreams(step: Step)
  {
    step.Enqueue? || step.Copy? || step.Resend? || step.Inject? || step.Deliver? || step.Reclaim? || step.Purge?
    || step.Ack?
  }

  lemma OthersSpareStreams(c: Config, s: State, step: Step)
    requires c.Valid() && Enabled(c, s, step) && !OnStreams(step)
    ensures Apply(c, s, step).streams == s.streams
  {
  }

  lemma StepMoves(c: Config, s: State, step: Step, p: nat, id: nat)
    requires c.Valid() && Enabled(c, s, step) && p < |s.streams|
    ensures PelMoves(s, step, Apply(c, s, step), p, id)
  {
    hide PelMoves, Apply, Enabled;
    if step.Deliver? || step.Reclaim? || step.Purge? {
      TakeMoves(c, s, step, p, id);
    } else if step.Ack? {
      AckMoves(c, s, step, p, id);
    } else if OnStreams(step) {
      AppendMoves(c, s, step, p, id);
    } else {
      OthersMove(c, s, step, p, id);
    }
  }

  lemma OthersMove(c: Config, s: State, step: Step, p: nat, id: nat)
    requires c.Valid() && Enabled(c, s, step) && p < |s.streams| && !OnStreams(step)
    ensures PelMoves(s, step, Apply(c, s, step), p, id)
  {
    OthersSpareStreams(c, s, step);
    hide Apply, Enabled;
  }

  lemma StreamsAt(c: Config, steps: seq<Step>, n: nat)
    requires c.Valid() && Runs(c, steps) && n <= |steps|
    ensures |StateAt(c, steps, n).streams| == c.partitions
    ensures n == 0 ==> StateAt(c, steps, n) == Init(c)
  {
    hide Invariant.Inv;
    assert steps[..0] == [];
    Invariant.RunKeeps(c, Anything, steps[..n]);
    Invariant.Facts(c, StateAt(c, steps, n), 0);
  }

  ghost predicate PendingKnown(c: Config, steps: seq<Step>, n: nat, p: nat, id: nat)
    requires c.Valid() && Runs(c, steps) && n <= |steps|
  {
    && p < |StateAt(c, steps, n).streams|
    && var pel := StateAt(c, steps, n).streams[p].pel;
    && (id in pel <==> exists k: nat :: HeldSince(c, steps, n, p, id, k))
    && forall k: nat :: HeldSince(c, steps, n, p, id, k) ==>
         && (steps[k].Deliver? || steps[k].Reclaim?)
         && pel[id] == Pending(steps[k].worker, StateAt(c, steps, k).now)
  }

  /** An entry is pending exactly if it was handed out and neither acknowledged nor purged since, and its record names
      the worker it was last handed to, and when. */
  lemma {:induction false} PendingExact(c: Config, steps: seq<Step>, n: nat, p: nat, id: nat)
    requires c.Valid() && Runs(c, steps) && n <= |steps| && p < c.partitions
    ensures PendingKnown(c, steps, n, p, id)
    decreases n
  {
    hide Exec, Runs, Hands, Releases;
    StreamsAt(c, steps, n);
    if 0 < n {
      PendingExact(c, steps, n - 1, p, id);
      OneStep(c, steps, n - 1);
      StepMoves(c, StateAt(c, steps, n - 1), steps[n - 1], p, id);
      hide Apply, Enabled;
      PendingMoves(c, steps, n - 1, n, p, id);
    }
  }

  /** The induction step. */
  lemma PendingMoves(c: Config, steps: seq<Step>, m: nat, n: nat, p: nat, id: nat)
    requires c.Valid() && Runs(c, steps) && m + 1 == n <= |steps|
    requires PelMoves(StateAt(c, steps, m), steps[m], StateAt(c, steps, n), p, id)
    requires PendingKnown(c, steps, m, p, id)
    ensures PendingKnown(c, steps, n, p, id)
  {
    hide Exec, Runs, Hands, Releases;
    var s, step := StateAt(c, steps, m), steps[m];
    if Hands(s, step, p, id) {
      assert HeldSince(c, steps, n, p, id, m);
    } else {
      forall k: nat
        ensures HeldSince(c, steps, n, p, id, k) <==> HeldSince(c, steps, m, p, id, k) && !Releases(s, step, p, id)
      {
      }
    }
  }

  // ---- Entries ----

  /** The step appends m to stream p. */
  ghost predicate Appends(c: Config, s: State, step: Step, p: nat, m: Payload)
    requires c.Valid()
  {
    match step
    case Enqueue(job, event, out, _) =>
      && out != NotApplied && p == PartitionFor(event.service, c.partitions)
      && m == Job(Envelope(job, event, s.now, 0, c.maxRetries, "log_event", ""))
    case Copy(t, out) =>
      && out != NotApplied && t in s.tasks && s.tasks[t].part == p && s.tasks[t].pc.Failing?
      && var env := s.tasks[t].env;
      m == Job(env.(retryCount := env.retryCount + 1, lastError := s.tasks[t].pc.err))
    case Resend(o, q, _, out, _) => out != NotApplied && q == p && o in s.operators && m == Job(s.operators[o].env)
    case Inject(q) => q == p && m == Malformed
    case _ => false
  }

  /** What the trimming of the step leaves of stream p, if it trims. */
  ghost function Cut(c: Config, step: Step, p: nat): Option<nat>
    requires c.Valid()
  {
    match step
    case Enqueue(_, event, out, cut) =>
      if out != NotApplied && p == PartitionFor(event.service, c.partitions) then Some(cut) else None
    case Resend(_, q, _, out, cut) => if out != NotApplied && q == p then Some(cut) else None
    case _ => None
  }

  /** The step acknowledges entry id of stream p: an XACK that reached the server while the entry was pending. */
  ghost predicate Acknowledges(s: State, step: Step, p: nat, id: nat)
  {
    && step.Ack? && step.out != NotApplied && step.t in s.tasks
    && s.tasks[step.t].part == p && s.tasks[step.t].id == id && p < |s.streams| && id in s.streams[p].pel
  }

  /** What a step does to the entries of a stream. */
  ghost predicate LogMoves(c: Config, s: State, step: Step, s': State, p: nat)
    requires c.Valid()
  {
    && p < |s.streams| && p < |s'.streams|
    && var st, st' := s.streams[p], s'.streams[p];
    && st'.base == (match Cut(c, step, p) case Some(cut) => cut case None => st.base)
    && (st'.log == st.log || (|st'.log| == |st.log| + 1 && st'.log[..|st.log|] == st.log
                              && Appends(c, s, step, p, st'.log[|st.log|])))
    && (forall m :: Appends(c, s, step, p, m) ==> st'.log == st.log + [m])
    && forall id :: id in st'.acked <==> id in st.acked || Acknowledges(s, step, p, id)
  }

  lemma EnqueueLogs(c: Config, s: State, step: Step, p: nat)
    requires c.Valid() && Enabled(c, s, step) && p < |s.streams| && step.Enqueue?
    ensures LogMoves(c, s, step, Apply(c, s, step), p)
  {
  }

  lemma CopyLogs(c: Config, s: State, step: Step, p: nat)
    requires c.Valid() && Enabled(c, s, step) && p < |s.streams| && step.Copy?
    ensures LogMoves(c, s, step, Apply(c, s, step), p)
  {
  }

  lemma AppendLogs(c: Config, s: State, step: Step, p: nat)
    requires c.Valid() && Enabled(c, s, step) && p < |s.streams| && (step.Resend? || step.Inject?)
    ensures LogMoves(c, s, step, Apply(c, s, step), p)
  {
  }

  lemma TakeLogs(c: Config, s: State, step: Step, p: nat)
    requires c.Valid() && Enabled(c, s, step) && p < |s.streams|
    requires step.Deliver? || step.Reclaim? || step.Purge? || step.Ack?
    ensures LogMoves(c, s, step, Apply(c, s, step), p)
  {
  }

  lemma OthersLog(c: Config, s: State, step: Step, p: nat)
    requires c.Valid() && Enabled(c, s, step) && p < |s.streams| && !OnStreams(step)
    ensures LogMoves(c, s, step, Apply(c, s, step), p)
  {
    OthersSpareStreams(c, s, step);
    hide Apply, Enabled;
  }

  lemma StepLogs(c: Config, s: State, step: Step, p: nat)
    requires c.Valid() && Enabled(c, s, step) && p < |s.streams|
    ensures LogMoves(c, s, step, Apply(c, s, step), p)
  {
    hide LogMoves, Apply, Enabled;
    if step.Enqueue? {
      EnqueueLogs(c, s, step, p);
    } else if step.Copy? {
      CopyLogs(c, s, step, p);
    } else if step.Resend? || step.Inject? {
      AppendLogs(c, s, step, p);
    } else if OnStreams(step) {
      TakeLogs(c, s, step, p);
    } else {
      OthersLog(c, s, step, p);
    }
  }

  /** Step k made m entry id of stream p. */
  ghost predicate AppendedAt(c: Config, steps: seq<Step>, k: nat, p: nat, id: nat, m: Payload)
    requires c.Valid() && Runs(c, steps)
  {
    && k < |steps|
    && var s := StateAt(c, steps, k);
    p < |s.streams| && |s.streams[p].log| == id && Appends(c, s, steps[k], p, m)
  }

  /** How far stream p has been trimmed: to where the last trimming left it. */
  ghost function TrimmedTo(c: Config, steps: seq<Step>, p: nat): nat
    requires c.Valid()
  {
    if steps == [] then 0
    else
      match Cut(c, steps[|steps| - 1], p)
      case Some(cut) => cut
      case None => TrimmedTo(c, steps[..|steps| - 1], p)
  }

  ghost predicate AcknowledgedAt(c: Config, steps: seq<Step>, k: nat, p: nat, id: nat)
    requires c.Valid() && Runs(c, steps)
  {
    k < |steps| && Acknowledges(StateAt(c, steps, k), steps[k], p, id)
  }

  ghost predicate EntryKnown(c: Config, steps: seq<Step>, n: nat, p: nat, id: nat)
    requires c.Valid() && Runs(c, steps) && n <= |steps|
  {
    && p < |StateAt(c, steps, n).streams|
    && var log := StateAt(c, steps, n).streams[p].log;
    && (id < |log| ==> exists k: nat :: k < n && AppendedAt(c, steps, k, p, id, log[id]))
    && (forall k: nat, m :: k < n && AppendedAt(c, steps, k, p, id, m) ==> id < |log| && log[id] == m)
    && (id in StateAt(c, steps, n).streams[p].acked <==>
          exists k: nat :: k < n && AcknowledgedAt(c, steps, k, p, id))
  }

  /** Every entry was appended by one step of the run, a new job, the next attempt of a failed one, a requeued dead
      letter or a malformed one, in the order of those steps; and each such step appended one. It counts as acknowledged
      exactly if an XACK reached the server while it was pending. */
  lemma {:induction false} EntryExact(c: Config, steps: seq<Step>, n: nat, p: nat, id: nat)
    requires c.Valid() && Runs(c, steps) && n <= |steps| && p < c.partitions
    ensures EntryKnown(c, steps, n, p, id)
    decreases n
  {
    hide Exec, Runs, Appends, Acknowledges;
    StreamsAt(c, steps, n);
    if 0 < n {
      EntryExact(c, steps, n - 1, p, id);
      OneStep(c, steps, n - 1);
      StepLogs(c, StateAt(c, steps, n - 1), steps[n - 1], p);
      hide Apply, Enabled;
      EntryMoves(c, steps, n - 1, n, p, id);
    }
  }

  lemma EntryMoves(c: Config, steps: seq<Step>, m: nat, n: nat, p: nat, id: nat)
    requires c.Valid() && Runs(c, steps) && m + 1 == n <= |steps|
    requires LogMoves(c, StateAt(c, steps, m), steps[m], StateAt(c, steps, n), p)
    requires EntryKnown(c, steps, m, p, id)
    ensures EntryKnown(c, steps, n, p, id)
  {
    hide Exec, Runs, Appends, Acknowledges, Cut;
    var log, log' := StateAt(c, steps, m).streams[p].log, StateAt(c, steps, n).streams[p].log;
    if id < |log'| {
      if id < |log| {
        var k: nat :| k < m && AppendedAt(c, steps, k, p, id, log[id]);
        assert k < n && AppendedAt(c, steps, k, p, id, log'[id]);
      } else {
        assert AppendedAt(c, steps, m, p, id, log'[id]);
      }
    }
    if id in StateAt(c, steps, m).streams[p].acked {
      var k: nat :| k < m && AcknowledgedAt(c, steps, k, p, id);
      assert k < n && AcknowledgedAt(c, steps, k, p, id);
    } else if Acknowledges(StateAt(c, steps, m), steps[m], p, id) {
      assert AcknowledgedAt(c, steps, m, p, id);
    }
  }

  /** A stream is trimmed to where its last trimming left it. */
  lemma {:induction false} TrimExact(c: Config, steps: seq<Step>, n: nat, p: nat)
    requires c.Valid() && Runs(c, steps) && n <= |steps| && p < c.partitions
    ensures p < |StateAt(c, steps, n).streams|
    ensures StateAt(c, steps, n).streams[p].base == TrimmedTo(c, steps[..n], p)
    decreases n
  {
    hide Exec, Runs, Appends, Acknowledges, Cut;
    StreamsAt(c, steps, n);
    if 0 < n {
      TrimExact(c, steps, n - 1, p);
      OneStep(c, steps, n - 1);
      StepLogs(c, StateAt(c, steps, n - 1), steps[n - 1], p);
      hide Apply, Enabled;
      assert steps[..n][..n - 1] == steps[..n - 1] && steps[..n][n - 1] == steps[n - 1];
    }
  }

  // ---- Dead letters ----

  /** The step writes dead letter e. */
  ghost predicate Writes(s: State, step: Step, e: DlqEntry)
  {
    && step.Bury? && step.out != NotApplied && step.t in s.tasks && s.tasks[step.t].pc.Failing?
    && var k := s.tasks[step.t]; var err := k.pc.err;
    e == DlqEntry(k.id, k.env.(retryCount := k.env.retryCount + 1, lastError := err), err, s.now)
  }

  /** The step deletes dead letter d: an operator's delete, or the one that ends a requeue. */
  ghost predicate Deletes(s: State, step: Step, d: nat)
  {
    match step
    case Erase(e, out) => e == d && out != NotApplied
    case Remove(o, out) => out != NotApplied && o in s.operators && s.operators[o].d == d
    case _ => false
  }

  /** How far the dead letter stream has been trimmed, by a dead letter or by a job requeued into it. */
  function DlqTrimmedTo(steps: seq<Step>): nat
  {
    if steps == [] then 0
    else
      match steps[|steps| - 1]
      case Bury(_, out, cut) => if out != NotApplied then cut else DlqTrimmedTo(steps[..|steps| - 1])
      case Strand(_, _, out, cut) => if out != NotApplied then cut else DlqTrimmedTo(steps[..|steps| - 1])
      case _ => DlqTrimmedTo(steps[..|steps| - 1])
  }

  ghost predicate DlqMoves(s: State, step: Step, s': State)
  {
    && (s'.dlq.log == s.dlq.log
        || (|s'.dlq.log| == |s.dlq.log| + 1 && s'.dlq.log[..|s.dlq.log|] == s.dlq.log
            && Writes(s, step, s'.dlq.log[|s.dlq.log|])))
    && (forall e :: Writes(s, step, e) ==> s'.dlq.log == s.dlq.log + [e])
    && (forall d :: d in s'.dlq.deleted <==> d in s.dlq.deleted || Deletes(s, step, d))
    && s'.dlq.base == match step
                      case Bury(_, out, cut) => if out != NotApplied then cut else s.dlq.base
                      case Strand(_, _, out, cut) => if out != NotApplied then cut else s.dlq.base
                      case _ => s.dlq.base
  }

  predicate OnDlq(step: Step)
  {
    step.Bury? || step.Strand? || step.Erase? || step.Remove?
  }

  lemma OthersSpareDlq(c: Config, s: State, step: Step)
    requires c.Valid() && Enabled(c, s, step) && !OnDlq(step)
    ensures Apply(c, s, step).dlq == s.dlq
  {
  }

  lemma DlqStep(c: Config, s: State, step: Step)
    requires c.Valid() && Enabled(c, s, step) && OnDlq(step)
    ensures DlqMoves(s, step, Apply(c, s, step))
  {
  }

  lemma StepDlq(c: Config, s: State, step: Step)
    requires c.Valid() && Enabled(c, s, step)
    ensures DlqMoves(s, step, Apply(c, s, step))
  {
    hide Apply, Enabled;
    if OnDlq(step) {
      DlqStep(c, s, step);
    } else {
      OthersSpareDlq(c, s, step);
    }
  }

  /** Step k wrote e as dead letter d. */
  ghost predicate WrittenAt(c: Config, steps: seq<Step>, k: nat, d: nat, e: DlqEntry)
    requires c.Valid() && Runs(c, steps)
  {
    && k < |steps|
    && var s := StateAt(c, steps, k);
    |s.dlq.log| == d && Writes(s, steps[k], e)
  }

  ghost predicate DeletedAt(c: Config, steps: seq<Step>, k: nat, d: nat)
    requires c.Valid() && Runs(c, steps)
  {
    k < |steps| && Deletes(StateAt(c, steps, k), steps[k], d)
  }

  ghost predicate LetterKnown(c: Config, steps: seq<Step>, n: nat, d: nat)
    requires c.Valid() && Runs(c, steps) && n <= |steps|
  {
    var q := StateAt(c, steps, n).dlq;
    && (d < |q.log| ==> exists k: nat :: k < n && WrittenAt(c, steps, k, d, q.log[d]))
    && (forall k: nat, e :: k < n && WrittenAt(c, steps, k, d, e) ==> d < |q.log| && q.log[d] == e)
    && (d in q.deleted <==> exists k: nat :: k < n && DeletedAt(c, steps, k, d))
  }

  /** Every dead letter was written by one send that reached the server, from the failed attempt it was about and when
      it was made, and each such send wrote one; it is deleted exactly if a delete of it reached the server. */
  lemma {:induction false} LetterExact(c: Config, steps: seq<Step>, n: nat, d: nat)
    requires c.Valid() && Runs(c, steps) && n <= |steps|
    ensures LetterKnown(c, steps, n, d)
    decreases n
  {
    hide Exec, Runs, Writes, Deletes;
    StreamsAt(c, steps, n);
    if 0 < n {
      LetterExact(c, steps, n - 1, d);
      OneStep(c, steps, n - 1);
      StepDlq(c, StateAt(c, steps, n - 1), steps[n - 1]);
      hide Apply, Enabled;
      LetterMoves(c, steps, n - 1, n, d);
    }
  }

  lemma LetterMoves(c: Config, steps: seq<Step>, m: nat, n: nat, d: nat)
    requires c.Valid() && Runs(c, steps) && m + 1 == n <= |steps|
    requires DlqMoves(StateAt(c, steps, m), steps[m], StateAt(c, steps, n)) && LetterKnown(c, steps, m, d)
    ensures LetterKnown(c, steps, n, d)
  {
    hide Exec, Runs, Writes, Deletes;
    var q, q' := StateAt(c, steps, m).dlq, StateAt(c, steps, n).dlq;
    if d < |q'.log| {
      if d < |q.log| {
        var k: nat :| k < m && WrittenAt(c, steps, k, d, q.log[d]);
        assert k < n && WrittenAt(c, steps, k, d, q'.log[d]);
      } else {
        assert WrittenAt(c, steps, m, d, q'.log[d]);
      }
    }
    if d in q.deleted {
      var k: nat :| k < m && DeletedAt(c, steps, k, d);
      assert k < n && DeletedAt(c, steps, k, d);
    } else if d in q'.deleted {
      assert DeletedAt(c, steps, m, d);
    }
  }

  /** The dead letter stream is trimmed to where its last trimming left it. */
  lemma {:induction false} DlqTrimExact(c: Config, steps: seq<Step>, n: nat)
    requires c.Valid() && Runs(c, steps) && n <= |steps|
    ensures StateAt(c, steps, n).dlq.base == DlqTrimmedTo(steps[..n])
    decreases n
  {
    hide Exec, Runs, Writes, Deletes;
    StreamsAt(c, steps, n);
    if 0 < n {
      DlqTrimExact(c, steps, n - 1);
      OneStep(c, steps, n - 1);
      StepDlq(c, StateAt(c, steps, n - 1), steps[n - 1]);
      hide Apply, Enabled;
      assert steps[..n][..n - 1] == steps[..n - 1] && steps[..n][n - 1] == steps[n - 1];
    }
  }

  lemma LettersExist(c: Config, s: State)
    requires Invariant.Inv(c, s)
    ensures forall d :: d in s.dlq.deleted ==> d < |s.dlq.log|
  {
  }

  /** The dead letters stored by the server. */
  ghost function Stored(q: Dlq): set<nat>
  {
    set d | q.base <= d < |q.log| && d !in q.deleted
  }

  lemma OneStored(q: Dlq, cut: nat, e: DlqEntry)
    requires q.base <= cut <= |q.log| && forall d :: d in q.deleted ==> d < |q.log|
    ensures |Stored(q.(log := q.log + [e], base := cut))| == |Stored(q.(base := cut))| + 1
  {
    var q' := q.(log := q.log + [e], base := cut);
    assert Stored(q') == Stored(q.(base := cut)) + {|q.log|};
  }

  /** The jobs that requeues put into the stream of this name. */
  ghost function Foreign(strays: seq<Stray>, name: string): set<int>
  {
    set i | 0 <= i < |strays| && strays[i].name == name
  }

  lemma {:induction false} StraysCounted(strays: seq<Stray>, name: string)
    ensures StraysIn(strays, name) == |Foreign(strays, name)|
  {
    if strays != [] {
      var n := |strays| - 1;
      StraysCounted(strays[..n], name);
      assert Foreign(strays, name) == Foreign(strays[..n], name) + if strays[n].name == name then {n} else {};
    }
  }

  /** A dead letter never trims its stream below DLQMaxLen entries, counting those that requeues put there. */
  lemma DlqFloor(c: Config, steps: seq<Step>, n: nat)
    requires c.Valid() && Runs(c, steps) && n < |steps| && steps[n].Bury?
    requires StateAt(c, steps, n).dlq.base < StateAt(c, steps, n + 1).dlq.base
    ensures c.dlqMaxLen <= |Stored(StateAt(c, steps, n + 1).dlq)| + |Foreign(StateAt(c, steps, n).strays, c.dlqName)|
  {
    var s := StateAt(c, steps, n);
    StraysCounted(s.strays, c.dlqName);
    hide Invariant.Inv;
    Invariant.RunKeeps(c, Anything, steps[..n]);
    LettersExist(c, s);
    OneStep(c, steps, n);
    hide Exec, Runs;
    BuryFloor(c, s, steps[n]);
  }

  lemma BuryFloor(c: Config, s: State, step: Step)
    requires c.Valid() && step.Bury? && Enabled(c, s, step) && forall d :: d in s.dlq.deleted ==> d < |s.dlq.log|
    requires s.dlq.base < Apply(c, s, step).dlq.base
    ensures c.dlqMaxLen <= |Stored(Apply(c, s, step).dlq)| + StraysIn(s.strays, c.dlqName)
  {
    var s' := Apply(c, s, step);
    OneStored(s.dlq, step.cut, s'.dlq.log[|s.dlq.log|]);
    assert Stored(s.dlq.(base := step.cut)) == set d | step.cut <= d < |s.dlq.log| && d !in s.dlq.deleted;
  }

  // ---- What the server can hand out ----

  lemma GuardsAt(c: Config, s: State, t: nat, w: nat, p: nat, id: nat)
    requires c.Valid() && p < |s.streams|
    ensures var st := s.streams[p];
            && (Enabled(c, s, Deliver(t, w, p)) <==>
                  t !in s.tasks && st.base < |st.log| && st.next < |st.log|)
            && (Enabled(c, s, Reclaim(t, w, p, id)) <==>
                  && t !in s.tasks && st.base <= id < |st.log| && id in st.pel
                  && st.pel[id].since + c.reclaimIdle <= s.now)
            && (Enabled(c, s, Purge(p, id)) <==> id < st.base && id in st.pel)
  {
  }

  /** What the environment may do at any time: malformed entries may appear in any partition, an operator may delete
      exactly the dead letters that are stored, and a producer may append any job that is new, with any trimming that
      leaves MaxLen entries. */
  lemma EnvironmentIff(c: Config, steps: seq<Step>, n: nat, p: nat, d: nat, job: JobId, event: LogEvent, out: Outcome,
                       cut: nat)
    requires c.Valid() && Runs(c, steps) && n <= |steps| && p < c.partitions
    ensures var s := StateAt(c, steps, n); var q := PartitionFor(event.service, c.partitions);
            && |s.streams| == c.partitions && Enabled(c, s, Inject(p))
            && (Enabled(c, s, Erase(d, out)) <==> DlqTrimmedTo(steps[..n]) <= d < |s.dlq.log| && d !in s.dlq.deleted)
            && (Enabled(c, s, Enqueue(job, event, out, cut)) <==>
                  && job !in s.h.accepted && s.streams[q].base <= cut
                  && (cut == s.streams[q].base || cut + c.maxLen <= |s.streams[q].log| + 1))
  {
    hide Invariant.Inv;
    StreamsAt(c, steps, n);
    DlqTrimExact(c, steps, n);
    Invariant.RunKeeps(c, Anything, steps[..n]);
    Invariant.Facts(c, StateAt(c, steps, n), 0);
    hide Exec, Runs, DlqTrimmedTo;
    EnqueueGuard(c, StateAt(c, steps, n), job, event, out, cut);
    OperatorGuard(c, StateAt(c, steps, n), p, d, out);
    hide Enabled;
  }

  lemma OperatorGuard(c: Config, s: State, p: nat, d: nat, out: Outcome)
    requires c.Valid() && p < |s.streams|
    ensures Enabled(c, s, Inject(p))
    ensures Enabled(c, s, Erase(d, out)) <==> s.dlq.base <= d < |s.dlq.log| && d !in s.dlq.deleted
  {
  }

  lemma EnqueueGuard(c: Config, s: State, job: JobId, event: LogEvent, out: Outcome, cut: nat)
    requires c.Valid() && Invariant.StreamsOk(c, s) && |s.streams| == c.partitions
    ensures var q := PartitionFor(event.service, c.partitions);
            Enabled(c, s, Enqueue(job, event, out, cut)) <==>
              && job !in s.h.accepted && s.streams[q].base <= cut
              && (cut == s.streams[q].base || cut + c.maxLen <= |s.streams[q].log| + 1)
  {
    hide Fnv32a;
    assert Invariant.StreamOk(s.streams[PartitionFor(event.service, c.partitions)]);
  }

  /** A free goroutine can be given the next entry by a read exactly if one is stored past the group's cursor, and entry
      id by a reclaim exactly if the entry is stored, was handed out and not released since, and that was at least
      ReclaimIdleTime ago; the server purges it exactly if it was trimmed instead. */
  lemma TakenIff(c: Config, steps: seq<Step>, n: nat, t: nat, w: nat, p: nat, id: nat)
    requires c.Valid() && Runs(c, steps) && n <= |steps| && p < c.partitions
    ensures var s := StateAt(c, steps, n);
            && |s.streams| == c.partitions
            && (Enabled(c, s, Deliver(t, w, p)) <==>
                  && t !in s.tasks && TrimmedTo(c, steps[..n], p) < |s.streams[p].log|
                  && s.streams[p].next < |s.streams[p].log|)
            && (Enabled(c, s, Reclaim(t, w, p, id)) <==>
                  && t !in s.tasks && TrimmedTo(c, steps[..n], p) <= id < |s.streams[p].log|
                  && exists k: nat :: HeldSince(c, steps, n, p, id, k)
                                      && StateAt(c, steps, k).now + c.reclaimIdle <= s.now)
            && (Enabled(c, s, Purge(p, id)) <==>
                  id < TrimmedTo(c, steps[..n], p) && exists k: nat :: HeldSince(c, steps, n, p, id, k))
  {
    StreamsAt(c, steps, n);
    PendingExact(c, steps, n, p, id);
    TrimExact(c, steps, n, p);
    hide Exec, Runs, Hands, Releases, TrimmedTo;
    GuardsAt(c, StateAt(c, steps, n), t, w, p, id);
    hide Enabled, HeldSince;
  }
}
