/** Where a requeued job can go: the target of Requeue is any stream name, and only some of them are read by workers. */
module Targets {
  import opened Numbers
  import opened Options
  import opened Queue
  import opened Delivery
  import opened Invariant
  import opened Fate
  import opened Burial
  import DeadLetters
  import Partition

  /** The command with which Requeue appends to the stream of this name. */
  function RequeueStep(c: Config, s: State, o: nat, name: string, maxLen: nat, out: Outcome, cut: nat): Step
  {
    match Partition.PartitionOf(c.base, c.partitions, name)
    case Some(p) => Resend(o, p, maxLen, out, cut)
    case None => Strand(o, name, out, cut)
  }

  /** Entry id of partition p appears in the step from s to s'. */
  ghost predicate Added(s: State, s': State, p: nat, id: nat)
  {
    At(s', p, id) && !At(s, p, id)
  }

  /** Some continuation hands entry id of partition p to a worker. */
  ghost predicate ReachesWorker(c: Config, steps: seq<Step>, p: nat, id: nat)
    requires c.Valid()
  {
    exists more: seq<Step>, t: nat :: HandsOut(c, steps + more, t, p, id)
  }

  ghost predicate HandsOut(c: Config, steps: seq<Step>, t: nat, p: nat, id: nat)
    requires c.Valid()
  {
    var r := Exec(c, Anything, steps);
    r.Some? && t in r.value.tasks && r.value.tasks[t].part == p && r.value.tasks[t].id == id
  }

  lemma DeliverNext(c: Config, s: State, t: nat, p: nat)
    requires c.Valid() && CanDeliver(s, t, p)
    ensures var s' := DoDeliver(c, s, t, 0, p); var id := NextId(s.streams[p]);
            && PartOk(s', p) && s'.streams[p].log == s.streams[p].log && s'.streams[p].base == s.streams[p].base
            && NextId(s'.streams[p]) == id + 1
            && (s.streams[p].log[id].Job? ==> t in s'.tasks && s'.tasks[t].part == p && s'.tasks[t].id == id)
  {
  }

  /** A stored entry that the group has not reached yet can be delivered. */
  lemma {:induction false} DeliverUpTo(c: Config, steps: seq<Step>, s: State, p: nat, id: nat)
    returns (more: seq<Step>, t: nat)
    requires c.Valid() && Exec(c, Anything, steps) == Some(s)
    requires PartOk(s, p) && NextId(s.streams[p]) <= id < |s.streams[p].log| && s.streams[p].log[id].Job?
    ensures HandsOut(c, steps + more, t, p, id)
    decreases id - NextId(s.streams[p])
  {
    t := FreshKey(s.tasks);
    DeliverNext(c, s, t, p);
    ExecExtends(c, Anything, steps, s, Deliver(t, 0, p));
    more := [Deliver(t, 0, p)];
    if NextId(s.streams[p]) < id {
      var rest;
      rest, t := DeliverUpTo(c, steps + more, DoDeliver(c, s, t, 0, p), p, id);
      assert steps + (more + rest) == steps + more + rest;
      more := more + rest;
    }
  }

  lemma ResentReaches(c: Config, steps: seq<Step>, s: State, o: nat, p: nat, maxLen: nat, cut: nat)
    requires c.Valid() && Exec(c, Anything, steps) == Some(s) && CanResend(s, o, p, maxLen, cut)
    ensures var step := Resend(o, p, maxLen, Ok, cut);
            && Added(s, Apply(c, s, step), p, |s.streams[p].log|)
            && ReachesWorker(c, steps + [step], p, |s.streams[p].log|)
  {
    hide Inv;
    RunKeeps(c, Anything, steps);
    Facts(c, s, 0);
    var step := Resend(o, p, maxLen, Ok, cut);
    ExecExtends(c, Anything, steps, s, step);
    var s' := DoResend(s, o, p, Ok, cut);
    assert StreamOk(s.streams[p]);
    var more, t := DeliverUpTo(c, steps + [step], s', p, |s.streams[p].log|);
  }

  lemma StrandAdds(c: Config, s: State, o: nat, name: string, out: Outcome, cut: nat)
    requires CanStrand(c, s, o, name, cut)
    ensures DoStrand(s, o, name, out, cut).streams == s.streams
  {
  }

  /** The job that Requeue appends can be handed to a worker if and only if the target is the stream of a
      partition, in every state any run reaches. */
  lemma DeliveredIffPartition(c: Config, steps: seq<Step>, o: nat, name: string, maxLen: nat, cut: nat)
    requires c.Valid() && Exec(c, Anything, steps).Some?
    requires var s := Exec(c, Anything, steps).value; Enabled(c, s, RequeueStep(c, s, o, name, maxLen, Ok, cut))
    ensures var s := Exec(c, Anything, steps).value; var step := RequeueStep(c, s, o, name, maxLen, Ok, cut);
            (exists p: nat, id: nat :: Added(s, Apply(c, s, step), p, id) && ReachesWorker(c, steps + [step], p, id))
            <==> Partition.IsPartition(c.base, c.partitions, name)
  {
    var s := Exec(c, Anything, steps).value;
    hide ReachesWorker, Exec;
    match Partition.PartitionOf(c.base, c.partitions, name)
    case Some(p) => ResentReaches(c, steps, s, o, p, maxLen, cut);
    case None => StrandAdds(c, s, o, name, Ok, cut);
  }

  // ---- Stranding a job ----

  /** The job lies in a stream nobody reads, and nowhere else: not waiting, not dead-lettered, never successful. */
  ghost predicate Stranded(s: State, j: JobId)
  {
    && j in s.h.accepted && s.tasks == map[] && s.operators == map[]
    && !Outstanding(s, j) && !Trimmed(s, j) && !Succeeded(s, j)
    && (forall d: nat :: s.dlq.Holds(d) ==> s.dlq.log[d].env.job != j)
    && exists i :: 0 <= i < |s.strays| && s.strays[i].env.job == j
  }

  ghost predicate StrandedIn(c: Config, steps: seq<Step>, j: JobId)
    requires c.Valid()
  {
    Exec(c, Anything, steps).Some? && Stranded(Exec(c, Anything, steps).value, j)
  }

  /** The base name is never that of a partition. */
  lemma BaseIsOutside(base: string, count: nat)
    ensures !Partition.IsPartition(base, count, base)
  {
    Partition.ApartIff(base, count, base);
  }

  lemma BuriedQuiet(c: Config, s: State)
    requires c.Valid() && Buried(c, s)
    ensures s.dlq.Holds(0) && s.operators == map[] && !Outstanding(s, 0) && !Trimmed(s, 0) && !Succeeded(s, 0)
  {
  }

  /** With the base name as target, as the repository's own call has it, Requeue strands the job. */
  lemma StrandingRun(c: Config) returns (steps: seq<Step>)
    requires c.Valid() && c.hasDlq
    ensures StrandedIn(c, steps, 0)
  {
    var s: State;
    steps, s := BuriedRun(c, Anything);
    BuriedQuiet(c, s);
    BaseIsOutside(c.base, c.partitions);
    var job := Letter(c).env;
    assert s.dlq.log == [Letter(c)] && s.h.accepted == map[0 := EVENT] && s.tasks == map[] && s.strays == [];
    hide Buried, Partition.IsPartition;
    ExecExtends(c, Anything, steps, s, Fetch(0, 0));
    steps, s := steps + [Fetch(0, 0)], DoFetch(s, 0, 0);
    ExecExtends(c, Anything, steps, s, Strand(0, c.base, Ok, s.dlq.base));
    steps, s := steps + [Strand(0, c.base, Ok, s.dlq.base)], DoStrand(s, 0, c.base, Ok, s.dlq.base);
    assert s.strays[0].env == Revived(job);
    ExecExtends(c, Anything, steps, s, Remove(0, Ok));
    steps, s := steps + [Remove(0, Ok)], DoRemove(s, 0, Ok);
    assert s.operators == map[];
  }

  ghost predicate NoLetters(s: State)
  {
    s.dlq.log == [] && s.strays == [] && s.operators == map[]
  }

  lemma TaskNoLetters(c: Config, s: State, step: Step)
    requires c.Valid() && !c.hasDlq && NoLetters(s) && Enabled(c, s, step) && DeadLetters.OnTask(step)
    ensures NoLetters(Apply(c, s, step))
  {
  }

  lemma OtherNoLetters(c: Config, s: State, step: Step)
    requires c.Valid() && NoLetters(s) && Enabled(c, s, step) && !DeadLetters.OnTask(step)
    ensures NoLetters(Apply(c, s, step))
  {
  }

  lemma {:induction false} RunNoLetters(c: Config, steps: seq<Step>)
    requires c.Valid() && !c.hasDlq && Exec(c, Anything, steps).Some?
    ensures NoLetters(Exec(c, Anything, steps).value)
  {
    if steps != [] {
      var n := |steps| - 1;
      RunNoLetters(c, steps[..n]);
      hide NoLetters;
      if DeadLetters.OnTask(steps[n]) {
        TaskNoLetters(c, Exec(c, Anything, steps[..n]).value, steps[n]);
      } else {
        OtherNoLetters(c, Exec(c, Anything, steps[..n]).value, steps[n]);
      }
    }
  }

  /** Some run strands a job exactly when there is a dead letter queue to requeue from. */
  lemma StrandsIffDlq(c: Config)
    requires c.Valid()
    ensures (exists steps, j :: StrandedIn(c, steps, j)) <==> c.hasDlq
  {
    if c.hasDlq {
      var steps := StrandingRun(c);
      assert StrandedIn(c, steps, 0);
    } else {
      forall steps, j | StrandedIn(c, steps, j) ensures false {
        RunNoLetters(c, steps);
      }
    }
  }
}
