/** A job leaves its service's partition only by a requeue aimed elsewhere. */
module Affinity {
  import opened Options
  import opened Queue
  import opened Delivery
  import opened Invariant
  import opened Fate
  import opened Burial
  import opened Partition
  import Targets

  /** Every job entry lies in the partition its service hashes to. */
  ghost predicate AtHome(c: Config, s: State)
    requires c.Valid()
  {
    forall p: nat, id: nat :: At(s, p, id) && Msg(s, p, id).Job? ==>
      PartitionFor(Msg(s, p, id).env.data.service, c.partitions) == p
  }

  /** Requeue takes its target stream from the caller. */
  ghost predicate ResendsHome(c: Config, s: State, step: Step)
    requires c.Valid()
  {
    step.Resend? && step.o in s.operators && step.out.Applied() ==>
      step.p == PartitionFor(s.operators[step.o].env.data.service, c.partitions)
  }

  lemma AppendStaysHome(c: Config, s: State, s': State)
    requires c.Valid() && AtHome(c, s) && Grows(s, s')
    requires forall p: nat, id: nat :: At(s', p, id) && !At(s, p, id) && Msg(s', p, id).Job? ==>
               PartitionFor(Msg(s', p, id).env.data.service, c.partitions) == p
    ensures AtHome(c, s')
  {
    forall p: nat, id: nat | At(s', p, id) && Msg(s', p, id).Job?
      ensures PartitionFor(Msg(s', p, id).env.data.service, c.partitions) == p
    {
      if At(s, p, id) {
        assert Msg(s', p, id) == Msg(s, p, id);
      }
    }
  }

  lemma CopyStaysHome(c: Config, s: State, t: nat, out: Outcome)
    requires c.Valid() && AtHome(c, s) && CanCopy(s, t) && TaskOk(c, s, s.tasks[t])
    ensures AtHome(c, DoCopy(s, t, out))
  {
    CopyGrows(s, t, out);
    AppendStaysHome(c, s, DoCopy(s, t, out));
  }

  lemma EnqueueStaysHome(c: Config, s: State, job: JobId, event: LogEvent, out: Outcome, cut: nat)
    requires c.Valid() && StreamsOk(c, s) && AtHome(c, s) && CanEnqueue(c, s, job, event, cut)
    ensures AtHome(c, DoEnqueue(c, s, job, event, out, cut))
  {
    if out.Applied() {
      EnqueueStreams(c, s, job, event, cut);
      AppendStaysHome(c, s, DoEnqueue(c, s, job, event, out, cut));
    }
  }

  /** Requeue keeps jobs at home exactly when it is aimed at the job's own partition. */
  lemma ResendHomeIff(c: Config, s: State, o: nat, p: nat, maxLen: nat, out: Outcome, cut: nat)
    requires c.Valid() && AtHome(c, s) && CanResend(s, o, p, maxLen, cut) && out.Applied()
    ensures AtHome(c, DoResend(s, o, p, out, cut)) <==>
            p == PartitionFor(s.operators[o].env.data.service, c.partitions)
  {
    var s' := DoResend(s, o, p, out, cut);
    var id := |s.streams[p].log|;
    assert At(s', p, id) && Msg(s', p, id) == Job(s.operators[o].env);
    forall q: nat, i: nat | At(s', q, i) && Msg(s', q, i).Job? && !(q == p && i == id)
      ensures PartitionFor(Msg(s', q, i).env.data.service, c.partitions) == q
    {
      assert At(s, q, i) && Msg(s, q, i) == Msg(s', q, i);
    }
  }

  ghost predicate SameLogs(s: State, s': State)
  {
    && |s'.streams| == |s.streams|
    && forall p: nat :: p < |s.streams| ==> s'.streams[p].log == s.streams[p].log
  }

  lemma OtherStepsKeepLogs(c: Config, s: State, step: Step)
    requires c.Valid() && Enabled(c, s, step)
    requires !(step.Enqueue? || step.Copy? || step.Resend? || step.Inject?)
    ensures SameLogs(s, Apply(c, s, step))
  {
  }

  lemma SameLogsHome(c: Config, s: State, s': State)
    requires c.Valid() && AtHome(c, s) && SameLogs(s, s')
    ensures AtHome(c, s')
  {
    forall p: nat, id: nat | At(s', p, id) && Msg(s', p, id).Job?
      ensures PartitionFor(Msg(s', p, id).env.data.service, c.partitions) == p
    {
      assert At(s, p, id) && Msg(s, p, id) == Msg(s', p, id);
    }
  }

  /** Every command but a misdirected requeue keeps the jobs at home. */
  lemma StepHomeIff(c: Config, s: State, step: Step)
    requires c.Valid() && Inv(c, s) && AtHome(c, s) && Enabled(c, s, step)
    ensures AtHome(c, Apply(c, s, step)) <==> ResendsHome(c, s, step)
  {
    hide Inv, AtHome;
    match step
    case Enqueue(j, e, out, cut) =>
      Facts(c, s, 0);
      EnqueueStaysHome(c, s, j, e, out, cut);
    case Copy(t, out) =>
      Facts(c, s, t);
      CopyStaysHome(c, s, t, out);
    case Resend(o, p, maxLen, out, cut) =>
      if out.Applied() {
        ResendHomeIff(c, s, o, p, maxLen, out, cut);
      } else {
        SameLogsHome(c, s, DoResend(s, o, p, out, cut));
      }
    case Inject(p) => InjectStaysHome(c, s, p);
    case _ =>
      OtherStepsKeepLogs(c, s, step);
      SameLogsHome(c, s, Apply(c, s, step));
  }

  lemma InjectStaysHome(c: Config, s: State, p: nat)
    requires c.Valid() && AtHome(c, s) && PartOk(s, p)
    ensures AtHome(c, DoInject(s, p))
  {
    AppendStaysHome(c, s, DoInject(s, p));
  }

  /** An entry that strayed stays where it is, for logs never shrink. */
  lemma AstrayStays(c: Config, s: State, s': State)
    requires c.Valid() && Grows(s, s') && !AtHome(c, s)
    ensures !AtHome(c, s')
  {
    var p: nat, id: nat :| At(s, p, id) && Msg(s, p, id).Job?
      && PartitionFor(Msg(s, p, id).env.data.service, c.partitions) != p;
    assert At(s', p, id) && Msg(s', p, id) == Msg(s, p, id);
  }

  /** Step k of the run is no misdirected requeue. */
  ghost predicate HomeAt(c: Config, steps: seq<Step>, k: nat)
    requires c.Valid() && k < |steps|
  {
    var r := Exec(c, Anything, steps[..k]);
    r.Some? ==> ResendsHome(c, r.value, steps[k])
  }

  ghost predicate RequeuesGoHome(c: Config, steps: seq<Step>)
    requires c.Valid()
  {
    forall k: nat :: k < |steps| ==> HomeAt(c, steps, k)
  }

  lemma HomeAtPrefix(c: Config, steps: seq<Step>, n: nat, k: nat)
    requires c.Valid() && k < n <= |steps|
    ensures HomeAt(c, steps[..n], k) == HomeAt(c, steps, k)
  {
    assert steps[..n][..k] == steps[..k];
  }

  lemma GoHomeSplits(c: Config, steps: seq<Step>)
    requires c.Valid() && steps != []
    ensures var n := |steps| - 1; RequeuesGoHome(c, steps) <==> RequeuesGoHome(c, steps[..n]) && HomeAt(c, steps, n)
  {
    var n := |steps| - 1;
    forall k: nat | k < n ensures HomeAt(c, steps[..n], k) == HomeAt(c, steps, k) {
      HomeAtPrefix(c, steps, n, k);
    }
    hide HomeAt;
  }

  /** After any run every entry lies in the stream of its service's hash if and only if every applied requeue of
      the run was aimed at its job's own partition; retries, reclaims, crashes and lost replies never matter. */
  lemma {:induction false} PartitionAffinity(c: Config, steps: seq<Step>)
    requires c.Valid() && Exec(c, Anything, steps).Some?
    ensures AtHome(c, Exec(c, Anything, steps).value) <==> RequeuesGoHome(c, steps)
  {
    if steps != [] {
      hide Inv, AtHome, RequeuesGoHome;
      var n := |steps| - 1;
      var s := Exec(c, Anything, steps[..n]).value;
      PartitionAffinity(c, steps[..n]);
      RunKeeps(c, Anything, steps[..n]);
      GoHomeSplits(c, steps);
      if AtHome(c, s) {
        StepHomeIff(c, s, steps[n]);
      } else {
        Facts(c, s, 0);
        StepGrows(c, s, steps[n]);
        AstrayStays(c, s, Apply(c, s, steps[n]));
      }
    } else {
      assert AtHome(c, Init(c));
    }
  }

  // ---- Which configurations can lose affinity ----

  ghost predicate GoesAstray(c: Config, steps: seq<Step>)
    requires c.Valid()
  {
    Exec(c, Anything, steps).Some? && !AtHome(c, Exec(c, Anything, steps).value)
  }

  /** The one dead letter is requeued to another partition. */
  lemma AstrayRun(c: Config) returns (steps: seq<Step>)
    requires c.Valid() && c.hasDlq && 2 <= c.partitions
    ensures GoesAstray(c, steps)
  {
    var s: State;
    steps, s := BuriedRun(c, Anything);
    var q: nat := if Home(c, EVENT) == 0 then 1 else 0;
    assert s.dlq.log == [Letter(c)] && s.operators == map[] && s.streams[q] == EMPTY_STREAM;
    hide Buried;
    ExecExtends(c, Anything, steps, s, Fetch(0, 0));
    steps, s := steps + [Fetch(0, 0)], DoFetch(s, 0, 0);
    ExecExtends(c, Anything, steps, s, Resend(0, q, 0, Ok, 0));
    steps, s := steps + [Resend(0, q, 0, Ok, 0)], DoResend(s, 0, q, Ok, 0);
    assert At(s, q, 0) && Msg(s, q, 0) == Job(Revived(Letter(c).env));
  }

  /** Some run breaks affinity exactly when there are two partitions and a dead letter queue to requeue from. */
  lemma AstrayIff(c: Config)
    requires c.Valid()
    ensures (exists steps :: GoesAstray(c, steps)) <==> 2 <= c.partitions && c.hasDlq
  {
    if 2 <= c.partitions && c.hasDlq {
      var steps := AstrayRun(c);
    } else {
      forall steps | GoesAstray(c, steps) ensures false {
        hide Inv;
        RunKeeps(c, Anything, steps);
        Facts(c, Exec(c, Anything, steps).value, 0);
        if !c.hasDlq {
          NoRequeues(c, steps);
          PartitionAffinity(c, steps);
        }
      }
    }
  }

  lemma NoRequeues(c: Config, steps: seq<Step>)
    requires c.Valid() && !c.hasDlq && Exec(c, Anything, steps).Some?
    ensures RequeuesGoHome(c, steps)
  {
    forall k: nat | k < |steps| ensures HomeAt(c, steps, k) {
      if Exec(c, Anything, steps[..k]).Some? {
        Targets.RunNoLetters(c, steps[..k]);
      }
    }
  }
}
