/** Retry counts along a job's life, and conservation across the dead letter stream. */
module DeadLetters {
  import opened Options
  import opened Queue
  import opened Delivery
  import opened Invariant

  /** Every entry a consumer can see carries a count below the limit and the accepted data; a positive
      count comes with the error of a failed attempt one below it. */
  lemma EntryCounts(c: Config, steps: seq<Step>, p: nat, id: nat)
    requires c.Valid() && Exec(c, Anything, steps).Some?
    requires var s := Exec(c, Anything, steps).value; At(s, p, id) && Msg(s, p, id).Job?
    ensures var s := Exec(c, Anything, steps).value; var env := Msg(s, p, id).env;
            && 0 <= env.retryCount < c.maxRetries == env.maxRetries
            && env.job in s.h.accepted && env.data == s.h.accepted[env.job]
            && (0 < env.retryCount ==> Failure(Attempt(env.job, env.retryCount - 1), env.lastError) in s.h.failed)
  {
    hide Inv;
    RunKeeps(c, Anything, steps);
    EntryKnown(c, Exec(c, Anything, steps).value, p, id);
  }

  lemma EntryKnown(c: Config, s: State, p: nat, id: nat)
    requires Inv(c, s) && At(s, p, id) && Msg(s, p, id).Job?
    ensures EntryOk(c, s.h, Msg(s, p, id).env)
  {
  }

  lemma LetterKnown(c: Config, s: State, d: nat)
    requires Inv(c, s) && d < |s.dlq.log|
    ensures BuriedOk(c, s, s.dlq.log[d])
  {
  }

  /** Every dead letter carries exactly MaxRetries, the accepted data, and the error of the last attempt. */
  lemma DeadLetterCounts(c: Config, steps: seq<Step>, d: nat)
    requires c.Valid() && Exec(c, Anything, steps).Some?
    requires d < |Exec(c, Anything, steps).value.dlq.log|
    ensures var s := Exec(c, Anything, steps).value; var e := s.dlq.log[d];
            && e.env.retryCount == c.maxRetries == e.env.maxRetries
            && e.env.job in s.h.accepted && e.env.data == s.h.accepted[e.env.job]
            && e.reason == e.env.lastError
            && Failure(Attempt(e.env.job, c.maxRetries - 1), e.reason) in s.h.failed
  {
    hide Inv;
    RunKeeps(c, Anything, steps);
    LetterKnown(c, Exec(c, Anything, steps).value, d);
  }

  ghost predicate CameFrom(c: Config, s: State, p: nat, e: DlqEntry)
  {
    HoldsAttempt(s, p, e.originalId, Attempt(e.env.job, c.maxRetries - 1))
  }

  /** Entry e.originalId of some stream was the last attempt of the dead letter's job. */
  ghost predicate FromEntry(c: Config, s: State, e: DlqEntry)
  {
    && e.sentAt <= s.now
    && exists p: nat :: CameFrom(c, s, p, e)
  }

  ghost predicate Origins(c: Config, s: State)
  {
    forall d :: 0 <= d < |s.dlq.log| ==> FromEntry(c, s, s.dlq.log[d])
  }

  lemma OriginStays(c: Config, s: State, s': State, e: DlqEntry)
    requires Grows(s, s') && FromEntry(c, s, e)
    ensures FromEntry(c, s', e)
  {
    var p: nat :| CameFrom(c, s, p, e);
    assert CameFrom(c, s', p, e);
  }

  lemma BuryOrigin(c: Config, s: State, t: nat, out: Outcome, cut: nat)
    requires t in s.tasks && TaskOk(c, s, s.tasks[t]) && EntryOk(c, s.h, s.tasks[t].env) && CanBury(c, s, t, cut)
    ensures var s' := DoBury(s, t, out, cut); var n := |s.dlq.log|;
            || s'.dlq.log == s.dlq.log
            || (s'.dlq.log[..n] == s.dlq.log && |s'.dlq.log| == n + 1 && FromEntry(c, s', s'.dlq.log[n]))
  {
    var s' := DoBury(s, t, out, cut);
    assert HoldsAttempt(s', s.tasks[t].part, s.tasks[t].id, Attempt(s.tasks[t].env.job, c.maxRetries - 1));
    assert out.Applied() ==> CameFrom(c, s', s.tasks[t].part, s'.dlq.log[|s.dlq.log|]);
  }

  lemma OthersSpareDlq(c: Config, s: State, step: Step)
    requires c.Valid() && Enabled(c, s, step) && !step.Bury?
    ensures Apply(c, s, step).dlq.log == s.dlq.log
  {
  }

  lemma StepOrigins(c: Config, s: State, step: Step)
    requires c.Valid() && Inv(c, s) && Origins(c, s) && Enabled(c, s, step)
    ensures Origins(c, Apply(c, s, step))
  {
    hide Inv, FromEntry;
    var s' := Apply(c, s, step);
    Facts(c, s, 0);
    StepGrows(c, s, step);
    forall d | 0 <= d < |s.dlq.log| ensures FromEntry(c, s', s.dlq.log[d]) {
      OriginStays(c, s, s', s.dlq.log[d]);
    }
    if step.Bury? {
      Facts(c, s, step.t);
      TaskEntry(c, s, step.t);
      BuryOrigin(c, s, step.t, step.out, step.cut);
    } else {
      OthersSpareDlq(c, s, step);
    }
    hide Apply, Enabled, Grows;
  }

  /** Every dead letter names the stream entry it came from. */
  lemma {:induction false} DeadLetterOrigin(c: Config, steps: seq<Step>)
    requires c.Valid() && Exec(c, Anything, steps).Some?
    ensures Origins(c, Exec(c, Anything, steps).value)
  {
    if steps != [] {
      hide Inv, Origins;
      var n := |steps| - 1;
      DeadLetterOrigin(c, steps[..n]);
      RunKeeps(c, Anything, steps[..n]);
      StepOrigins(c, Exec(c, Anything, steps[..n]).value, steps[n]);
    }
  }

  /** In state s the step is the applied XADD of a requeue of dead letter d, and the entry it appended is still, in the
      state `end`, where it was put: the job with the same id and data, count 0 and no error. */
  ghost predicate Requeues(s: State, step: Step, end: State, d: nat)
  {
    && d < |end.dlq.log|
    && var env := end.dlq.log[d].env.(retryCount := 0, lastError := "");
       match step
       case Resend(o, p, _, out, _) =>
         && o in s.operators && s.operators[o].d == d && out.Applied() && PartOk(s, p)
         && At(end, p, |s.streams[p].log|) && Msg(end, p, |s.streams[p].log|) == Job(env)
       case Strand(o, name, out, _) =>
         && o in s.operators && s.operators[o].d == d && out.Applied()
         && |s.strays| < |end.strays| && end.strays[|s.strays|] == Stray(name, env)
       case _ => false
  }

  /** Step k of the run requeued dead letter d. */
  ghost predicate RequeuedAt(c: Config, steps: seq<Step>, k: nat, d: nat)
    requires c.Valid()
  {
    && k < |steps| && Exec(c, Anything, steps[..k]).Some? && Exec(c, Anything, steps).Some?
    && Requeues(Exec(c, Anything, steps[..k]).value, steps[k], Exec(c, Anything, steps).value, d)
  }

  lemma RequeuesStays(s: State, step: Step, end: State, end': State, d: nat)
    requires Requeues(s, step, end, d) && Grows(end, end')
    ensures Requeues(s, step, end', d)
  {
  }

  lemma RequeuedStays(c: Config, steps: seq<Step>, steps': seq<Step>, k: nat, d: nat)
    requires c.Valid() && RequeuedAt(c, steps, k, d) && steps <= steps' && Exec(c, Anything, steps').Some?
    requires Grows(Exec(c, Anything, steps).value, Exec(c, Anything, steps').value)
    ensures RequeuedAt(c, steps', k, d)
  {
    hide Exec;
    assert steps'[..k] == steps[..k];
    RequeuesStays(Exec(c, Anything, steps[..k]).value, steps[k], Exec(c, Anything, steps).value,
                  Exec(c, Anything, steps').value, d);
  }

  lemma ResendRequeues(s: State, o: nat, p: nat, maxLen: nat, out: Outcome, cut: nat)
    requires CanResend(s, o, p, maxLen, cut) && OperatorOk(s, s.operators[o]) && out.Applied()
    ensures Requeues(s, Resend(o, p, maxLen, out, cut), DoResend(s, o, p, out, cut), s.operators[o].d)
  {
  }

  lemma StrandRequeues(c: Config, s: State, o: nat, name: string, out: Outcome, cut: nat)
    requires CanStrand(c, s, o, name, cut) && OperatorOk(s, s.operators[o]) && out.Applied()
    ensures Requeues(s, Strand(o, name, out, cut), DoStrand(s, o, name, out, cut), s.operators[o].d)
  {
  }

  ghost predicate GivesNothingBack(s: State, s': State)
  {
    s'.h.requeued == s.h.requeued && s'.h.stranded == s.h.stranded
  }

  predicate OnTask(step: Step)
  {
    step.Check? || step.Invoke? || step.Return? || step.Copy? || step.Bury? || step.Drop? || step.Ack? || step.Crash?
  }

  lemma TasksGiveNothingBack(c: Config, s: State, step: Step)
    requires c.Valid() && Enabled(c, s, step) && OnTask(step)
    ensures GivesNothingBack(s, Apply(c, s, step))
  {
  }

  lemma OthersGiveNothingBack(c: Config, s: State, step: Step)
    requires c.Valid() && Enabled(c, s, step) && !OnTask(step) && !step.Resend? && !step.Strand?
    ensures GivesNothingBack(s, Apply(c, s, step))
  {
  }

  /** Only the applied XADD of a requeue gives a dead letter back. */
  lemma StepGivesBack(c: Config, s: State, step: Step, d: nat)
    requires c.Valid() && Inv(c, s) && Enabled(c, s, step)
    requires !GivenBack(s.h, d) && GivenBack(Apply(c, s, step).h, d)
    ensures Requeues(s, step, Apply(c, s, step), d)
  {
    hide Inv, Requeues;
    if step.Resend? {
      DeadLetterFacts(c, s, step.o);
      if step.out.Applied() {
        ResendRequeues(s, step.o, step.p, step.maxLen, step.out, step.cut);
      }
    } else if step.Strand? {
      DeadLetterFacts(c, s, step.o);
      if step.out.Applied() {
        StrandRequeues(c, s, step.o, step.name, step.out, step.cut);
      }
    } else if OnTask(step) {
      TasksGiveNothingBack(c, s, step);
    } else {
      OthersGiveNothingBack(c, s, step);
    }
  }

  lemma {:induction false} GivenBackAt(c: Config, steps: seq<Step>, d: nat) returns (k: nat)
    requires c.Valid() && Exec(c, Anything, steps).Some? && GivenBack(Exec(c, Anything, steps).value.h, d)
    ensures RequeuedAt(c, steps, k, d)
  {
    hide Inv, Requeues, Apply, Enabled, Grows;
    var n := |steps| - 1;
    var s := Exec(c, Anything, steps[..n]).value;
    RunKeeps(c, Anything, steps[..n]);
    if GivenBack(s.h, d) {
      k := GivenBackAt(c, steps[..n], d);
      Facts(c, s, 0);
      StepGrows(c, s, steps[n]);
      RequeuedStays(c, steps[..n], steps, k, d);
    } else {
      StepGivesBack(c, s, steps[n], d);
      k := n;
    }
  }

  /** Dead letter d is held, was trimmed, was deleted by an operator, or was requeued by some step of the run. */
  ghost predicate Accounted(c: Config, steps: seq<Step>, s: State, d: nat)
    requires c.Valid()
  {
    s.dlq.Holds(d) || d < s.dlq.base || d in s.h.erased || exists k: nat :: RequeuedAt(c, steps, k, d)
  }

  /** A dead letter leaves its stream only by trimming, by an operator's Delete, or after the XADD of a requeue of this
      very dead letter was applied, to whatever target, and what that XADD appended is still in its place. */
  lemma RequeueConserves(c: Config, steps: seq<Step>, d: nat)
    requires c.Valid() && Exec(c, Anything, steps).Some?
    requires d < |Exec(c, Anything, steps).value.dlq.log|
    ensures Accounted(c, steps, Exec(c, Anything, steps).value, d)
  {
    hide Inv;
    RunKeeps(c, Anything, steps);
    var s := Exec(c, Anything, steps).value;
    if d in s.dlq.deleted && d !in s.h.erased {
      DeletedGivenBack(c, s, d);
      var k := GivenBackAt(c, steps, d);
    }
  }

  lemma DeletedGivenBack(c: Config, s: State, d: nat)
    requires Inv(c, s) && d in s.dlq.deleted && d !in s.h.erased
    ensures GivenBack(s.h, d)
  {
  }
}
