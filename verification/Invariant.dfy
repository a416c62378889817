/** What every step of the delivery protocol keeps, under every fault. */
module Invariant {
  import opened Options
  import opened Queue
  import opened Delivery
  import Partition

  ghost predicate At(s: State, p: nat, id: nat)
  {
    p < |s.streams| && id < |s.streams[p].log|
  }

  ghost function Msg(s: State, p: nat, id: nat): Payload
    requires At(s, p, id)
  {
    s.streams[p].log[id]
  }

  ghost predicate HoldsAttempt(s: State, p: nat, id: nat, a: Attempt)
  {
    At(s, p, id) && Msg(s, p, id).Job? && AttemptOf(Msg(s, p, id).env) == a
  }

  /** Some stream was ever given an entry for this attempt. */
  ghost predicate Appended(s: State, a: Attempt)
  {
    exists p: nat, id: nat :: HoldsAttempt(s, p, id, a)
  }

  ghost predicate Settled(h: History, a: Attempt)
  {
    a in h.won || a in h.copied || a in h.sent || a in h.dropped
  }

  ghost predicate Carries(s: State, t: nat, a: Attempt)
  {
    t in s.tasks && Carrying(s.tasks[t].pc) && AttemptOf(s.tasks[t].env) == a
  }

  // ---- The parts of the invariant ----

  ghost predicate StreamOk(st: Stream)
  {
    && st.base <= |st.log|
    && st.next <= |st.log|
    && (forall id :: id in st.pel ==> id < st.next)
    && (forall id :: id in st.acked ==> id < st.next && id !in st.pel)
    && (forall id :: st.base <= id < st.next ==> id in st.pel || id in st.acked)
  }

  ghost predicate StreamsOk(c: Config, s: State)
  {
    |s.streams| == c.partitions && forall p: nat :: p < |s.streams| ==> StreamOk(s.streams[p])
  }

  /** The job and its data are the accepted ones, and a count above zero tells of a failed attempt. */
  ghost predicate LineageOk(c: Config, h: History, env: Envelope)
  {
    && env.maxRetries == c.maxRetries
    && env.job in h.accepted && h.accepted[env.job] == env.data
    && (0 < env.retryCount ==> Failure(Attempt(env.job, env.retryCount - 1), env.lastError) in h.failed)
  }

  ghost predicate EntryOk(c: Config, h: History, env: Envelope)
  {
    LineageOk(c, h, env) && 0 <= env.retryCount < c.maxRetries
  }

  ghost predicate EntriesOk(c: Config, s: State)
  {
    forall p: nat, id: nat :: At(s, p, id) && Msg(s, p, id).Job? ==> EntryOk(c, s.h, Msg(s, p, id).env)
  }

  ghost predicate TaskOk(c: Config, s: State, k: Task)
  {
    && At(s, k.part, k.id) && Msg(s, k.part, k.id) == Job(k.env)
    && k.id < s.streams[k.part].next
    && (c.dedup && (k.pc.Calling? || k.pc.Running?) ==> AttemptOf(k.env) in s.h.claimed)
    && (k.pc.Checking? ==> c.dedup)
    && (k.pc.Failing? ==> Failure(AttemptOf(k.env), k.pc.err) in s.h.failed)
    && (k.pc.Settling? ==> Settled(s.h, AttemptOf(k.env)) || AttemptOf(k.env) in s.h.claimed)
  }

  ghost predicate TasksOk(c: Config, s: State)
  {
    forall t :: t in s.tasks ==> TaskOk(c, s, s.tasks[t])
  }

  ghost predicate AckedEntryOk(s: State, p: nat, id: nat)
    requires At(s, p, id)
  {
    && Msg(s, p, id).Job?
    && (Settled(s.h, AttemptOf(Msg(s, p, id).env)) || AttemptOf(Msg(s, p, id).env) in s.h.claimed)
  }

  /** Only entries whose attempt has an outcome, or was claimed, are ever acknowledged. */
  ghost predicate AckedOk(s: State)
  {
    forall p: nat, id: nat :: At(s, p, id) && id in s.streams[p].acked ==> AckedEntryOk(s, p, id)
  }

  ghost predicate AppendedOk(s: State)
  {
    && (forall j :: j in s.h.accepted ==> Appended(s, Attempt(j, 0)))
    && (forall a: Attempt :: a in s.h.copied ==> Appended(s, Attempt(a.job, a.retry + 1)))
  }

  /** A claimed attempt has an outcome, or is being worked on, or was abandoned by its claimant. */
  ghost predicate ClaimsOk(c: Config, s: State)
  {
    && (!c.dedup ==> s.h.claimed == {})
    && s.keys.Keys <= s.h.claimed
    && (forall a :: a in s.h.claimed ==>
         Settled(s.h, a) || a in s.h.abandoned || exists t: nat :: Carries(s, t, a))
  }

  ghost predicate BuriedOk(c: Config, s: State, e: DlqEntry)
  {
    && LineageOk(c, s.h, e.env)
    && e.env.retryCount == c.maxRetries
    && e.reason == e.env.lastError
  }

  /** Requeue appended the dead letter's job to some stream. */
  ghost predicate GivenBack(h: History, d: nat)
  {
    d in h.requeued || d in h.stranded
  }

  /** Why a dead letter may be deleted: it was given back, or an operator asked for it. */
  ghost predicate Released(h: History, d: nat)
  {
    GivenBack(h, d) || d in h.erased
  }

  ghost predicate DlqOk(c: Config, s: State)
  {
    && s.dlq.base <= |s.dlq.log|
    && (forall d :: d in s.dlq.deleted ==> d < |s.dlq.log| && Released(s.h, d))
    && (forall d :: 0 <= d < |s.dlq.log| ==> BuriedOk(c, s, s.dlq.log[d]))
  }

  ghost predicate OperatorOk(s: State, op: Operator)
  {
    && op.d < |s.dlq.log|
    && op.env == Revived(s.dlq.log[op.d].env)
    && (op.resent ==> GivenBack(s.h, op.d))
  }

  ghost predicate RequeueOk(s: State)
  {
    forall o :: o in s.operators ==> OperatorOk(s, s.operators[o])
  }

  ghost predicate Inv(c: Config, s: State)
  {
    && StreamsOk(c, s)
    && EntriesOk(c, s)
    && TasksOk(c, s)
    && AckedOk(s)
    && AppendedOk(s)
    && ClaimsOk(c, s)
    && DlqOk(c, s)
    && RequeueOk(s)
  }

  // ---- Monotonicity ----

  ghost predicate HistoryGrows(h: History, h': History)
  {
    && (forall j :: j in h.accepted ==> j in h'.accepted && h'.accepted[j] == h.accepted[j])
    && h.claimed <= h'.claimed
    && h.calls <= h'.calls
    && h.wins <= h'.wins
    && h.won <= h'.won
    && h.failed <= h'.failed
    && h.copied <= h'.copied
    && h.sent <= h'.sent
    && h.dropped <= h'.dropped
    && h.abandoned <= h'.abandoned
    && h.requeued <= h'.requeued
    && h.stranded <= h'.stranded
    && h.erased <= h'.erased
  }

  /** Nothing already appended, delivered or recorded is ever taken back. */
  ghost predicate Grows(s: State, s': State)
  {
    && |s.streams| == |s'.streams|
    && (forall p: nat :: p < |s.streams| ==>
         && s.streams[p].log <= s'.streams[p].log
         && s.streams[p].next <= s'.streams[p].next
         && s.streams[p].base <= s'.streams[p].base
         && s.streams[p].acked <= s'.streams[p].acked)
    && s.dlq.log <= s'.dlq.log
    && s.dlq.deleted <= s'.dlq.deleted
    && s.strays <= s'.strays
    && s.now <= s'.now
    && HistoryGrows(s.h, s'.h)
  }

  lemma AppendedStays(s: State, s': State)
    requires Grows(s, s')
    ensures forall a :: Appended(s, a) ==> Appended(s', a)
  {
    forall a | Appended(s, a) ensures Appended(s', a) {
      var p: nat, id: nat :| HoldsAttempt(s, p, id, a);
      assert HoldsAttempt(s', p, id, a);
    }
  }

  // ---- Framing: what a step has to show about what it changes ----

  lemma EntriesFrame(c: Config, s: State, s': State)
    requires Grows(s, s') && EntriesOk(c, s)
    requires forall p: nat, id: nat :: At(s', p, id) && !At(s, p, id) && Msg(s', p, id).Job? ==>
               EntryOk(c, s'.h, Msg(s', p, id).env)
    ensures EntriesOk(c, s')
  {
    forall p: nat, id: nat | At(s', p, id) && Msg(s', p, id).Job? ensures EntryOk(c, s'.h, Msg(s', p, id).env) {
      if At(s, p, id) {
        assert Msg(s', p, id) == Msg(s, p, id);
      }
    }
  }

  lemma TaskStays(c: Config, s: State, s': State, k: Task)
    requires Grows(s, s') && TaskOk(c, s, k)
    ensures TaskOk(c, s', k)
  {
  }

  ghost predicate OnlyTask(s: State, s': State, t: nat)
  {
    forall u :: u != t ==> (u in s.tasks <==> u in s'.tasks) && (u in s.tasks ==> s'.tasks[u] == s.tasks[u])
  }

  /** What a step of goroutine t owes: itself, and the claims it made or carried. */
  ghost predicate TaskStepOk(c: Config, s: State, s': State, t: nat)
  {
    && OnlyTask(s, s', t)
    && (t in s'.tasks ==> TaskOk(c, s', s'.tasks[t]))
    && (!c.dedup ==> s'.h.claimed == {})
    && s'.keys.Keys <= s'.h.claimed
    && (forall a :: a in s'.h.claimed && (a !in s.h.claimed || Carries(s, t, a)) ==>
         Settled(s'.h, a) || a in s'.h.abandoned || Carries(s', t, a))
  }

  lemma TasksFrame(c: Config, s: State, s': State, t: nat)
    requires Grows(s, s') && TasksOk(c, s) && TaskStepOk(c, s, s', t)
    ensures TasksOk(c, s')
  {
    forall u | u in s'.tasks ensures TaskOk(c, s', s'.tasks[u]) {
      if u != t {
        TaskStays(c, s, s', s.tasks[u]);
      }
    }
  }

  lemma ClaimsFrame(c: Config, s: State, s': State, t: nat)
    requires Grows(s, s') && ClaimsOk(c, s) && TaskStepOk(c, s, s', t)
    ensures ClaimsOk(c, s')
  {
    forall a | a in s'.h.claimed
      ensures Settled(s'.h, a) || a in s'.h.abandoned || exists u: nat :: Carries(s', u, a)
    {
      if a in s.h.claimed && !Settled(s.h, a) && a !in s.h.abandoned {
        var u: nat :| Carries(s, u, a);
        assert u != t ==> Carries(s', u, a);
      }
    }
  }

  lemma AckedFrame(c: Config, s: State, s': State)
    requires Grows(s, s') && AckedOk(s) && StreamsOk(c, s)
    requires forall p: nat, id: nat ::
               At(s', p, id) && id in s'.streams[p].acked && id !in s.streams[p].acked ==> AckedEntryOk(s', p, id)
    ensures AckedOk(s')
  {
    forall p: nat, id: nat | At(s', p, id) && id in s'.streams[p].acked ensures AckedEntryOk(s', p, id) {
      if id in s.streams[p].acked {
        assert At(s, p, id) && Msg(s', p, id) == Msg(s, p, id);
      }
    }
  }

  lemma AppendedFrame(s: State, s': State)
    requires Grows(s, s') && AppendedOk(s)
    requires forall j :: j in s'.h.accepted && j !in s.h.accepted ==> Appended(s', Attempt(j, 0))
    requires forall a: Attempt :: a in s'.h.copied && a !in s.h.copied ==> Appended(s', Attempt(a.job, a.retry + 1))
    ensures AppendedOk(s')
  {
    AppendedStays(s, s');
  }

  lemma DlqFrame(c: Config, s: State, s': State)
    requires Grows(s, s') && DlqOk(c, s) && s'.dlq.base <= |s'.dlq.log|
    requires forall d :: d in s'.dlq.deleted && d !in s.dlq.deleted ==> d < |s.dlq.log| && Released(s'.h, d)
    requires forall d :: |s.dlq.log| <= d < |s'.dlq.log| ==> BuriedOk(c, s', s'.dlq.log[d])
    ensures DlqOk(c, s')
  {
    forall d | 0 <= d < |s'.dlq.log| ensures BuriedOk(c, s', s'.dlq.log[d]) {
      if d < |s.dlq.log| {
        assert BuriedOk(c, s, s.dlq.log[d]);
      }
    }
  }

  lemma RequeueFrame(s: State, s': State, o: nat)
    requires Grows(s, s') && RequeueOk(s)
    requires forall u :: u in s'.operators && u != o ==> u in s.operators && s'.operators[u] == s.operators[u]
    requires o in s'.operators ==> OperatorOk(s', s'.operators[o])
    ensures RequeueOk(s')
  {
    forall u | u in s'.operators ensures OperatorOk(s', s'.operators[u]) {
      assert u != o ==> OperatorOk(s, s.operators[u]);
    }
  }

  ghost predicate SameDeadLetters(s: State, s': State)
  {
    && s'.dlq == s.dlq && s'.operators == s.operators
    && s'.h.requeued == s.h.requeued && s'.h.stranded == s.h.stranded
  }

  lemma DeadLettersFrame(c: Config, s: State, s': State)
    requires Grows(s, s') && DlqOk(c, s) && RequeueOk(s) && SameDeadLetters(s, s')
    ensures DlqOk(c, s') && RequeueOk(s')
  {
    DlqFrame(c, s, s');
    RequeueFrame(s, s', 0);
  }

  ghost predicate SameStreams(s: State, s': State)
  {
    s'.streams == s.streams && s'.h.accepted == s.h.accepted && s'.h.copied == s.h.copied
  }

  lemma StreamsFrame(c: Config, s: State, s': State)
    requires Grows(s, s') && StreamsOk(c, s) && EntriesOk(c, s) && AckedOk(s) && AppendedOk(s) && SameStreams(s, s')
    ensures StreamsOk(c, s') && EntriesOk(c, s') && AckedOk(s') && AppendedOk(s')
  {
    EntriesFrame(c, s, s');
    AckedFrame(c, s, s');
    AppendedFrame(s, s');
  }

  /** Steps of one goroutine that touch neither streams nor dead letters. */
  lemma LocalKeeps(c: Config, s: State, s': State, t: nat)
    requires Inv(c, s) && Grows(s, s') && SameStreams(s, s') && SameDeadLetters(s, s') && TaskStepOk(c, s, s', t)
    ensures Inv(c, s')
  {
    StreamsFrame(c, s, s');
    TasksFrame(c, s, s', t);
    ClaimsFrame(c, s, s', t);
    DeadLettersFrame(c, s, s');
  }

  /** What a step that changes streams owes. */
  ghost predicate StreamStepOk(c: Config, s: State, s': State)
  {
    && StreamsOk(c, s')
    && (forall p: nat, id: nat :: At(s', p, id) && !At(s, p, id) && Msg(s', p, id).Job? ==>
         EntryOk(c, s'.h, Msg(s', p, id).env))
    && (forall p: nat, id: nat ::
         PartOk(s, p) && At(s', p, id) && id in s'.streams[p].acked && id !in s.streams[p].acked ==>
           AckedEntryOk(s', p, id))
    && (forall j :: j in s'.h.accepted && j !in s.h.accepted ==> Appended(s', Attempt(j, 0)))
    && (forall a: Attempt :: a in s'.h.copied && a !in s.h.copied ==> Appended(s', Attempt(a.job, a.retry + 1)))
  }

  lemma StreamKeeps(c: Config, s: State, s': State, t: nat)
    requires Inv(c, s) && Grows(s, s') && StreamStepOk(c, s, s') && SameDeadLetters(s, s') && TaskStepOk(c, s, s', t)
    ensures Inv(c, s')
  {
    EntriesFrame(c, s, s');
    AckedFrame(c, s, s');
    AppendedFrame(s, s');
    TasksFrame(c, s, s', t);
    ClaimsFrame(c, s, s', t);
    DeadLettersFrame(c, s, s');
  }

  // ---- One lemma per step ----

  /** All that most steps need to know of the state before them. */
  lemma Facts(c: Config, s: State, t: nat)
    requires Inv(c, s)
    ensures StreamsOk(c, s)
    ensures t in s.tasks ==> TaskOk(c, s, s.tasks[t])
    ensures s.keys.Keys <= s.h.claimed
    ensures !c.dedup ==> s.h.claimed == {}
  {
  }

  lemma CheckGrows(c: Config, s: State, t: nat, out: Outcome, err: string)
    requires AtPc(s, t, Checking)
    ensures Grows(s, DoCheck(c, s, t, out, err))
  {
  }

  lemma CheckTask(c: Config, s: State, t: nat, out: Outcome, err: string)
    requires AtPc(s, t, Checking) && TaskOk(c, s, s.tasks[t]) && s.keys.Keys <= s.h.claimed
    ensures TaskStepOk(c, s, DoCheck(c, s, t, out, err), t)
  {
  }

  lemma CheckKeeps(c: Config, s: State, t: nat, out: Outcome, err: string)
    requires Inv(c, s) && AtPc(s, t, Checking)
    ensures Inv(c, DoCheck(c, s, t, out, err))
  {
    hide Inv;
    Facts(c, s, t);
    CheckGrows(c, s, t, out, err);
    CheckTask(c, s, t, out, err);
    LocalKeeps(c, s, DoCheck(c, s, t, out, err), t);
  }

  lemma InvokeKeeps(c: Config, s: State, t: nat)
    requires Inv(c, s) && AtPc(s, t, Calling)
    ensures Inv(c, DoInvoke(s, t))
  {
    hide Inv;
    Facts(c, s, t);
    LocalKeeps(c, s, DoInvoke(s, t), t);
  }

  lemma ReturnKeeps(c: Config, s: State, t: nat, result: Result)
    requires Inv(c, s) && AtPc(s, t, Running)
    ensures Inv(c, DoReturn(s, t, result))
  {
    hide Inv;
    Facts(c, s, t);
    LocalKeeps(c, s, DoReturn(s, t, result), t);
  }

  lemma DropKeeps(c: Config, s: State, t: nat)
    requires Inv(c, s) && CanDrop(c, s, t)
    ensures Inv(c, DoDrop(s, t))
  {
    hide Inv;
    Facts(c, s, t);
    LocalKeeps(c, s, DoDrop(s, t), t);
  }

  lemma CrashKeeps(c: Config, s: State, t: nat)
    requires Inv(c, s) && t in s.tasks
    ensures Inv(c, DoCrash(s, t))
  {
    hide Inv;
    Facts(c, s, t);
    LocalKeeps(c, s, DoCrash(s, t), t);
  }

  lemma TickKeeps(c: Config, s: State, dt: nat)
    requires Inv(c, s)
    ensures Inv(c, s.(now := s.now + dt))
  {
    hide Inv;
    Facts(c, s, 0);
    LocalKeeps(c, s, s.(now := s.now + dt), 0);
  }

  lemma EnqueueStreams(c: Config, s: State, job: JobId, event: LogEvent, cut: nat)
    requires c.Valid() && StreamsOk(c, s) && CanEnqueue(c, s, job, event, cut)
    ensures var s' := DoEnqueue(c, s, job, event, Ok, cut); Grows(s, s') && StreamStepOk(c, s, s')
  {
    var s' := DoEnqueue(c, s, job, event, Ok, cut);
    var p := Home(c, event);
    assert HoldsAttempt(s', p, |s.streams[p].log|, Attempt(job, 0));
  }

  lemma EnqueueKeeps(c: Config, s: State, job: JobId, event: LogEvent, out: Outcome, cut: nat)
    requires c.Valid() && Inv(c, s) && CanEnqueue(c, s, job, event, cut)
    ensures Inv(c, DoEnqueue(c, s, job, event, out, cut))
  {
    hide Inv;
    Facts(c, s, 0);
    if out.Applied() {
      EnqueueStreams(c, s, job, event, cut);
      StreamKeeps(c, s, DoEnqueue(c, s, job, event, out, cut), 0);
    }
  }

  lemma InjectKeeps(c: Config, s: State, p: nat)
    requires Inv(c, s) && PartOk(s, p)
    ensures Inv(c, DoInject(s, p))
  {
    hide Inv;
    Facts(c, s, 0);
    StreamKeeps(c, s, DoInject(s, p), 0);
  }

  lemma DeliverGrows(c: Config, s: State, t: nat, worker: nat, p: nat)
    requires CanDeliver(s, t, p)
    ensures Grows(s, DoDeliver(c, s, t, worker, p))
  {
  }

  lemma DeliverStreams(c: Config, s: State, t: nat, worker: nat, p: nat)
    requires StreamsOk(c, s) && CanDeliver(s, t, p)
    ensures StreamStepOk(c, s, DoDeliver(c, s, t, worker, p))
  {
  }

  lemma DeliverKeeps(c: Config, s: State, t: nat, worker: nat, p: nat)
    requires Inv(c, s) && CanDeliver(s, t, p)
    ensures Inv(c, DoDeliver(c, s, t, worker, p))
  {
    hide Inv;
    Facts(c, s, t);
    DeliverGrows(c, s, t, worker, p);
    DeliverStreams(c, s, t, worker, p);
    StreamKeeps(c, s, DoDeliver(c, s, t, worker, p), t);
  }

  lemma ReclaimGrows(c: Config, s: State, t: nat, worker: nat, p: nat, id: nat)
    requires CanReclaim(c, s, t, p, id)
    ensures Grows(s, DoReclaim(c, s, t, worker, p, id))
  {
  }

  lemma ReclaimStreams(c: Config, s: State, t: nat, worker: nat, p: nat, id: nat)
    requires StreamsOk(c, s) && CanReclaim(c, s, t, p, id)
    ensures StreamStepOk(c, s, DoReclaim(c, s, t, worker, p, id))
  {
  }

  lemma ReclaimKeeps(c: Config, s: State, t: nat, worker: nat, p: nat, id: nat)
    requires Inv(c, s) && CanReclaim(c, s, t, p, id)
    ensures Inv(c, DoReclaim(c, s, t, worker, p, id))
  {
    hide Inv;
    Facts(c, s, t);
    ReclaimGrows(c, s, t, worker, p, id);
    ReclaimStreams(c, s, t, worker, p, id);
    StreamKeeps(c, s, DoReclaim(c, s, t, worker, p, id), t);
  }

  lemma PurgeKeeps(c: Config, s: State, p: nat, id: nat)
    requires Inv(c, s) && CanPurge(s, p, id)
    ensures Inv(c, DoPurge(s, p, id))
  {
    hide Inv;
    Facts(c, s, 0);
    StreamKeeps(c, s, DoPurge(s, p, id), 0);
  }

  lemma CopyGrows(s: State, t: nat, out: Outcome)
    requires CanCopy(s, t)
    ensures Grows(s, DoCopy(s, t, out))
  {
  }

  lemma CopyStreams(c: Config, s: State, t: nat, out: Outcome)
    requires StreamsOk(c, s) && CanCopy(s, t) && TaskOk(c, s, s.tasks[t]) && out.Applied()
    requires EntryOk(c, s.h, s.tasks[t].env)
    ensures StreamStepOk(c, s, DoCopy(s, t, out))
  {
    var k := s.tasks[t];
    assert HoldsAttempt(DoCopy(s, t, out), k.part, |s.streams[k.part].log|, Attempt(k.env.job, k.env.retryCount + 1));
  }

  lemma CopyTask(c: Config, s: State, t: nat, out: Outcome)
    requires StreamsOk(c, s) && CanCopy(s, t) && TaskOk(c, s, s.tasks[t])
    requires s.keys.Keys <= s.h.claimed && (!c.dedup ==> s.h.claimed == {})
    ensures TaskStepOk(c, s, DoCopy(s, t, out), t)
  {
  }

  lemma TaskEntry(c: Config, s: State, t: nat)
    requires Inv(c, s) && t in s.tasks
    ensures EntryOk(c, s.h, s.tasks[t].env)
  {
    assert TaskOk(c, s, s.tasks[t]);
  }

  lemma CopyKeeps(c: Config, s: State, t: nat, out: Outcome)
    requires Inv(c, s) && CanCopy(s, t)
    ensures Inv(c, DoCopy(s, t, out))
  {
    hide Inv;
    Facts(c, s, t);
    TaskEntry(c, s, t);
    CopyGrows(s, t, out);
    CopyTask(c, s, t, out);
    if out.Applied() {
      CopyStreams(c, s, t, out);
      StreamKeeps(c, s, DoCopy(s, t, out), t);
    } else {
      LocalKeeps(c, s, DoCopy(s, t, out), t);
    }
  }

  lemma AckGrows(s: State, t: nat, out: Outcome)
    requires CanAck(s, t)
    ensures Grows(s, DoAck(s, t, out))
  {
  }

  lemma AckStreams(c: Config, s: State, t: nat)
    requires StreamsOk(c, s) && CanAck(s, t) && TaskOk(c, s, s.tasks[t])
    ensures StreamStepOk(c, s, DoAck(s, t, Ok))
  {
  }

  lemma AckKeeps(c: Config, s: State, t: nat, out: Outcome)
    requires Inv(c, s) && CanAck(s, t)
    ensures Inv(c, DoAck(s, t, out))
  {
    hide Inv;
    Facts(c, s, t);
    AckGrows(s, t, out);
    if out.Applied() {
      AckStreams(c, s, t);
      StreamKeeps(c, s, DoAck(s, t, out), t);
    } else {
      LocalKeeps(c, s, DoAck(s, t, out), t);
    }
  }

  /** Steps that change the dead letter side, and possibly one stream and one goroutine. */
  lemma DeadLetterKeeps(c: Config, s: State, s': State, t: nat, o: nat)
    requires Inv(c, s) && Grows(s, s') && StreamStepOk(c, s, s') && TaskStepOk(c, s, s', t)
    requires s'.dlq.base <= |s'.dlq.log|
    requires forall d :: d in s'.dlq.deleted && d !in s.dlq.deleted ==> d < |s.dlq.log| && Released(s'.h, d)
    requires forall d :: |s.dlq.log| <= d < |s'.dlq.log| ==> BuriedOk(c, s', s'.dlq.log[d])
    requires forall u :: u in s'.operators && u != o ==> u in s.operators && s'.operators[u] == s.operators[u]
    requires o in s'.operators ==> OperatorOk(s', s'.operators[o])
    ensures Inv(c, s')
  {
    EntriesFrame(c, s, s');
    AckedFrame(c, s, s');
    AppendedFrame(s, s');
    TasksFrame(c, s, s', t);
    ClaimsFrame(c, s, s', t);
    DlqFrame(c, s, s');
    RequeueFrame(s, s', o);
  }

  lemma SameStreamsOk(c: Config, s: State, s': State)
    requires StreamsOk(c, s) && SameStreams(s, s')
    ensures StreamStepOk(c, s, s')
  {
  }

  lemma SameTasksOk(c: Config, s: State, s': State)
    requires Inv(c, s) && Grows(s, s')
    requires s'.tasks == s.tasks && s'.keys == s.keys && s'.h.claimed == s.h.claimed
    ensures TaskStepOk(c, s, s', 0)
  {
    hide Inv;
    Facts(c, s, 0);
    if 0 in s.tasks {
      TaskStays(c, s, s', s.tasks[0]);
    }
  }

  /** The dead letter side before a step. */
  lemma DeadLetterFacts(c: Config, s: State, o: nat)
    requires Inv(c, s)
    ensures s.dlq.base <= |s.dlq.log|
    ensures o in s.operators ==>
              OperatorOk(s, s.operators[o]) && LineageOk(c, s.h, s.dlq.log[s.operators[o].d].env)
  {
    if o in s.operators {
      assert OperatorOk(s, s.operators[o]);
      assert BuriedOk(c, s, s.dlq.log[s.operators[o].d]);
    }
  }

  lemma BuryTask(c: Config, s: State, t: nat, out: Outcome, cut: nat)
    requires StreamsOk(c, s) && CanBury(c, s, t, cut) && TaskOk(c, s, s.tasks[t])
    requires s.keys.Keys <= s.h.claimed && (!c.dedup ==> s.h.claimed == {})
    ensures var s' := DoBury(s, t, out, cut); Grows(s, s') && TaskStepOk(c, s, s', t)
  {
  }

  lemma BuryKeeps(c: Config, s: State, t: nat, out: Outcome, cut: nat)
    requires Inv(c, s) && CanBury(c, s, t, cut)
    ensures Inv(c, DoBury(s, t, out, cut))
  {
    hide Inv;
    Facts(c, s, t);
    TaskEntry(c, s, t);
    DeadLetterFacts(c, s, 0);
    BuryTask(c, s, t, out, cut);
    SameStreamsOk(c, s, DoBury(s, t, out, cut));
    hide Grows, StreamStepOk, TaskStepOk, StreamsOk, DlqCutAllowed;
    DeadLetterKeeps(c, s, DoBury(s, t, out, cut), t, 0);
  }

  lemma FetchKeeps(c: Config, s: State, o: nat, d: nat)
    requires Inv(c, s) && CanFetch(s, o, d)
    ensures Inv(c, DoFetch(s, o, d))
  {
    hide Inv;
    Facts(c, s, 0);
    DeadLetterFacts(c, s, o);
    SameStreamsOk(c, s, DoFetch(s, o, d));
    SameTasksOk(c, s, DoFetch(s, o, d));
    hide Grows, StreamStepOk, TaskStepOk, StreamsOk;
    DeadLetterKeeps(c, s, DoFetch(s, o, d), 0, o);
  }

  lemma QuitKeeps(c: Config, s: State, o: nat)
    requires Inv(c, s) && o in s.operators
    ensures Inv(c, s.(operators := s.operators - {o}))
  {
    hide Inv;
    Facts(c, s, 0);
    DeadLetterFacts(c, s, o);
    SameStreamsOk(c, s, s.(operators := s.operators - {o}));
    SameTasksOk(c, s, s.(operators := s.operators - {o}));
    hide Grows, StreamStepOk, TaskStepOk, StreamsOk;
    DeadLetterKeeps(c, s, s.(operators := s.operators - {o}), 0, o);
  }

  lemma ResendStreams(c: Config, s: State, o: nat, p: nat, maxLen: nat, out: Outcome, cut: nat)
    requires c.Valid() && StreamsOk(c, s) && CanResend(s, o, p, maxLen, cut) && out.Applied()
    requires EntryOk(c, s.h, s.operators[o].env)
    ensures var s' := DoResend(s, o, p, out, cut); Grows(s, s') && StreamStepOk(c, s, s')
  {
  }

  lemma ResendKeeps(c: Config, s: State, o: nat, p: nat, maxLen: nat, out: Outcome, cut: nat)
    requires c.Valid() && Inv(c, s) && CanResend(s, o, p, maxLen, cut)
    ensures Inv(c, DoResend(s, o, p, out, cut))
  {
    hide Inv;
    Facts(c, s, 0);
    DeadLetterFacts(c, s, o);
    var s' := DoResend(s, o, p, out, cut);
    if out.Applied() {
      ResendStreams(c, s, o, p, maxLen, out, cut);
      SameTasksOk(c, s, s');
      hide Grows, StreamStepOk, TaskStepOk, StreamsOk;
      DeadLetterKeeps(c, s, s', 0, o);
    } else {
      QuitKeeps(c, s, o);
    }
  }

  lemma RemoveKeeps(c: Config, s: State, o: nat, out: Outcome)
    requires Inv(c, s) && CanRemove(s, o)
    ensures Inv(c, DoRemove(s, o, out))
  {
    hide Inv;
    if out.Applied() {
      Facts(c, s, 0);
      DeadLetterFacts(c, s, o);
      var s' := DoRemove(s, o, out);
      SameStreamsOk(c, s, s');
      SameTasksOk(c, s, s');
      hide Grows, StreamStepOk, TaskStepOk, StreamsOk;
      DeadLetterKeeps(c, s, s', 0, o);
    } else {
      QuitKeeps(c, s, o);
    }
  }

  lemma StrandKeeps(c: Config, s: State, o: nat, name: string, out: Outcome, cut: nat)
    requires Inv(c, s) && CanStrand(c, s, o, name, cut)
    ensures Inv(c, DoStrand(s, o, name, out, cut))
  {
    hide Inv, Partition.IsPartition;
    if out.Applied() {
      Facts(c, s, 0);
      DeadLetterFacts(c, s, o);
      var s' := DoStrand(s, o, name, out, cut);
      SameStreamsOk(c, s, s');
      SameTasksOk(c, s, s');
      hide Grows, StreamStepOk, TaskStepOk, StreamsOk;
      DeadLetterKeeps(c, s, s', 0, o);
    } else {
      QuitKeeps(c, s, o);
    }
  }

  lemma EraseKeeps(c: Config, s: State, d: nat, out: Outcome)
    requires Inv(c, s) && s.dlq.Holds(d)
    ensures Inv(c, DoErase(s, d, out))
  {
    hide Inv;
    if out.Applied() {
      Facts(c, s, 0);
      DeadLetterFacts(c, s, 0);
      var s' := DoErase(s, d, out);
      SameStreamsOk(c, s, s');
      SameTasksOk(c, s, s');
      hide Grows, StreamStepOk, TaskStepOk, StreamsOk;
      DeadLetterKeeps(c, s, s', 0, 0);
    }
  }

  lemma StepKeeps(c: Config, s: State, step: Step)
    requires c.Valid() && Inv(c, s) && Enabled(c, s, step)
    ensures Inv(c, Apply(c, s, step))
  {
    hide Inv;
    match step
    case Tick(dt) => TickKeeps(c, s, dt);
    case Enqueue(j, e, out, cut) => EnqueueKeeps(c, s, j, e, out, cut);
    case Inject(p) => InjectKeeps(c, s, p);
    case Deliver(t, w, p) => DeliverKeeps(c, s, t, w, p);
    case Reclaim(t, w, p, id) => ReclaimKeeps(c, s, t, w, p, id);
    case Purge(p, id) => PurgeKeeps(c, s, p, id);
    case Check(t, out, err) => CheckKeeps(c, s, t, out, err);
    case Invoke(t) => InvokeKeeps(c, s, t);
    case Return(t, result) => ReturnKeeps(c, s, t, result);
    case Copy(t, out) => CopyKeeps(c, s, t, out);
    case Bury(t, out, cut) => BuryKeeps(c, s, t, out, cut);
    case Drop(t) => DropKeeps(c, s, t);
    case Ack(t, out) => AckKeeps(c, s, t, out);
    case Crash(t) => CrashKeeps(c, s, t);
    case Fetch(o, d) => FetchKeeps(c, s, o, d);
    case Resend(o, p, maxLen, out, cut) => ResendKeeps(c, s, o, p, maxLen, out, cut);
    case Remove(o, out) => RemoveKeeps(c, s, o, out);
    case Quit(o) => QuitKeeps(c, s, o);
    case Strand(o, name, out, cut) => StrandKeeps(c, s, o, name, out, cut);
    case Erase(d, out) => EraseKeeps(c, s, d, out);
  }

  lemma {:induction false} RunKeeps(c: Config, a: Assume, steps: seq<Step>)
    requires c.Valid()
    ensures var r := Exec(c, a, steps); r.Some? ==> Inv(c, r.value)
  {
    if steps != [] {
      var n := |steps| - 1;
      RunKeeps(c, a, steps[..n]);
      hide Inv;
      var r := Exec(c, a, steps[..n]);
      if Exec(c, a, steps).Some? {
        StepKeeps(c, r.value, steps[n]);
      }
    }
  }

  // ---- Every step grows the state ----

  lemma ResendGrows(s: State, o: nat, p: nat, maxLen: nat, out: Outcome, cut: nat)
    requires CanResend(s, o, p, maxLen, cut)
    ensures Grows(s, DoResend(s, o, p, out, cut))
  {
  }

  lemma BuryGrows(c: Config, s: State, t: nat, out: Outcome, cut: nat)
    requires CanBury(c, s, t, cut)
    ensures Grows(s, DoBury(s, t, out, cut))
  {
  }

  lemma StrandGrows(c: Config, s: State, o: nat, name: string, out: Outcome, cut: nat)
    requires CanStrand(c, s, o, name, cut)
    ensures Grows(s, DoStrand(s, o, name, out, cut))
  {
  }

  lemma SmallStepGrows(c: Config, s: State, step: Step)
    requires c.Valid() && Enabled(c, s, step)
    requires step.Tick? || step.Inject? || step.Purge?
    ensures Grows(s, Apply(c, s, step))
  {
  }

  lemma DeadLetterStepGrows(c: Config, s: State, step: Step)
    requires c.Valid() && Enabled(c, s, step)
    requires step.Fetch? || step.Quit?
    ensures Grows(s, Apply(c, s, step))
  {
  }

  lemma RemoveGrows(c: Config, s: State, step: Step)
    requires c.Valid() && Enabled(c, s, step)
    requires step.Remove? || step.Erase?
    ensures Grows(s, Apply(c, s, step))
  {
  }

  lemma TaskStepGrows(c: Config, s: State, step: Step)
    requires c.Valid() && Enabled(c, s, step)
    requires step.Invoke? || step.Return? || step.Drop? || step.Crash?
    ensures Grows(s, Apply(c, s, step))
  {
  }

  lemma StepGrows(c: Config, s: State, step: Step)
    requires c.Valid() && StreamsOk(c, s) && Enabled(c, s, step)
    ensures Grows(s, Apply(c, s, step))
  {
    hide Grows;
    match step
    case Enqueue(j, e, out, cut) => EnqueueGrows(c, s, j, e, out, cut);
    case Deliver(t, w, p) => DeliverGrows(c, s, t, w, p);
    case Reclaim(t, w, p, id) => ReclaimGrows(c, s, t, w, p, id);
    case Check(t, out, err) => CheckGrows(c, s, t, out, err);
    case Copy(t, out) => CopyGrows(s, t, out);
    case Bury(t, out, cut) => BuryGrows(c, s, t, out, cut);
    case Ack(t, out) => AckGrows(s, t, out);
    case Resend(o, p, maxLen, out, cut) => ResendGrows(s, o, p, maxLen, out, cut);
    case Strand(o, name, out, cut) => StrandGrows(c, s, o, name, out, cut);
    case Invoke(_) => TaskStepGrows(c, s, step);
    case Return(_, _) => TaskStepGrows(c, s, step);
    case Drop(_) => TaskStepGrows(c, s, step);
    case Crash(_) => TaskStepGrows(c, s, step);
    case Tick(_) => SmallStepGrows(c, s, step);
    case Inject(_) => SmallStepGrows(c, s, step);
    case Purge(_, _) => SmallStepGrows(c, s, step);
    case Fetch(_, _) => DeadLetterStepGrows(c, s, step);
    case Quit(_) => DeadLetterStepGrows(c, s, step);
    case _ => RemoveGrows(c, s, step);
  }

  lemma EnqueueGrows(c: Config, s: State, job: JobId, event: LogEvent, out: Outcome, cut: nat)
    requires c.Valid() && CanEnqueue(c, s, job, event, cut)
    ensures Grows(s, DoEnqueue(c, s, job, event, out, cut))
  {
  }

  lemma GrowsTransitive(s: State, s': State, s'': State)
    requires Grows(s, s') && Grows(s', s'')
    ensures Grows(s, s'')
  {
  }
}
