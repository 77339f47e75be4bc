/** Every action of the protocol, faults included, keeps the carrier invariant. */
module CarrierSteps {
  import opened Model
  import opened JobQueue
  import opened Protocol
  import opened Carrier
  import Store
  import Frame

  /** What a running thread knows, without opening the invariant. */
  lemma ThreadFacts(s: State, t: Tid)
    requires Inv(s) && t in s.threads
    ensures ThreadOk(s.ops, s.attempts, t, s.threads[t])
    ensures Carried(t, s.threads[t]).Some? ==> FreeFor(s, Some(t), Carried(t, s.threads[t]).value)
    ensures Created(s.threads[t]).Some? ==>
              forall u :: u in s.threads && u != t ==> Created(s.threads[u]) != Created(s.threads[t])
  {
  }

  lemma ScanFacts(s: State)
    requires Inv(s)
    ensures ScanOk(s.delayed, s.scanned)
  {
  }

  lemma InsertStep(s: State, t: Tid, id: OpId)
    requires Inv(s) && Enabled(s, Insert(t, id))
    ensures Inv(ApplyInsert(s, t, id))
  {
    hide Inv;
    var req := s.threads[t].req;
    ThreadFacts(s, t);
    if Store.Conflicts(s.ops, req) {
      SetThread(s, ApplyInsert(s, t, id), t, Refetching(req));
    } else {
      var s1 := s.(ops := s.ops[id := Store.NewRow(req, s.now)]);
      InsertRow(s, s1, id, Store.NewRow(req, s.now));
      SetThread(s1, ApplyInsert(s, t, id), t, Submitting(req, id));
    }
  }

  lemma EnqueueStep(s: State, t: Tid)
    requires Inv(s) && Enabled(s, Enqueue(t))
    ensures Inv(ApplyEnqueue(s, t))
  {
    hide Inv;
    var req, o := s.threads[t].req, s.threads[t].op;
    ThreadFacts(s, t);
    var s1 := s.(threads := s.threads[t := Marking(req, o)]);
    SetThread(s, s1, t, Marking(req, o));
    PushMain(s1, ApplyEnqueue(s, t), Job(o, req.tenant, req.opType, 0, s.now));
  }

  lemma MarkStep(s: State, t: Tid)
    requires Inv(s) && Enabled(s, MarkQueued(t))
    ensures Inv(Apply(s, MarkQueued(t)))
  {
    hide Inv;
    var req, o := s.threads[t].req, s.threads[t].op;
    ThreadFacts(s, t);
    var s1 := s.(ops := Store.Enqueued(s.ops, o));
    assert s.ops[o := s1.ops[o]] == s1.ops;
    UpdateRow(s, s1, o, s1.ops[o]);
    SetThread(s1, Apply(s, MarkQueued(t)), t, Replied(req, o, false));
  }

  lemma CancelStep(s: State, tenant: Tenant, o: OpId)
    requires Inv(s)
    ensures Inv(Apply(s, Cancel(tenant, o)))
  {
    hide Inv;
    if Store.Cancellable(s.ops, tenant, o) {
      var s1 := Apply(s, Cancel(tenant, o));
      UpdateRow(s, s1, o, s1.ops[o]);
    } else {
      assert Apply(s, Cancel(tenant, o)) == s;
    }
  }

  lemma PopStep(s: State, t: Tid)
    requires Inv(s) && Enabled(s, Pop(t))
    ensures Inv(Apply(s, Pop(t)))
  {
    hide Inv;
    ThreadFacts(s, t);
    var s1 := s.(main := s.main[..|s.main| - 1]);
    PopMain(s, s1);
    SetThread(s1, Apply(s, Pop(t)), t, Popped(s.main[|s.main| - 1]));
  }

  lemma FetchStep(s: State, t: Tid)
    requires Inv(s) && Enabled(s, Fetch(t))
    ensures Inv(ApplyFetch(s, t))
  {
    hide Inv;
    ThreadFacts(s, t);
    SetThread(s, ApplyFetch(s, t), t, ApplyFetch(s, t).threads[t]);
  }

  lemma StartStep(s: State, t: Tid, a: AttemptId)
    requires Inv(s) && Enabled(s, Start(t, a))
    ensures Inv(ApplyStart(s, t, a))
  {
    hide Inv;
    var th := s.threads[t];
    ThreadFacts(s, t);
    EndThread(s, t);
    var s1 := s.(threads := Ended(s.threads, t));
    var s' := ApplyStart(s, t, a);
    var s2 := s1.(ops := s'.ops, attempts := s'.attempts);
    OpenAttempt(s1, s2, th.op, a, th.worker);
    assert s'.threads == s2.threads[t := Opened(th.op, a)];
    SetThread(s2, s', t, Opened(th.op, a));
  }

  lemma IncrStep(s: State, t: Tid, ok: bool)
    requires Inv(s) && Enabled(s, Incr(t, ok))
    ensures Inv(ApplyIncr(s, t, ok))
  {
    hide Inv;
    var th := s.threads[t];
    ThreadFacts(s, t);
    var s1 := s.(threads := ApplyIncr(s, t, ok).threads);
    if t.Worker? {
      SetThread(s, s1, t, Working(th.op, th.attempt));
    } else {
      EndThread(s, t);
    }
    Unobserved(s1, ApplyIncr(s, t, ok));
  }

  predicate LocalAction(a: Action) {
    a.Lookup? || a.Refetch? || a.Resolve? || a.Finish? || a.Read? || a.Decr? || a.Clamp? || a.Record?
  }

  /** The thread of a local action keeps to what it knows and carries what it carried. */
  ghost predicate KeepsTo(s: State, a: Action, s': State)
    requires LocalAction(a)
  {
    a.t in s.threads && a.t in s'.threads && ThreadOk(s.ops, s.attempts, a.t, s'.threads[a.t]) &&
    Carried(a.t, s'.threads[a.t]) == Carried(a.t, s.threads[a.t]) && Created(s'.threads[a.t]).None?
  }

  lemma ClientThread(s: State, a: Action)
    requires Enabled(s, a) && (a.Lookup? || a.Refetch? || a.Resolve? || a.Record?)
    requires a.t in s.threads && ThreadOk(s.ops, s.attempts, a.t, s.threads[a.t])
    ensures KeepsTo(s, a, Apply(s, a))
  {
    hide AttemptOk, Store.KeyTaken, Recorded, StageOk;
    match a
    case Lookup(_, _) =>
    case Refetch(_, _) =>
    case Resolve(_) =>
    case Record(_) =>
  }

  lemma ReportThread(s: State, a: Action)
    requires Enabled(s, a) && (a.Finish? || a.Read? || a.Decr? || a.Clamp?)
    requires a.t in s.threads && ThreadOk(s.ops, s.attempts, a.t, s.threads[a.t])
    ensures KeepsTo(s, a, Apply(s, a))
  {
    hide AttemptOk, Counter;
    match a
    case Finish(_, _) =>
    case Read(_) =>
    case Decr(_, _) =>
    case Clamp(_, _) =>
  }

  lemma LocalActor(s: State, a: Action)
    requires Enabled(s, a) && LocalAction(a)
    ensures a.t in s.threads
  {
  }

  lemma LocalShape(s: State, a: Action)
    requires Enabled(s, a) && LocalAction(a) && a.t in Apply(s, a).threads
    ensures var s' := Apply(s, a);
            s' == s.(threads := s.threads[a.t := s'.threads[a.t]], counters := s'.counters, ledger := s'.ledger)
  {
    hide Enabled, Apply;
    Frame.TouchesTables(s, a);
    Frame.TouchesRest(s, a);
    Frame.TouchesThreads(s, a);
  }

  /** The handler's own bookkeeping on one thread: nothing it carries changes. */
  lemma LocalStep(s: State, a: Action)
    requires Inv(s) && Enabled(s, a) && LocalAction(a)
    ensures Inv(Apply(s, a))
  {
    hide Inv, Enabled, Apply, FreeFor, ThreadOk, Carried, Created;
    LocalActor(s, a);
    ThreadFacts(s, a.t);
    if a.Lookup? || a.Refetch? || a.Resolve? || a.Record? { ClientThread(s, a); } else { ReportThread(s, a); }
    LocalShape(s, a);
    var s' := Apply(s, a);
    var s1 := s.(threads := s.threads[a.t := s'.threads[a.t]]);
    SetThread(s, s1, a.t, s'.threads[a.t]);
    Unobserved(s1, s');
  }

  lemma CommitStep(s: State, t: Tid, n: Tid)
    requires Inv(s) && Enabled(s, Commit(t, n))
    ensures Inv(ApplyCommit(s, t, n))
  {
    hide Inv;
    if s.threads[t].report.Success? {
      CommitSuccess(s, t, n);
    } else {
      CommitFailure(s, t, n);
    }
  }

  lemma CommitSuccess(s: State, t: Tid, n: Tid)
    requires Inv(s) && Enabled(s, Commit(t, n)) && s.threads[t].report.Success?
    ensures Inv(ApplyCommit(s, t, n))
  {
    hide Inv, NotInMain, NotInDelayed, NotInThreads;
    var th := s.threads[t];
    ThreadFacts(s, t);
    var s' := ApplyCommit(s, t, n);
    EndThread(s, t);
    var s1 := s.(threads := Ended(s.threads, t));
    var s2 := s1.(ops := s'.ops);
    assert s2.ops == s1.ops[th.op := s2.ops[th.op]];
    UpdateRow(s1, s2, th.op, s2.ops[th.op]);
    var s3 := s2.(attempts := s'.attempts);
    UpdateAttempt(s2, s3, th.attempt, s'.attempts[th.attempt]);
    SetThread(s3, s', n, Metering(th.stage.seen.tenant, th.op));
  }

  lemma CommitFailure(s: State, t: Tid, n: Tid)
    requires Inv(s) && Enabled(s, Commit(t, n)) && s.threads[t].report.Failure?
    ensures Inv(ApplyCommit(s, t, n))
  {
    hide Inv, NotInMain, NotInDelayed;
    var th := s.threads[t];
    ThreadFacts(s, t);
    var s' := ApplyCommit(s, t, n);
    EndThread(s, t);
    var s1 := s.(threads := Ended(s.threads, t));
    var s2 := s1.(ops := s'.ops);
    assert s2.ops == s1.ops[th.op := s2.ops[th.op]];
    UpdateRow(s1, s2, th.op, s2.ops[th.op]);
    var s3 := s2.(attempts := s'.attempts);
    UpdateAttempt(s2, s3, th.attempt, s'.attempts[th.attempt]);
    if WillRetry(th.report, th.stage.seen) {
      assert s'.threads == s3.threads[t := th.(stage := Retry(th.stage.seen))];
      SetThread(s3, s', t, th.(stage := Retry(th.stage.seen)));
    } else {
      SetThread(s3, s', n, s'.threads[n]);
    }
  }

  lemma ScheduleStep(s: State, t: Tid, jitter: nat)
    requires Inv(s) && Enabled(s, Schedule(t, jitter))
    ensures Inv(ApplySchedule(s, t, jitter))
  {
    hide Inv;
    var th := s.threads[t];
    ThreadFacts(s, t);
    EndThread(s, t);
    var s1 := s.(threads := Ended(s.threads, t));
    AddDelayed(s1, ApplySchedule(s, t, jitter), RetryJob(th.op, th.stage.seen, s.now),
               ReadyAt(th.stage.seen, jitter, s.now));
  }

  lemma EmitStep(s: State, t: Tid)
    requires Inv(s) && Enabled(s, Emit(t))
    ensures Inv(Apply(s, Emit(t)))
  {
    hide Inv;
    EndThread(s, t);
    Unobserved(s.(threads := Ended(s.threads, t)), Apply(s, Emit(t)));
  }

  lemma PromoteStep(s: State)
    requires Inv(s) && s.scanned != []
    ensures Inv(Apply(s, Promote))
  {
    hide Inv;
    var s1 := s.(scanned := []);
    SetScanned(s, s1);
    PromoteAll(s1, s.scanned);
    assert Apply(s, Promote) ==
      s1.(main := LPushAll(s1.main, s.scanned), delayed := ZRemAll(s1.delayed, s.scanned));
  }

  lemma DetachStep(s: State, a: Action)
    requires Inv(s) && Enabled(s, a) && (a.GiveUp? || a.ReReport?)
    ensures Inv(Apply(s, a))
  {
    hide Inv;
    var th := s.threads[a.t];
    ThreadFacts(s, a.t);
    var s' := Apply(s, a);
    var mid := s.(threads := s.threads[a.t := s'.threads[a.t]]);
    SetThread(s, mid, a.t, s'.threads[a.t]);
    SetThread(mid, s', a.z, th);
  }

  lemma LateStep(s: State, a: Action)
    requires Inv(s) && Enabled(s, a)
    requires a.Schedule? || a.Emit? || a.Scan? || a.Promote? || a.Drop? || a.GiveUp? || a.ReReport? || a.DropScan?
    ensures Inv(Apply(s, a))
  {
    hide Inv, FreeFor;
    match a
    case Schedule(t, jitter) => ScheduleStep(s, t, jitter);
    case Emit(t) => EmitStep(s, t);
    case Scan(members) => SetScanned(s, Apply(s, a));
    case Promote => PromoteStep(s);
    case Drop(t) => EndThread(s, t);
    case GiveUp(_, _) => DetachStep(s, a);
    case ReReport(_, _, _) => DetachStep(s, a);
    case DropScan => SetScanned(s, Apply(s, a));
  }

  /** The invariant holds along every step of either level. */
  lemma StepKeepsInv(level: Level, s: State, a: Action, s': State)
    requires Inv(s) && Step(level, s, a, s')
    ensures Inv(s')
  {
    hide Inv, FreeFor;
    match a
    case Tick(to) => Unobserved(s, s');
    case Submit(t, req) => SetThread(s, s', t, s'.threads[t]);
    case Insert(t, id) => InsertStep(s, t, id);
    case Enqueue(t) => EnqueueStep(s, t);
    case MarkQueued(t) => MarkStep(s, t);
    case Cancel(tenant, op) => CancelStep(s, tenant, op);
    case Pop(t) => PopStep(s, t);
    case Fetch(t) => FetchStep(s, t);
    case Start(t, attempt) => StartStep(s, t, attempt);
    case Incr(t, ok) => IncrStep(s, t, ok);
    case Commit(t, n) => CommitStep(s, t, n);
    case _ =>
      hide Apply, Enabled;
      if LocalAction(a) { LocalStep(s, a); } else { LateStep(s, a); }
  }
}
