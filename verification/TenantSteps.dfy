/** Every fault-free step of the whole system is, for each tenant, a step of that tenant's part
    or invisible to it. */
module TenantSteps {
  import opened Model
  import opened JobQueue
  import opened Protocol
  import opened Carrier
  import opened FaultFree
  import opened Tenants
  import CarrierSteps
  import Store
  import Frame

  /** The tenant's own action has the same effect on its part as the action had on the whole. */
  ghost predicate Follows(s: State, a: Action, tenant: Tenant) {
    Enabled(s, a) && Enabled(Of(s, tenant), a) && Apply(Of(s, tenant), a) == Of(Apply(s, a), tenant)
  }

  ghost predicate Invisible(s: State, a: Action, tenant: Tenant) {
    Enabled(s, a) && Of(Apply(s, a), tenant) == Of(s, tenant)
  }

  lemma MineThread(s: State, t: Tid, tenant: Tenant)
    requires t in s.threads && Owner(s.ops, s.threads[t]) == Some(tenant)
    ensures t in Of(s, tenant).threads && Of(s, tenant).threads[t] == s.threads[t]
  {
  }

  lemma KeyTakenOf(ops: Ops, tenant: Tenant, key: string)
    ensures Store.KeyTaken(OpsOf(ops, tenant), tenant, key) <==> Store.KeyTaken(ops, tenant, key)
  {
    if o :| o in ops && Store.HoldsKey(ops[o], tenant, key) {
      assert o in OpsOf(ops, tenant) && Store.HoldsKey(OpsOf(ops, tenant)[o], tenant, key);
    }
  }

  // ---- the tenant's own steps ----

  lemma LookupMine(s: State, t: Tid, found: Option<OpId>, tenant: Tenant)
    requires Enabled(s, Lookup(t, found)) && s.threads[t].req.tenant == tenant
    ensures Follows(s, Lookup(t, found), tenant)
  {
    MineThread(s, t, tenant);
    KeyTakenOf(s.ops, tenant, s.threads[t].req.key.value);
    SetMine(s.ops, s.threads, t, Apply(s, Lookup(t, found)).threads[t], tenant);
  }

  lemma RefetchMine(s: State, t: Tid, id: OpId, tenant: Tenant)
    requires Enabled(s, Refetch(t, id)) && s.threads[t].req.tenant == tenant
    ensures Follows(s, Refetch(t, id), tenant)
  {
    hide Store.KeyTaken;
    MineThread(s, t, tenant);
    SetMine(s.ops, s.threads, t, Apply(s, Refetch(t, id)).threads[t], tenant);
  }

  lemma ConflictsOf(ops: Ops, req: CreateRequest)
    ensures Store.Conflicts(OpsOf(ops, req.tenant), req) == Store.Conflicts(ops, req)
  {
    if req.key.Some? { KeyTakenOf(ops, req.tenant, req.key.value); }
  }

  /** A new row of this tenant. */
  lemma NewRowMine(s: State, o: OpId, row: Operation, tenant: Tenant)
    requires Inv(s) && o !in s.ops && row.tenant == tenant
    ensures var ops' := s.ops[o := row];
            o !in OpsOf(s.ops, tenant) && OpsOf(ops', tenant) == OpsOf(s.ops, tenant)[o := row] &&
            AttemptsOf(ops', s.attempts, tenant) == AttemptsOf(s.ops, s.attempts, tenant) &&
            ThreadsOf(ops', s.threads, tenant) == ThreadsOf(s.ops, s.threads, tenant)
  {
    hide Inv;
    ThreadsSame(s, s.ops[o := row], tenant);
    AttemptsSame(s, s.ops[o := row], tenant);
  }

  lemma InsertMine(s: State, t: Tid, id: OpId, tenant: Tenant)
    requires Inv(s) && Enabled(s, Insert(t, id)) && s.threads[t].req.tenant == tenant
    ensures Follows(s, Insert(t, id), tenant)
  {
    hide Inv, Store.Conflicts, Store.NewRow;
    MineThread(s, t, tenant);
    var req := s.threads[t].req;
    ConflictsOf(s.ops, req);
    if Store.Conflicts(s.ops, req) {
      SetMine(s.ops, s.threads, t, Refetching(req), tenant);
      hide OpsOf, AttemptsOf, ThreadsOf;
      assert id !in OpsOf(s.ops, tenant) by { AbsentMine(s.ops, id, tenant); }
    } else {
      NewRowFields(req, s.now);
      NewRowMine(s, id, Store.NewRow(req, s.now), tenant);
      SetMine(s.ops[id := Store.NewRow(req, s.now)], s.threads, t, Submitting(req, id), tenant);
      hide OpsOf, AttemptsOf, ThreadsOf;
    }
  }

  lemma NewRowFields(req: CreateRequest, now: nat)
    ensures Store.NewRow(req, now).tenant == req.tenant
  {
  }

  lemma AbsentMine(ops: Ops, id: OpId, tenant: Tenant)
    requires id !in ops
    ensures id !in OpsOf(ops, tenant)
  {
  }

  lemma EnqueueMine(s: State, t: Tid, tenant: Tenant)
    requires Enabled(s, Enqueue(t)) && s.threads[t].req.tenant == tenant
    ensures Follows(s, Enqueue(t), tenant)
  {
    MineThread(s, t, tenant);
    var s' := ApplyEnqueue(s, t);
    SetMine(s.ops, s.threads, t, s'.threads[t], tenant);
    JobsPush(s.main, s'.main[0], tenant);
  }

  /** A row of this tenant is written, no tenant changes, the thread keeps its owner. */
  lemma RowMine(s: State, o: OpId, row: Operation, tenant: Tenant)
    requires Inv(s) && o in s.ops && s.ops[o].tenant == tenant == row.tenant
    ensures var ops' := s.ops[o := row];
            OpsOf(ops', tenant) == OpsOf(s.ops, tenant)[o := row] &&
            AttemptsOf(ops', s.attempts, tenant) == AttemptsOf(s.ops, s.attempts, tenant) &&
            ThreadsOf(ops', s.threads, tenant) == ThreadsOf(s.ops, s.threads, tenant)
  {
    hide Inv;
    ThreadsSame(s, s.ops[o := row], tenant);
    AttemptsSame(s, s.ops[o := row], tenant);
  }

  lemma MarkMine(s: State, t: Tid, tenant: Tenant)
    requires Inv(s) && Enabled(s, MarkQueued(t)) && s.threads[t].req.tenant == tenant
    ensures Follows(s, MarkQueued(t), tenant)
  {
    hide Inv;
    MineThread(s, t, tenant);
    CarrierSteps.ThreadFacts(s, t);
    var s' := Apply(s, MarkQueued(t));
    var o := s.threads[t].op;
    RowMine(s, o, s'.ops[o], tenant);
    assert s.ops[o := s'.ops[o]] == s'.ops;
    SetMine(s'.ops, s.threads, t, s'.threads[t], tenant);
  }

  lemma CancelMine(s: State, tenant: Tenant, o: OpId)
    requires Inv(s)
    ensures Follows(s, Cancel(tenant, o), tenant)
  {
    hide Inv;
    var s' := Apply(s, Cancel(tenant, o));
    if Store.Cancellable(s.ops, tenant, o) { RowMine(s, o, s'.ops[o], tenant); }
  }

  lemma PopMine(s: State, t: Tid, tenant: Tenant)
    requires Inv(s) && Enabled(s, Pop(t)) && s.main[|s.main| - 1].tenant == tenant
    ensures Follows(s, Pop(t), tenant)
  {
    hide Inv;
    CarrierSteps.ThreadFacts(s, t);
    JobsPop(s.main, tenant);
    SetMine(s.ops, s.threads, t, Popped(s.main[|s.main| - 1]), tenant);
    assert JobsOf(s.main, tenant)[..|JobsOf(s.main, tenant)| - 1] == JobsOf(s.main[..|s.main| - 1], tenant);
  }

  lemma FetchMine(s: State, t: Tid, tenant: Tenant)
    requires Inv(s) && Enabled(s, Fetch(t)) && s.threads[t].job.tenant == tenant
    ensures Follows(s, Fetch(t), tenant)
  {
    hide Inv, FreeFor, AttemptsOf;
    MineThread(s, t, tenant);
    CarrierSteps.ThreadFacts(s, t);
    SetMine(s.ops, s.threads, t, ApplyFetch(s, t).threads[t], tenant);
  }

  lemma StartMine(s: State, t: Tid, a: AttemptId, tenant: Tenant)
    requires Inv(s) && Enabled(s, Start(t, a)) && s.ops[s.threads[t].op].tenant == tenant
    ensures Follows(s, Start(t, a), tenant)
  {
    hide Inv;
    MineThread(s, t, tenant);
    var s' := ApplyStart(s, t, a);
    var o := s.threads[t].op;
    RowMine(s, o, s'.ops[o], tenant);
    assert AttemptsOf(s'.ops, s'.attempts, tenant) == AttemptsOf(s'.ops, s.attempts, tenant)[a := s'.attempts[a]];
    SetMine(s'.ops, s.threads, t, s'.threads[t], tenant);
  }

  lemma StepMine(s: State, a: Action, tenant: Tenant)
    requires Inv(s) && Enabled(s, a) && (a.Resolve? || a.Finish? || a.Read?)
    requires Owner(s.ops, s.threads[a.t]) == Some(tenant)
    ensures Follows(s, a, tenant)
  {
    hide Inv;
    MineThread(s, a.t, tenant);
    CarrierSteps.ThreadFacts(s, a.t);
    SetMine(s.ops, s.threads, a.t, Apply(s, a).threads[a.t], tenant);
  }

  lemma CountersMine(counters: map<Tenant, int>, tenant: Tenant, v: int)
    ensures CountersOf(counters[tenant := v], tenant) == CountersOf(counters, tenant)[tenant := v]
    ensures Counter(CountersOf(counters, tenant), tenant) == Counter(counters, tenant)
  {
  }

  lemma IncrMine(s: State, t: Tid, tenant: Tenant)
    requires Inv(s) && Enabled(s, Incr(t, true)) && Owner(s.ops, s.threads[t]) == Some(tenant)
    ensures Follows(s, Incr(t, true), tenant)
  {
    hide Inv, FreeFor, AttemptOk, AttemptsOf, OpsOf;
    MineThread(s, t, tenant);
    CarrierSteps.ThreadFacts(s, t);
    var s' := ApplyIncr(s, t, true);
    CountersMine(s.counters, tenant, Counter(s.counters, tenant) + 1);
    if t.Worker? {
      SetMine(s.ops, s.threads, t, s'.threads[t], tenant);
    } else {
      EndMine(s.ops, s.threads, t, tenant);
    }
  }

  lemma DecrMine(s: State, t: Tid, tenant: Tenant)
    requires Inv(s) && Enabled(s, Decr(t, true)) && Owner(s.ops, s.threads[t]) == Some(tenant)
    ensures Follows(s, Decr(t, true), tenant)
  {
    hide Inv, FreeFor, AttemptOk, AttemptsOf, OpsOf;
    MineThread(s, t, tenant);
    CarrierSteps.ThreadFacts(s, t);
    CountersMine(s.counters, tenant, Counter(s.counters, tenant) - 1);
    SetMine(s.ops, s.threads, t, ApplyDecr(s, t, true).threads[t], tenant);
  }

  lemma ClampMine(s: State, t: Tid, tenant: Tenant)
    requires Inv(s) && Enabled(s, Clamp(t, true)) && Owner(s.ops, s.threads[t]) == Some(tenant)
    ensures Follows(s, Clamp(t, true), tenant)
  {
    hide Inv, FreeFor, AttemptOk, AttemptsOf, OpsOf;
    MineThread(s, t, tenant);
    CarrierSteps.ThreadFacts(s, t);
    CountersMine(s.counters, tenant, 0);
    SetMine(s.ops, s.threads, t, Apply(s, Clamp(t, true)).threads[t], tenant);
  }

  lemma ScheduleMine(s: State, t: Tid, jitter: nat, tenant: Tenant)
    requires Inv(s) && Enabled(s, Schedule(t, jitter)) && Owner(s.ops, s.threads[t]) == Some(tenant)
    ensures Follows(s, Schedule(t, jitter), tenant)
  {
    hide Inv, ReadyAt, FreeFor, AttemptOk, AttemptsOf, OpsOf;
    MineThread(s, t, tenant);
    CarrierSteps.ThreadFacts(s, t);
    var s' := ApplySchedule(s, t, jitter);
    EndMine(s.ops, s.threads, t, tenant);
    var job := RetryJob(s.threads[t].op, s.threads[t].stage.seen, s.now);
    assert DelayedOf(s'.delayed, tenant) == DelayedOf(s.delayed, tenant)[job := s'.delayed[job]];
  }

  lemma MeteringUnbilled(s: State, t: Tid)
    requires Ends(s) && t in s.threads && s.threads[t].Metering?
    ensures s.threads[t].op !in s.ledger
  {
  }

  lemma LedgerMine(ledger: map<OpId, UsageRow>, o: OpId, row: UsageRow, tenant: Tenant)
    requires o !in ledger
    ensures LedgerOf(ledger[o := row], tenant) ==
            if row.tenant == tenant then LedgerOf(ledger, tenant)[o := row] else LedgerOf(ledger, tenant)
  {
  }

  lemma RecordMine(s: State, t: Tid, tenant: Tenant)
    requires Ends(s) && Enabled(s, Record(t)) && s.threads[t].tenant == tenant
    ensures Follows(s, Record(t), tenant)
  {
    hide Ends;
    MineThread(s, t, tenant);
    MeteringUnbilled(s, t);
    var o := s.threads[t].op;
    SetMine(s.ops, s.threads, t, Announcing(tenant, o, OperationSucceeded), tenant);
    LedgerMine(s.ledger, o, UsageRow(tenant, 1, s.now), tenant);
    hide LedgerOf;
    assert o !in Of(s, tenant).ledger by { LedgerAbsent(s.ledger, o, tenant); }
  }

  lemma LedgerAbsent(ledger: map<OpId, UsageRow>, o: OpId, tenant: Tenant)
    requires o !in ledger
    ensures o !in LedgerOf(ledger, tenant)
  {
  }

  lemma EmitMine(s: State, t: Tid, tenant: Tenant)
    requires Enabled(s, Emit(t)) && Owner(s.ops, s.threads[t]) == Some(tenant)
    ensures Follows(s, Emit(t), tenant)
  {
    hide AttemptsOf, OpsOf;
    MineThread(s, t, tenant);
    EndMine(s.ops, s.threads, t, tenant);
    EventsAppend(s.events, Event(tenant, s.threads[t].op, s.threads[t].kind), tenant);
  }

  lemma EventsAppend(events: seq<Event>, e: Event, tenant: Tenant)
    ensures EventsOf(events + [e], tenant) == if e.tenant == tenant then EventsOf(events, tenant) + [e]
            else EventsOf(events, tenant)
  {
    assert (events + [e])[..|events|] == events;
  }

  lemma ScanMine(s: State, members: seq<Job>, tenant: Tenant)
    requires Enabled(s, Scan(members))
    ensures Enabled(Of(s, tenant), Scan(JobsOf(members, tenant)))
    ensures Apply(Of(s, tenant), Scan(JobsOf(members, tenant))) == Of(Apply(s, Scan(members)), tenant)
  {
    hide IsDueReply;
    DueReplyOf(s.delayed, s.now, members, tenant);
  }

  lemma PromoteMine(s: State, tenant: Tenant)
    requires Enabled(s, Promote)
    ensures if JobsOf(s.scanned, tenant) == [] then Invisible(s, Promote, tenant) else Follows(s, Promote, tenant)
  {
    JobsPushAll(s.main, s.scanned, tenant);
    DelayedRemove(s.delayed, s.scanned, tenant);
    if JobsOf(s.scanned, tenant) == [] {
      assert ZRemAll(DelayedOf(s.delayed, tenant), []) == DelayedOf(s.delayed, tenant);
    }
  }

  lemma SubmitMine(s: State, t: Tid, req: CreateRequest, tenant: Tenant)
    requires Enabled(s, Submit(t, req)) && req.tenant == tenant
    ensures Follows(s, Submit(t, req), tenant)
  {
    SetMine(s.ops, s.threads, t, Apply(s, Submit(t, req)).threads[t], tenant);
  }

  lemma AttemptMine(ops: Ops, attempts: Attempts, a: AttemptId, att: Attempt, tenant: Tenant)
    requires TenantOk(ops, tenant, att.op)
    ensures AttemptsOf(ops, attempts[a := att], tenant) == AttemptsOf(ops, attempts, tenant)[a := att]
  {
  }

  lemma AttemptForeign(ops: Ops, attempts: Attempts, a: AttemptId, att: Attempt, tenant: Tenant)
    requires !TenantOk(ops, tenant, att.op) && (a in attempts ==> !TenantOk(ops, tenant, attempts[a].op))
    ensures AttemptsOf(ops, attempts[a := att], tenant) == AttemptsOf(ops, attempts, tenant)
  {
  }

  /** What a committing thread knows at either level. */
  lemma CommitKnows(s: State, t: Tid)
    requires Inv(s) && t in s.threads && s.threads[t].Reporting? && s.threads[t].stage.Freed?
    ensures var th := s.threads[t];
            th.op in s.ops && th.attempt in s.attempts && s.attempts[th.attempt].op == th.op &&
            th.stage.seen.tenant == s.ops[th.op].tenant
  {
    CarrierSteps.ThreadFacts(s, t);
  }

  lemma CommitSuccessMine(s: State, t: Tid, n: Tid, tenant: Tenant)
    requires Inv(s) && Enabled(s, Commit(t, n)) && Owner(s.ops, s.threads[t]) == Some(tenant)
    requires s.threads[t].report.Success?
    ensures Follows(s, Commit(t, n), tenant)
  {
    hide Inv, OpsOf, AttemptsOf, ThreadsOf;
    MineThread(s, t, tenant);
    CommitKnows(s, t);
    CommitView(s, t, n, tenant);
    var th := s.threads[t];
    var s' := ApplyCommit(s, t, n);
    RowMine(s, th.op, s'.ops[th.op], tenant);
    assert s.ops[th.op := s'.ops[th.op]] == s'.ops;
    AttemptMine(s'.ops, s.attempts, th.attempt, s'.attempts[th.attempt], tenant);
    EndMine(s'.ops, s.threads, t, tenant);
    SetMine(s'.ops, Ended(s.threads, t), n, s'.threads[n], tenant);
  }

  /** The committing thread finds its row and its attempt in the tenant's part. */
  lemma CommitView(s: State, t: Tid, n: Tid, tenant: Tenant)
    requires Inv(s) && Enabled(s, Commit(t, n)) && Owner(s.ops, s.threads[t]) == Some(tenant)
    ensures var th, p := s.threads[t], Of(s, tenant);
            th.op in p.ops && p.ops[th.op] == s.ops[th.op] &&
            th.attempt in p.attempts && p.attempts[th.attempt] == s.attempts[th.attempt] &&
            t in p.threads && p.threads[t] == th && n !in p.threads && Enabled(p, Commit(t, n))
  {
    hide Inv;
    CommitKnows(s, t);
  }

  lemma CommitFailureMine(s: State, t: Tid, n: Tid, tenant: Tenant)
    requires Inv(s) && Enabled(s, Commit(t, n)) && Owner(s.ops, s.threads[t]) == Some(tenant)
    requires s.threads[t].report.Failure?
    ensures Follows(s, Commit(t, n), tenant)
  {
    hide Inv, OpsOf, AttemptsOf, ThreadsOf;
    MineThread(s, t, tenant);
    CommitKnows(s, t);
    CommitView(s, t, n, tenant);
    var th := s.threads[t];
    var s' := ApplyCommit(s, t, n);
    RowMine(s, th.op, s'.ops[th.op], tenant);
    assert s.ops[th.op := s'.ops[th.op]] == s'.ops;
    AttemptMine(s'.ops, s.attempts, th.attempt, s'.attempts[th.attempt], tenant);
    if WillRetry(th.report, th.stage.seen) {
      SetMine(s'.ops, s.threads, t, s'.threads[t], tenant);
    } else {
      EndMine(s'.ops, s.threads, t, tenant);
      SetMine(s'.ops, Ended(s.threads, t), n, s'.threads[n], tenant);
    }
  }

  // ---- other tenants' steps ----

  lemma RowForeign(s: State, o: OpId, row: Operation, tenant: Tenant)
    requires Inv(s) && row.tenant != tenant && (o in s.ops ==> s.ops[o].tenant == row.tenant)
    ensures var ops' := s.ops[o := row];
            OpsOf(ops', tenant) == OpsOf(s.ops, tenant) &&
            AttemptsOf(ops', s.attempts, tenant) == AttemptsOf(s.ops, s.attempts, tenant) &&
            ThreadsOf(ops', s.threads, tenant) == ThreadsOf(s.ops, s.threads, tenant)
  {
    hide Inv;
    ThreadsSame(s, s.ops[o := row], tenant);
    AttemptsSame(s, s.ops[o := row], tenant);
  }

  lemma SubmitForeign(s: State, t: Tid, req: CreateRequest, tenant: Tenant)
    requires Enabled(s, Submit(t, req)) && req.tenant != tenant
    ensures Invisible(s, Submit(t, req), tenant)
  {
    SetForeign(s.ops, s.threads, t, Apply(s, Submit(t, req)).threads[t], tenant);
  }

  lemma InsertForeign(s: State, t: Tid, id: OpId, tenant: Tenant)
    requires Inv(s) && Enabled(s, Insert(t, id)) && s.threads[t].req.tenant != tenant
    ensures Invisible(s, Insert(t, id), tenant)
  {
    hide Inv, Store.Conflicts, OpsOf, AttemptsOf;
    var s' := ApplyInsert(s, t, id);
    if s'.ops != s.ops {
      RowForeign(s, id, s'.ops[id], tenant);
      SetForeign(s'.ops, s.threads, t, s'.threads[t], tenant);
    } else {
      SetForeign(s.ops, s.threads, t, s'.threads[t], tenant);
    }
  }

  lemma EnqueueForeign(s: State, t: Tid, tenant: Tenant)
    requires Enabled(s, Enqueue(t)) && s.threads[t].req.tenant != tenant
    ensures Invisible(s, Enqueue(t), tenant)
  {
    SetForeign(s.ops, s.threads, t, ApplyEnqueue(s, t).threads[t], tenant);
    JobsPush(s.main, ApplyEnqueue(s, t).main[0], tenant);
  }

  lemma MarkForeign(s: State, t: Tid, tenant: Tenant)
    requires Inv(s) && Enabled(s, MarkQueued(t)) && s.threads[t].req.tenant != tenant
    ensures Invisible(s, MarkQueued(t), tenant)
  {
    hide Inv;
    CarrierSteps.ThreadFacts(s, t);
    var s' := Apply(s, MarkQueued(t));
    var o := s.threads[t].op;
    RowForeign(s, o, s'.ops[o], tenant);
    assert s.ops[o := s'.ops[o]] == s'.ops;
    SetForeign(s'.ops, s.threads, t, s'.threads[t], tenant);
  }

  lemma CancelForeign(s: State, u: Tenant, o: OpId, tenant: Tenant)
    requires Inv(s) && u != tenant
    ensures Invisible(s, Cancel(u, o), tenant)
  {
    hide Inv;
    var s' := Apply(s, Cancel(u, o));
    if Store.Cancellable(s.ops, u, o) { RowForeign(s, o, s'.ops[o], tenant); }
  }

  lemma PopForeign(s: State, t: Tid, tenant: Tenant)
    requires Enabled(s, Pop(t)) && s.main[|s.main| - 1].tenant != tenant
    ensures Invisible(s, Pop(t), tenant)
  {
    JobsPop(s.main, tenant);
    SetForeign(s.ops, s.threads, t, Popped(s.main[|s.main| - 1]), tenant);
  }

  lemma StartForeign(s: State, t: Tid, a: AttemptId, tenant: Tenant)
    requires Inv(s) && Enabled(s, Start(t, a)) && s.ops[s.threads[t].op].tenant != tenant
    ensures Invisible(s, Start(t, a), tenant)
  {
    hide Inv;
    var s' := ApplyStart(s, t, a);
    var o := s.threads[t].op;
    RowForeign(s, o, s'.ops[o], tenant);
    AttemptForeign(s'.ops, s.attempts, a, s'.attempts[a], tenant);
    SetForeign(s'.ops, s.threads, t, s'.threads[t], tenant);
  }

  predicate OwnThreadAction(a: Action) {
    a.Lookup? || a.Refetch? || a.Fetch? || a.Resolve? || a.Finish? || a.Read?
  }

  /** A local action only rewrites its own thread, for the same owner or none. */
  ghost predicate SameOwner(s: State, a: Action, s': State)
    requires OwnThreadAction(a)
  {
    a.t in s.threads && a.t in s'.threads && s' == s.(threads := s.threads[a.t := s'.threads[a.t]]) &&
    (Owner(s.ops, s'.threads[a.t]) == Owner(s.ops, s.threads[a.t]) || s'.threads[a.t] == Idle)
  }

  lemma ClientOwner(s: State, a: Action)
    requires Enabled(s, a) && (a.Lookup? || a.Refetch? || a.Resolve?)
    ensures SameOwner(s, a, Apply(s, a))
  {
    hide Store.KeyTaken, Store.HoldsKey;
    match a
    case Lookup(_, _) =>
    case Refetch(_, _) =>
    case Resolve(_) =>
  }

  lemma WorkerOwner(s: State, a: Action)
    requires Inv(s) && Enabled(s, a) && (a.Fetch? || a.Finish? || a.Read?)
    ensures SameOwner(s, a, Apply(s, a))
  {
    hide Inv, AttemptOk, StageOk, FreeFor;
    CarrierSteps.ThreadFacts(s, a.t);
    match a
    case Fetch(_) =>
    case Finish(_, _) =>
    case Read(_) =>
  }

  lemma LocalForeign(s: State, a: Action, tenant: Tenant)
    requires Inv(s) && Enabled(s, a) && OwnThreadAction(a)
    requires Owner(s.ops, s.threads[a.t]) != Some(tenant)
    ensures Invisible(s, a, tenant)
  {
    hide Inv, Apply, Enabled;
    if a.Lookup? || a.Refetch? || a.Resolve? { ClientOwner(s, a); } else { WorkerOwner(s, a); }
    SetForeign(s.ops, s.threads, a.t, Apply(s, a).threads[a.t], tenant);
  }

  lemma CountersForeign(counters: map<Tenant, int>, u: Tenant, v: int, tenant: Tenant)
    requires u != tenant
    ensures CountersOf(counters[u := v], tenant) == CountersOf(counters, tenant)
  {
  }

  lemma IncrForeign(s: State, t: Tid, tenant: Tenant)
    requires Inv(s) && Enabled(s, Incr(t, true)) && Owner(s.ops, s.threads[t]) != Some(tenant)
    ensures Invisible(s, Incr(t, true), tenant)
  {
    hide Inv, FreeFor, AttemptOk, AttemptsOf, OpsOf;
    CarrierSteps.ThreadFacts(s, t);
    var s' := ApplyIncr(s, t, true);
    CountersForeign(s.counters, s.threads[t].tenant, Counter(s.counters, s.threads[t].tenant) + 1, tenant);
    if t.Worker? {
      SetForeign(s.ops, s.threads, t, s'.threads[t], tenant);
    } else {
      EndForeign(s.ops, s.threads, t, tenant);
    }
  }

  lemma DecrForeign(s: State, t: Tid, tenant: Tenant)
    requires Inv(s) && Enabled(s, Decr(t, true)) && Owner(s.ops, s.threads[t]) != Some(tenant)
    ensures Invisible(s, Decr(t, true), tenant)
  {
    hide Inv, FreeFor, AttemptOk, AttemptsOf, OpsOf;
    CarrierSteps.ThreadFacts(s, t);
    var u := s.threads[t].stage.seen.tenant;
    CountersForeign(s.counters, u, Counter(s.counters, u) - 1, tenant);
    SetForeign(s.ops, s.threads, t, ApplyDecr(s, t, true).threads[t], tenant);
  }

  lemma ClampForeign(s: State, t: Tid, tenant: Tenant)
    requires Inv(s) && Enabled(s, Clamp(t, true)) && Owner(s.ops, s.threads[t]) != Some(tenant)
    ensures Invisible(s, Clamp(t, true), tenant)
  {
    hide Inv, FreeFor, AttemptOk, AttemptsOf, OpsOf;
    CarrierSteps.ThreadFacts(s, t);
    CountersForeign(s.counters, s.threads[t].stage.seen.tenant, 0, tenant);
    SetForeign(s.ops, s.threads, t, Apply(s, Clamp(t, true)).threads[t], tenant);
  }

  lemma CommitForeign(s: State, t: Tid, n: Tid, tenant: Tenant)
    requires Inv(s) && Enabled(s, Commit(t, n)) && Owner(s.ops, s.threads[t]) != Some(tenant)
    ensures Invisible(s, Commit(t, n), tenant)
  {
    hide Inv, OpsOf, AttemptsOf, ThreadsOf, Apply, Enabled;
    Frame.CommitThreads(s, t, n);
    CommitKnows(s, t);
    CommitRow(s, t, n);
    Frame.CommitAttempts(s, t, n);
    Frame.TouchesTables(s, Commit(t, n));
    Frame.TouchesRest(s, Commit(t, n));
    var th := s.threads[t];
    var s' := Apply(s, Commit(t, n));
    RowForeign(s, th.op, s'.ops[th.op], tenant);
    AttemptForeign(s'.ops, s.attempts, th.attempt, s'.attempts[th.attempt], tenant);
    if WillRetry(th.report, th.stage.seen) {
      SetForeign(s'.ops, s.threads, t, s'.threads[t], tenant);
    } else {
      EndForeign(s'.ops, s.threads, t, tenant);
      SetForeign(s'.ops, Ended(s.threads, t), n, s'.threads[n], tenant);
    }
  }

  lemma CommitRow(s: State, t: Tid, n: Tid)
    requires Enabled(s, Commit(t, n)) && s.threads[t].op in s.ops
    ensures var o, ops' := s.threads[t].op, Apply(s, Commit(t, n)).ops;
            o in ops' && ops' == s.ops[o := ops'[o]] && ops'[o].tenant == s.ops[o].tenant
  {
    hide Apply, Enabled;
    Frame.CommitRows(s, t, n);
  }

  lemma ScheduleForeign(s: State, t: Tid, jitter: nat, tenant: Tenant)
    requires Inv(s) && Enabled(s, Schedule(t, jitter)) && Owner(s.ops, s.threads[t]) != Some(tenant)
    ensures Invisible(s, Schedule(t, jitter), tenant)
  {
    hide Inv, ReadyAt, FreeFor, AttemptOk, AttemptsOf, OpsOf;
    CarrierSteps.ThreadFacts(s, t);
    EndForeign(s.ops, s.threads, t, tenant);
    hide ThreadsOf;
    assert DelayedOf(ApplySchedule(s, t, jitter).delayed, tenant) == DelayedOf(s.delayed, tenant);
  }

  lemma RecordForeign(s: State, t: Tid, tenant: Tenant)
    requires Ends(s) && Enabled(s, Record(t)) && s.threads[t].tenant != tenant
    ensures Invisible(s, Record(t), tenant)
  {
    hide Ends;
    MeteringUnbilled(s, t);
    LedgerMine(s.ledger, s.threads[t].op, UsageRow(s.threads[t].tenant, 1, s.now), tenant);
    SetForeign(s.ops, s.threads, t, Apply(s, Record(t)).threads[t], tenant);
  }

  lemma EmitForeign(s: State, t: Tid, tenant: Tenant)
    requires Enabled(s, Emit(t)) && s.threads[t].tenant != tenant
    ensures Invisible(s, Emit(t), tenant)
  {
    EndForeign(s.ops, s.threads, t, tenant);
    EventsAppend(s.events, Event(s.threads[t].tenant, s.threads[t].op, s.threads[t].kind), tenant);
  }
}
