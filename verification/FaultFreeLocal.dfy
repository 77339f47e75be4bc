/** Fault-free steps keep what threads, jobs and attempt rows say about outcomes. */
module FaultFreeLocal {
  import opened Model
  import opened JobQueue
  import opened Protocol
  import opened Carrier
  import opened FaultFree
  import CarrierSteps
  import Store
  import Frame

  // ---- frames ----

  /** Two versions of the tables that agree on every operation but o. */
  ghost predicate SameElsewhere(ops: Ops, attempts: Attempts, ops': Ops, attempts': Attempts, o: OpId) {
    && (forall p :: p in ops && p != o ==> p in ops' && ops'[p] == ops[p])
    && (forall a :: a in attempts && attempts[a].op != o ==> a in attempts' && attempts'[a] == attempts[a])
    && (forall a :: a in attempts' && attempts'[a].op != o ==> a in attempts && attempts[a] == attempts'[a])
  }

  lemma ThreadElsewhere(ops: Ops, attempts: Attempts, ops': Ops, attempts': Attempts, ledger: map<OpId, UsageRow>,
                        t: Tid, th: Thread, o: OpId)
    requires SameElsewhere(ops, attempts, ops', attempts', o)
    requires ThreadClean(ops, attempts, ledger, t, th) && Carried(t, th) != Some(o) && Ending(th) != Some(o)
    ensures ThreadClean(ops', attempts', ledger, t, th)
  {
  }

  lemma ThreadsElsewhere(ops: Ops, attempts: Attempts, ops': Ops, attempts': Attempts, ledger: map<OpId, UsageRow>,
                         threads: map<Tid, Thread>, o: OpId)
    requires SameElsewhere(ops, attempts, ops', attempts', o)
    requires ThreadsClean(ops, attempts, ledger, threads)
    requires NotInThreads(threads, None, o) && forall t :: t in threads ==> Ending(threads[t]) != Some(o)
    ensures ThreadsClean(ops', attempts', ledger, threads)
  {
    forall t | t in threads
      ensures ThreadClean(ops', attempts', ledger, t, threads[t])
    {
      assert Carried(t, threads[t]) != Some(o);
      ThreadElsewhere(ops, attempts, ops', attempts', ledger, t, threads[t], o);
    }
  }

  lemma JobsElsewhere(ops: Ops, attempts: Attempts, ops': Ops, attempts': Attempts,
                      main: seq<Job>, delayed: map<Job, int>, o: OpId)
    requires SameElsewhere(ops, attempts, ops', attempts', o) && JobsClean(ops, attempts, main, delayed)
    requires NotInMain(main, o) && NotInDelayed(delayed, o)
    ensures JobsClean(ops', attempts', main, delayed)
  {
  }

  lemma HistoryElsewhere(ops: Ops, attempts: Attempts, ops': Ops, attempts': Attempts, o: OpId)
    requires SameElsewhere(ops, attempts, ops', attempts', o) && History(ops, attempts)
    requires ops'.Keys == ops.Keys + {o} && forall a :: a in attempts ==> attempts[a].op in ops
    requires forall a :: a in attempts' && attempts'[a].op == o ==>
               o in ops' &&
               (attempts'[a].number < ops'[o].attemptCount ==> FailedAs(attempts'[a], Transient)) &&
               (attempts'[a].number == ops'[o].attemptCount ==> LastOk(ops'[o], attempts'[a]))
    requires o in ops' && ops'[o].status in {Succeeded, Failed, DeadLettered, Retrying, Running} ==>
             ops'[o].attemptCount >= 1
    ensures History(ops', attempts')
  {
  }

  /** Cancelling or queueing a row disturbs no thread, job or attempt. */
  lemma BenignLocal(s: State, s': State, o: OpId, row: Operation)
    requires Local(s) && o in s.ops && Benign(s.ops[o], row) && row.status in {Cancelled, Queued}
    requires s'.ops == s.ops[o := row] && s'.attempts == s.attempts && s'.main == s.main && s'.delayed == s.delayed
    requires s'.threads == s.threads && s'.ledger == s.ledger
    ensures Local(s')
  {
    assert forall p :: Clean(s.ops, s.attempts, p) ==> Clean(s'.ops, s'.attempts, p);
    forall t | t in s'.threads
      ensures ThreadClean(s'.ops, s'.attempts, s'.ledger, t, s'.threads[t])
    {
      assert ThreadClean(s.ops, s.attempts, s.ledger, t, s.threads[t]);
    }
  }

  lemma SetClean(ops: Ops, attempts: Attempts, ledger: map<OpId, UsageRow>, threads: map<Tid, Thread>, t: Tid,
      th: Thread)
    requires ThreadsClean(ops, attempts, ledger, threads) && ThreadClean(ops, attempts, ledger, t, th)
    ensures ThreadsClean(ops, attempts, ledger, threads[t := th])
  {
  }

  lemma EndClean(ops: Ops, attempts: Attempts, ledger: map<OpId, UsageRow>, threads: map<Tid, Thread>, t: Tid)
    requires ThreadsClean(ops, attempts, ledger, threads)
    ensures ThreadsClean(ops, attempts, ledger, Ended(threads, t))
    ensures ThreadsClean(ops, attempts, ledger, threads - {t})
    ensures t in threads ==> ThreadClean(ops, attempts, ledger, t, threads[t])
  {
  }

  lemma LedgerGrows(ops: Ops, attempts: Attempts, ledger: map<OpId, UsageRow>, ledger': map<OpId, UsageRow>,
      threads: map<Tid, Thread>)
    requires ThreadsClean(ops, attempts, ledger, threads) && ledger.Keys <= ledger'.Keys
    ensures ThreadsClean(ops, attempts, ledger', threads)
  {
    forall t | t in threads
      ensures ThreadClean(ops, attempts, ledger', t, threads[t])
    {
      assert ThreadClean(ops, attempts, ledger, t, threads[t]);
    }
  }

  /** A carried operation has no outcome on its way out. */
  lemma CarriedNotOver(s: State, t: Tid, o: OpId)
    requires OverFree(s) && t in s.threads && Carried(t, s.threads[t]) == Some(o)
    ensures forall u :: u in s.threads ==> Ending(s.threads[u]) != Some(o)
    ensures forall i :: 0 <= i < |s.events| ==> s.events[i].op != o
    ensures o !in s.ledger
  {
  }

  // ---- steps that write rows ----

  lemma InsertLocal(s: State, t: Tid, id: OpId)
    requires Inv(s) && Local(s) && Enabled(s, Insert(t, id))
    ensures Local(ApplyInsert(s, t, id))
  {
    hide Inv, ThreadsClean, JobsClean, History, Store.KeyTaken, Store.Conflicts;
    var s' := ApplyInsert(s, t, id);
    if Store.Conflicts(s.ops, s.threads[t].req) {
      SetClean(s.ops, s.attempts, s.ledger, s.threads, t, s'.threads[t]);
    } else {
      NewRowLocal(s, id, s'.ops[id]);
      SetClean(s'.ops, s'.attempts, s.ledger, s.threads, t, s'.threads[t]);
    }
  }

  /** A fresh row without attempts: nothing speaks of it yet. */
  lemma NewRowLocal(s: State, id: OpId, row: Operation)
    requires Inv(s) && Local(s) && id !in s.ops && row.status == Pending && row.attemptCount == 0
    ensures var ops' := s.ops[id := row];
            ThreadsClean(ops', s.attempts, s.ledger, s.threads) && JobsClean(ops', s.attempts, s.main, s.delayed) &&
            History(ops', s.attempts) && Clean(ops', s.attempts, id)
  {
    hide Inv, ThreadsClean, JobsClean, History;
    var ops' := s.ops[id := row];
    NothingHoldsUnknown(s, id);
    UnknownNotEnding(s, id);
    NoAttempts(s, id);
    hide NotInThreads, NotInMain, NotInDelayed;
    ThreadsElsewhere(s.ops, s.attempts, ops', s.attempts, s.ledger, s.threads, id);
    JobsElsewhere(s.ops, s.attempts, ops', s.attempts, s.main, s.delayed, id);
    HistoryElsewhere(s.ops, s.attempts, ops', s.attempts, id);
  }

  lemma NoAttempts(s: State, id: OpId)
    requires Inv(s) && id !in s.ops
    ensures forall a :: a in s.attempts ==> s.attempts[a].op in s.ops && s.attempts[a].op != id
  {
    NumberedFacts(s);
    hide Inv;
  }

  lemma NumberedFacts(s: State)
    requires Inv(s)
    ensures Numbered(s.ops, s.attempts) && Capped(s.ops)
  {
  }

  lemma UnknownNotEnding(s: State, o: OpId)
    requires Inv(s) && o !in s.ops
    ensures forall t :: t in s.threads ==> Ending(s.threads[t]) != Some(o)
  {
    forall t | t in s.threads
      ensures Ending(s.threads[t]) != Some(o)
    {
      CarrierSteps.ThreadFacts(s, t);
    }
  }

  lemma MarkLocal(s: State, t: Tid)
    requires Inv(s) && Local(s) && Enabled(s, MarkQueued(t))
    ensures Local(Apply(s, MarkQueued(t)))
  {
    hide Inv, ThreadsClean, JobsClean, History;
    var req, o := s.threads[t].req, s.threads[t].op;
    var s1 := s.(ops := Store.Enqueued(s.ops, o));
    MarkRow(s, s1, o);
    hide Local;
    SetClean(s1.ops, s1.attempts, s1.ledger, s1.threads, t, Replied(req, o, false));
    SetLocal(s1, Apply(s, MarkQueued(t)));
  }

  lemma MarkRow(s: State, s1: State, o: OpId)
    requires Local(s) && s1 == s.(ops := Store.Enqueued(s.ops, o))
    ensures Local(s1) && ThreadsClean(s1.ops, s1.attempts, s1.ledger, s1.threads)
  {
    hide ThreadsClean, JobsClean, History;
    if s1.ops != s.ops {
      BenignLocal(s, s1, o, s1.ops[o]);
    }
  }

  lemma SetLocal(s: State, s': State)
    requires Local(s) && s' == s.(threads := s'.threads)
    requires ThreadsClean(s.ops, s.attempts, s.ledger, s'.threads)
    ensures Local(s')
  {
    hide ThreadsClean, JobsClean, History;
  }

  lemma CancelLocal(s: State, tenant: Tenant, o: OpId)
    requires Local(s)
    ensures Local(Apply(s, Cancel(tenant, o)))
  {
    if Store.Cancellable(s.ops, tenant, o) {
      BenignLocal(s, Apply(s, Cancel(tenant, o)), o, Apply(s, Cancel(tenant, o)).ops[o]);
    }
  }

  /** Threads and jobs other than t's survive any rewrite of the operation t carries. */
  lemma RestElsewhere(s: State, t: Tid, ops': Ops, attempts': Attempts, o: OpId)
    requires Inv(s) && Local(s) && OverFree(s) && t in s.threads && Carried(t, s.threads[t]) == Some(o)
    requires SameElsewhere(s.ops, s.attempts, ops', attempts', o)
    ensures ThreadsClean(ops', attempts', s.ledger, Ended(s.threads, t))
    ensures JobsClean(ops', attempts', s.main, s.delayed)
  {
    hide Inv;
    EndThread(s, t);
    CarriedNotOver(s, t, o);
    EndClean(s.ops, s.attempts, s.ledger, s.threads, t);
    ThreadsElsewhere(s.ops, s.attempts, ops', attempts', s.ledger, Ended(s.threads, t), o);
    JobsElsewhere(s.ops, s.attempts, ops', attempts', s.main, s.delayed, o);
  }

  lemma StartLocal(s: State, t: Tid, a: AttemptId)
    requires Inv(s) && Local(s) && OverFree(s) && Enabled(s, Start(t, a))
    ensures Local(ApplyStart(s, t, a))
  {
    hide Inv, OverFree, ThreadsClean, JobsClean, History, Numbered;
    var th := s.threads[t];
    var s' := ApplyStart(s, t, a);
    CarrierSteps.ThreadFacts(s, t);
    NumberedFacts(s);
    EndClean(s.ops, s.attempts, s.ledger, s.threads, t);
    StartHistory(s.ops, s.attempts, th.op, th.number, a, th.worker, s.now);
    RestElsewhere(s, t, s'.ops, s'.attempts, th.op);
    SetClean(s'.ops, s'.attempts, s.ledger, Ended(s.threads, t), t, Opened(th.op, a));
    assert s'.threads == Ended(s.threads, t)[t := Opened(th.op, a)];
  }

  lemma StartHistory(ops: Ops, attempts: Attempts, o: OpId, number: int, a: AttemptId, worker: WorkerId, now: nat)
    requires History(ops, attempts) && Numbered(ops, attempts) && Clean(ops, attempts, o) && a !in attempts
    requires number == ops[o].attemptCount + 1 >= 1
    ensures var ops' := Store.Started(ops, o, number, now);
            var attempts' := attempts[a := Store.OpenedAttempt(o, number, worker, now)];
            SameElsewhere(ops, attempts, ops', attempts', o) && History(ops', attempts')
  {
    HistoryElsewhere(ops, attempts, Store.Started(ops, o, number, now),
                     attempts[a := Store.OpenedAttempt(o, number, worker, now)], o);
  }

  /** What a thread about to commit knows, gathered from both invariants. */
  lemma CommitFacts(s: State, t: Tid)
    requires Inv(s) && Local(s) && t in s.threads && s.threads[t].Reporting? && s.threads[t].stage.Freed?
    ensures var th := s.threads[t];
            Live(s.ops, s.attempts, th.op, th.attempt) &&
            s.attempts[th.attempt].number == s.ops[th.op].attemptCount >= 1 &&
            SeenOk(s.ops, th.op, th.report, th.stage.seen) && Carried(t, th) == Some(th.op) &&
            (th.report.Failure? ==> th.report.category in {Transient, Permanent}) &&
            forall b :: b in s.attempts && b != th.attempt && s.attempts[b].op == th.op ==>
              s.attempts[b].number != s.ops[th.op].attemptCount
  {
    hide Inv, JobsClean, History, HasAll;
    CarrierSteps.ThreadFacts(s, t);
    NumberedFacts(s);
    EndClean(s.ops, s.attempts, s.ledger, s.threads, t);
    hide ThreadsClean, FreeFor;
  }

  lemma SuccessHistory(ops: Ops, attempts: Attempts, o: OpId, a: AttemptId, ops': Ops, att: Attempt,
      output: string, now: nat)
    requires History(ops, attempts) && Live(ops, attempts, o, a) && Numbered(ops, attempts)
    requires attempts[a].number == ops[o].attemptCount >= 1
    requires ops' == Store.FinishedSuccess(ops, o, output, now)
    requires att.op == o && att.number == attempts[a].number && att.success == Some(true)
    ensures SameElsewhere(ops, attempts, ops', attempts[a := att], o)
    ensures History(ops', attempts[a := att])
  {
    HistoryElsewhere(ops, attempts, ops', attempts[a := att], o);
  }

  lemma FailureHistory(ops: Ops, attempts: Attempts, o: OpId, a: AttemptId, ops': Ops, att: Attempt,
                       category: Category, will: bool, detail: string, now: nat)
    requires History(ops, attempts) && Live(ops, attempts, o, a) && Numbered(ops, attempts)
    requires attempts[a].number == ops[o].attemptCount >= 1
    requires category in {Transient, Permanent}
    requires will <==> category == Transient && ops[o].attemptCount < ops[o].maxRetries
    requires ops' == Store.FinishedFailure(ops, o, Store.NextStatus(category, will), detail, now)
    requires att.op == o && att.number == attempts[a].number && FailedAs(att, category)
    ensures SameElsewhere(ops, attempts, ops', attempts[a := att], o)
    ensures History(ops', attempts[a := att])
  {
    var attempts' := attempts[a := att];
    forall b | b in attempts' && attempts'[b].op == o
      ensures attempts'[b].number < ops'[o].attemptCount ==> FailedAs(attempts'[b], Transient)
      ensures attempts'[b].number == ops'[o].attemptCount ==> LastOk(ops'[o], attempts'[b])
    {
      if b != a { assert attempts[b].number < ops[o].attemptCount; }
    }
    hide Live, LastOk, FailedAs, Numbered;
    HistoryElsewhere(ops, attempts, ops', attempts', o);
  }

  lemma RetryClean(ops: Ops, attempts: Attempts, o: OpId, a: AttemptId, ops': Ops, att: Attempt,
                       category: Category, will: bool, detail: string, now: nat)
    requires will && Live(ops, attempts, o, a) && Numbered(ops, attempts)
    requires attempts[a].number == ops[o].attemptCount >= 1
    requires category in {Transient, Permanent}
    requires will <==> category == Transient && ops[o].attemptCount < ops[o].maxRetries
    requires ops' == Store.FinishedFailure(ops, o, Store.NextStatus(category, will), detail, now)
    requires att.op == o && att.number == attempts[a].number && FailedAs(att, category)
    ensures Clean(ops', attempts[a := att], o) && ops'[o].status in {Retrying, Cancelled}
  {
  }

  lemma CommitSuccessLocal(s: State, t: Tid, n: Tid)
    requires Inv(s) && Local(s) && OverFree(s) && Enabled(s, Commit(t, n)) && s.threads[t].report.Success?
    ensures Local(ApplyCommit(s, t, n))
  {
    hide Inv, OverFree, ThreadsClean, JobsClean, History, Numbered;
    var th := s.threads[t];
    var s' := ApplyCommit(s, t, n);
    CommitFacts(s, t);
    NumberedFacts(s);
    SuccessHistory(s.ops, s.attempts, th.op, th.attempt, s'.ops, s'.attempts[th.attempt], th.report.output, s.now);
    RestElsewhere(s, t, s'.ops, s'.attempts, th.op);
    SetClean(s'.ops, s'.attempts, s.ledger, Ended(s.threads, t), n, s'.threads[n]);
  }

  lemma CommitFailureLocal(s: State, t: Tid, n: Tid)
    requires Inv(s) && Local(s) && OverFree(s) && Enabled(s, Commit(t, n)) && s.threads[t].report.Failure?
    ensures Local(ApplyCommit(s, t, n))
  {
    hide Inv, OverFree, ThreadsClean, JobsClean, History, Numbered;
    var th := s.threads[t];
    var s' := ApplyCommit(s, t, n);
    var will := WillRetry(th.report, th.stage.seen);
    CommitFacts(s, t);
    NumberedFacts(s);
    hide Capped;
    FailureHistory(s.ops, s.attempts, th.op, th.attempt, s'.ops, s'.attempts[th.attempt],
                   th.report.category, will, th.report.detail, s.now);
    RestElsewhere(s, t, s'.ops, s'.attempts, th.op);
    WorkerOnly(s, t);
    if will {
      RetryClean(s.ops, s.attempts, th.op, th.attempt, s'.ops, s'.attempts[th.attempt],
                 th.report.category, will, th.report.detail, s.now);
      assert s'.threads == Ended(s.threads, t)[t := s'.threads[t]];
      SetClean(s'.ops, s'.attempts, s.ledger, Ended(s.threads, t), t, s'.threads[t]);
    } else {
      SetClean(s'.ops, s'.attempts, s.ledger, Ended(s.threads, t), n, s'.threads[n]);
    }
  }

  lemma WorkerOnly(s: State, t: Tid)
    requires Local(s) && t in s.threads && s.threads[t].Reporting?
    ensures t.Worker?
  {
    EndClean(s.ops, s.attempts, s.ledger, s.threads, t);
  }

  // ---- steps that leave both tables alone ----

  lemma PromoteJobs(s: State)
    requires s.scanned != [] && ScanOk(s.delayed, s.scanned) && JobsClean(s.ops, s.attempts, s.main, s.delayed)
    ensures var s' := Apply(s, Promote); JobsClean(s.ops, s.attempts, s'.main, s'.delayed)
  {
    LPushAllReverses(s.main, s.scanned);
    var main' := Reverse(s.scanned) + s.main;
    forall i | 0 <= i < |main'|
      ensures Clean(s.ops, s.attempts, main'[i].op)
    {
      if i < |s.scanned| {
        assert main'[i] == s.scanned[|s.scanned| - 1 - i];
        assert main'[i] in s.delayed;
      } else {
        assert main'[i] == s.main[i - |s.scanned|];
      }
    }
  }

  lemma EnqueueJobs(s: State, t: Tid)
    requires Local(s) && Enabled(s, Enqueue(t))
    ensures JobsClean(s.ops, s.attempts, Apply(s, Enqueue(t)).main, Apply(s, Enqueue(t)).delayed)
  {
    hide Clean, ThreadsClean, History;
    EndClean(s.ops, s.attempts, s.ledger, s.threads, t);
  }

  lemma ScheduleJobs(s: State, t: Tid, jitter: nat)
    requires Local(s) && Enabled(s, Schedule(t, jitter))
    ensures JobsClean(s.ops, s.attempts, Apply(s, Schedule(t, jitter)).main, Apply(s, Schedule(t, jitter)).delayed)
  {
    hide Clean, ThreadsClean, History, ReadyAt;
    EndClean(s.ops, s.attempts, s.ledger, s.threads, t);
  }

  lemma PopJobs(s: State, t: Tid)
    requires Local(s) && Enabled(s, Pop(t))
    ensures JobsClean(s.ops, s.attempts, Apply(s, Pop(t)).main, Apply(s, Pop(t)).delayed)
  {
    hide Clean, ThreadsClean, History;
  }

  lemma JobsStep(s: State, a: Action)
    requires Inv(s) && Local(s) && Enabled(s, a) && !Frame.WritesRows(a)
    ensures JobsClean(s.ops, s.attempts, Apply(s, a).main, Apply(s, a).delayed)
  {
    hide Inv, Enabled, Apply, JobsClean, ThreadsClean, History;
    match a
    case Promote =>
      CarrierSteps.ScanFacts(s);
      Scanned(s);
      PromoteJobs(s);
    case Enqueue(t) => EnqueueJobs(s, t);
    case Schedule(t, jitter) => ScheduleJobs(s, t, jitter);
    case Pop(t) => PopJobs(s, t);
    case _ => Frame.TouchesTables(s, a);
  }

  lemma Scanned(s: State)
    requires Enabled(s, Promote)
    ensures s.scanned != []
  {
  }

  predicate CreateAction(a: Action) { a.Submit? || a.Lookup? || a.Refetch? || a.Enqueue? }
  predicate WorkerAction(a: Action) { a.Pop? || a.Fetch? || a.Resolve? || a.Incr? }
  predicate ReportAction(a: Action) {
    a.Finish? || a.Read? || a.Decr? || a.Clamp? || a.Schedule? || a.Record? || a.Emit?
  }

  lemma CreatorClean(s: State, a: Action)
    requires Enabled(s, a) && CreateAction(a)
    ensures a.t in Apply(s, a).threads && ThreadClean(s.ops, s.attempts, s.ledger, a.t, Apply(s, a).threads[a.t])
  {
    hide Clean, Store.KeyTaken, Store.HoldsKey;
    match a
    case Submit(_, _) =>
    case Lookup(_, _) =>
    case Refetch(_, _) =>
    case Enqueue(_) =>
  }

  lemma LastClean(s: State)
    requires JobsClean(s.ops, s.attempts, s.main, s.delayed)
    ensures s.main != [] ==> Clean(s.ops, s.attempts, s.main[|s.main| - 1].op)
  {
  }

  lemma PopClean(s: State, t: Tid)
    requires Enabled(s, Pop(t)) && JobsClean(s.ops, s.attempts, s.main, s.delayed)
    ensures t in Apply(s, Pop(t)).threads
    ensures ThreadClean(s.ops, s.attempts, s.ledger, t, Apply(s, Pop(t)).threads[t])
  {
    hide Clean, JobsClean;
    LastClean(s);
  }

  lemma FetchClean(s: State, t: Tid)
    requires Enabled(s, Fetch(t)) && ThreadClean(s.ops, s.attempts, s.ledger, t, s.threads[t])
    requires t in Apply(s, Fetch(t)).threads
    ensures ThreadClean(s.ops, s.attempts, s.ledger, t, Apply(s, Fetch(t)).threads[t])
  {
    hide LastTransient, Live, KindOk;
  }

  lemma WorkerClean(s: State, a: Action)
    requires Enabled(s, a) && Allowed(F0, a) && WorkerAction(a) && a.t in s.threads
    requires JobsClean(s.ops, s.attempts, s.main, s.delayed)
    requires ThreadClean(s.ops, s.attempts, s.ledger, a.t, s.threads[a.t])
    requires a.t in Apply(s, a).threads
    ensures ThreadClean(s.ops, s.attempts, s.ledger, a.t, Apply(s, a).threads[a.t])
  {
    hide Clean, JobsClean, Live, KindOk;
    match a
    case Pop(t) => hide Enabled, Apply; PopClean(s, t);
    case Fetch(t) => hide Enabled, Apply; FetchClean(s, t);
    case Resolve(_) =>
    case Incr(_, _) =>
  }

  lemma ReporterClean(s: State, a: Action)
    requires Enabled(s, a) && Allowed(F0, a) && ReportAction(a)
    requires a.t in s.threads && a.t in Apply(s, a).threads
    requires ThreadClean(s.ops, s.attempts, s.ledger, a.t, s.threads[a.t])
    requires ThreadOk(s.ops, s.attempts, a.t, s.threads[a.t])
    ensures ThreadClean(s.ops, s.attempts, Apply(s, a).ledger, a.t, Apply(s, a).threads[a.t])
  {
    match a
    case Finish(_, _) =>
    case Read(_) =>
    case Decr(_, _) =>
    case Clamp(_, _) =>
    case Schedule(_, _) =>
    case Record(_) =>
    case Emit(_) =>
  }

  /** The acting thread's new phase is clean in the old tables. */
  lemma ActorClean(s: State, a: Action)
    requires Inv(s) && Local(s) && Enabled(s, a) && Allowed(F0, a)
    requires !Frame.WritesRows(a) && !Frame.NoThread(a) && a.t in Apply(s, a).threads
    ensures ThreadClean(s.ops, s.attempts, Apply(s, a).ledger, a.t, Apply(s, a).threads[a.t])
  {
    hide Inv, Apply, ThreadClean, ThreadsClean, JobsClean, History;
    Frame.TouchesRest(s, a);
    if CreateAction(a) {
      CreatorClean(s, a);
    } else {
      Acts(s, a);
      hide Enabled;
      EndClean(s.ops, s.attempts, s.ledger, s.threads, a.t);
      CarrierSteps.ThreadFacts(s, a.t);
      if WorkerAction(a) { WorkerClean(s, a); } else { ReporterClean(s, a); }
    }
  }

  lemma Acts(s: State, a: Action)
    requires Enabled(s, a) && !Frame.NoThread(a) && !a.Submit?
    ensures a.t in s.threads
  {
    hide Store.KeyTaken, Store.HoldsKey;
  }

  lemma LedgerStep(s: State, a: Action)
    requires Enabled(s, a)
    ensures s.ledger.Keys <= Apply(s, a).ledger.Keys
  {
    if a.Record? {
    } else {
      Frame.TouchesRest(s, a);
      hide Apply;
    }
  }

  lemma QuietLocal(s: State, a: Action)
    requires Inv(s) && Local(s) && Enabled(s, a) && Allowed(F0, a) && !Frame.WritesRows(a)
    ensures Local(Apply(s, a))
  {
    hide Inv, Apply, Enabled, ThreadsClean, ThreadClean, JobsClean, History;
    var s' := Apply(s, a);
    Frame.TouchesTables(s, a);
    Frame.TouchesThreads(s, a);
    JobsStep(s, a);
    LedgerStep(s, a);
    LedgerGrows(s.ops, s.attempts, s.ledger, s'.ledger, s.threads);
    if !Frame.NoThread(a) {
      EndClean(s.ops, s.attempts, s'.ledger, s.threads, a.t);
      if a.t in s'.threads {
        ActorClean(s, a);
        SetClean(s.ops, s.attempts, s'.ledger, s.threads, a.t, s'.threads[a.t]);
      }
    }
  }

  lemma StepKeepsLocal(s: State, a: Action, s': State)
    requires Inv(s) && Local(s) && OverFree(s) && Step(F0, s, a, s')
    ensures Local(s')
  {
    hide Inv, Local, OverFree, Enabled;
    match a
    case Insert(t, id) => InsertLocal(s, t, id);
    case MarkQueued(t) => MarkLocal(s, t);
    case Cancel(tenant, o) => CancelLocal(s, tenant, o);
    case Start(t, attempt) => StartLocal(s, t, attempt);
    case Commit(t, n) =>
      CommitEnabled(s, t, n);
      if s.threads[t].report.Success? { CommitSuccessLocal(s, t, n); } else { CommitFailureLocal(s, t, n); }
    case _ => QuietLocal(s, a);
  }

  lemma CommitEnabled(s: State, t: Tid, n: Tid)
    requires Enabled(s, Commit(t, n))
    ensures t in s.threads && s.threads[t].Reporting?
  {
  }
}
