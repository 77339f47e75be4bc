/** What each action leaves alone; proved once, used everywhere else. */
module Frame {
  import opened Model
  import opened JobQueue
  import opened Protocol
  import Store

  predicate WritesRows(a: Action) { a.Insert? || a.MarkQueued? || a.Cancel? || a.Start? || a.Commit? }
  predicate WritesAttempts(a: Action) { a.Start? || a.Commit? }
  predicate WritesMain(a: Action) { a.Enqueue? || a.Pop? || a.Promote? }
  predicate WritesDelayed(a: Action) { a.Schedule? || a.Promote? }
  predicate WritesCounters(a: Action) { a.Incr? || a.Decr? || a.Clamp? }
  predicate WritesScanned(a: Action) { a.Scan? || a.Promote? || a.DropScan? }
  predicate NoThread(a: Action) { a.Tick? || a.Cancel? || WritesScanned(a) }
  predicate TwoThreads(a: Action) { a.Commit? || a.GiveUp? || a.ReReport? }

  ghost predicate Untouched(s: State, a: Action, s': State) {
    && (WritesRows(a) || s'.ops == s.ops)
    && (WritesAttempts(a) || s'.attempts == s.attempts)
    && (WritesMain(a) || s'.main == s.main)
    && (WritesDelayed(a) || s'.delayed == s.delayed)
  }

  ghost predicate UntouchedRest(s: State, a: Action, s': State) {
    && (WritesCounters(a) || s'.counters == s.counters)
    && (WritesScanned(a) || s'.scanned == s.scanned)
    && (a.Record? || s'.ledger == s.ledger)
    && (a.Emit? || s'.events == s.events)
    && (a.Tick? || s'.now == s.now)
  }

  ghost predicate OthersKept(s: State, a: Action, s': State) {
    && (NoThread(a) ==> s'.threads == s.threads)
    && (!NoThread(a) && !TwoThreads(a) ==>
          s'.threads == if a.t in s'.threads then s.threads[a.t := s'.threads[a.t]] else s.threads - {a.t})
  }

  ghost predicate Kept(s: State, a: Action, s': State) {
    Untouched(s, a, s') && UntouchedRest(s, a, s') && OthersKept(s, a, s')
  }

  // The actions in groups, so that each proof stays small.

  predicate ClientAction(a: Action) {
    a.Submit? || a.Lookup? || a.Insert? || a.Refetch? || a.Enqueue? || a.MarkQueued? || a.Cancel? || a.Tick?
  }

  predicate AttemptAction(a: Action) {
    a.Pop? || a.Fetch? || a.Start? || a.Resolve? || a.Incr? || a.Finish? || a.Read? || a.Decr? || a.Clamp?
  }

  lemma ClientFrame(s: State, a: Action)
    requires Enabled(s, a) && ClientAction(a)
    ensures Kept(s, a, Apply(s, a))
  {
    hide Store.KeyTaken, IsDueReply, Store.Conflicts, Store.HoldsKey, Store.NewRow, Store.Enqueued, Store.Started;
    hide Store.WithCancel, Store.FinishedSuccess, Store.FinishedFailure, Store.ClosedSuccess, Store.ClosedFailure;
    hide ReadyAt, RetryJob, WillRetry, Recorded, LPushAll, ZRemAll, Counter, IsTerminal;
    match a
    case Submit(_, _) =>
    case Lookup(_, _) =>
    case Insert(_, _) =>
    case Refetch(_, _) =>
    case Enqueue(_) =>
    case MarkQueued(_) =>
    case Cancel(_, _) =>
    case Tick(_) =>
  }

  lemma StartFrame(s: State, a: Action)
    requires Enabled(s, a) && (a.Pop? || a.Fetch? || a.Start? || a.Resolve? || a.Incr?)
    ensures Kept(s, a, Apply(s, a))
  {
    hide Store.KeyTaken, IsDueReply, Store.Conflicts, Store.HoldsKey, Store.NewRow, Store.Enqueued, Store.Started;
    hide Store.WithCancel, Store.FinishedSuccess, Store.FinishedFailure, Store.ClosedSuccess, Store.ClosedFailure;
    hide ReadyAt, RetryJob, WillRetry, Recorded, LPushAll, ZRemAll, Counter, IsTerminal;
    match a
    case Pop(_) =>
    case Fetch(_) =>
    case Start(_, _) =>
    case Resolve(_) =>
    case Incr(_, _) =>
  }

  lemma ReportFrame(s: State, a: Action)
    requires Enabled(s, a) && (a.Finish? || a.Read? || a.Decr? || a.Clamp?)
    ensures Kept(s, a, Apply(s, a))
  {
    hide Store.KeyTaken, IsDueReply, Store.Conflicts, Store.HoldsKey, Store.NewRow, Store.Enqueued, Store.Started;
    hide Store.WithCancel, Store.FinishedSuccess, Store.FinishedFailure, Store.ClosedSuccess, Store.ClosedFailure;
    hide ReadyAt, RetryJob, WillRetry, Recorded, LPushAll, ZRemAll, Counter, IsTerminal;
    match a
    case Finish(_, _) =>
    case Read(_) =>
    case Decr(_, _) =>
    case Clamp(_, _) =>
  }

  lemma LaterFrame(s: State, a: Action)
    requires Enabled(s, a) && !ClientAction(a) && !AttemptAction(a)
    ensures Kept(s, a, Apply(s, a))
  {
    hide Store.KeyTaken, IsDueReply, Store.Conflicts, Store.HoldsKey, Store.NewRow, Store.Enqueued, Store.Started;
    hide Store.WithCancel, Store.FinishedSuccess, Store.FinishedFailure, Store.ClosedSuccess, Store.ClosedFailure;
    hide ReadyAt, RetryJob, WillRetry, Recorded, LPushAll, ZRemAll, Counter, IsTerminal;
    match a
    case Commit(_, _) =>
    case Schedule(_, _) =>
    case Record(_) =>
    case Emit(_) =>
    case Scan(_) =>
    case Promote =>
    case Drop(_) =>
    case GiveUp(_, _) =>
    case ReReport(_, _, _) =>
    case DropScan =>
  }

  lemma Keeps(s: State, a: Action)
    requires Enabled(s, a)
    ensures Kept(s, a, Apply(s, a))
  {
    hide Enabled, Apply, Kept;
    if ClientAction(a) {
      ClientFrame(s, a);
    } else if AttemptAction(a) {
      if a.Pop? || a.Fetch? || a.Start? || a.Resolve? || a.Incr? { StartFrame(s, a); } else { ReportFrame(s, a); }
    } else {
      LaterFrame(s, a);
    }
  }

  lemma TouchesTables(s: State, a: Action)
    requires Enabled(s, a)
    ensures Untouched(s, a, Apply(s, a))
  {
    hide Enabled, Apply;
    Keeps(s, a);
  }

  lemma TouchesRest(s: State, a: Action)
    requires Enabled(s, a)
    ensures UntouchedRest(s, a, Apply(s, a))
  {
    hide Enabled, Apply;
    Keeps(s, a);
  }

  lemma TouchesThreads(s: State, a: Action)
    requires Enabled(s, a)
    ensures OthersKept(s, a, Apply(s, a))
  {
    hide Enabled, Apply;
    Keeps(s, a);
  }

  // ---- what the writing actions write ----

  lemma InsertRows(s: State, t: Tid, id: OpId)
    requires Enabled(s, Insert(t, id))
    ensures id !in s.ops && t in s.threads && s.threads[t].Inserting?
    ensures var req, s' := s.threads[t].req, Apply(s, Insert(t, id));
            if Store.Conflicts(s.ops, req) then s'.ops == s.ops && s'.threads == s.threads[t := Refetching(req)]
            else s'.ops == s.ops[id := Store.NewRow(req, s.now)] && s'.threads == s.threads[t := Submitting(req, id)]
  {
    hide Store.Conflicts, Store.NewRow;
  }

  lemma MarkRows(s: State, t: Tid)
    requires Enabled(s, MarkQueued(t))
    ensures t in s.threads && s.threads[t].Marking?
    ensures Apply(s, MarkQueued(t)).ops == Store.Enqueued(s.ops, s.threads[t].op)
  {
    hide Store.Enqueued;
  }

  lemma CancelRows(s: State, tenant: Tenant, o: OpId)
    requires Enabled(s, Cancel(tenant, o))
    ensures Apply(s, Cancel(tenant, o)).ops == Store.WithCancel(s.ops, tenant, o, s.now)
  {
    hide Store.WithCancel;
  }

  lemma StartRows(s: State, t: Tid, attempt: AttemptId)
    requires Enabled(s, Start(t, attempt))
    ensures t in s.threads && s.threads[t].Starting? && s.threads[t].op in s.ops
    ensures Apply(s, Start(t, attempt)).ops == Store.Started(s.ops, s.threads[t].op, s.threads[t].number, s.now)
  {
    hide Store.Started;
  }

  /** The rows after a commit, and the goroutine or retry stage it leaves. */
  lemma CommitRows(s: State, t: Tid, n: Tid)
    requires Enabled(s, Commit(t, n))
    ensures t in s.threads && s.threads[t].Reporting? && s.threads[t].stage.Freed? && Fresh(s, n)
    ensures var th := s.threads[t];
            Apply(s, Commit(t, n)).ops ==
              match th.report
              case Success(output, _, _) => Store.FinishedSuccess(s.ops, th.op, output, s.now)
              case Failure(category, detail) =>
                var next := Store.NextStatus(category, WillRetry(th.report, th.stage.seen));
                Store.FinishedFailure(s.ops, th.op, next, detail, s.now)
  {
    hide Store.FinishedSuccess, Store.FinishedFailure, Store.ClosedSuccess, Store.ClosedFailure;
  }

  lemma CommitThreads(s: State, t: Tid, n: Tid)
    requires Enabled(s, Commit(t, n))
    ensures t in s.threads && s.threads[t].Reporting? && s.threads[t].stage.Freed? &&
            !s.threads[t].stage.negative && Fresh(s, n)
    ensures var th, seen := s.threads[t], s.threads[t].stage.seen;
            Apply(s, Commit(t, n)).threads ==
              if WillRetry(th.report, seen) then s.threads[t := th.(stage := Retry(seen))]
              else if th.report.Success? then Ended(s.threads, t)[n := Metering(seen.tenant, th.op)]
              else Ended(s.threads, t)[n := Announcing(seen.tenant, th.op,
                                                       KindOf(Store.NextStatus(th.report.category, false)))]
  {
    hide Store.FinishedSuccess, Store.FinishedFailure, Store.ClosedSuccess, Store.ClosedFailure;
  }

  lemma DetachThreads(s: State, a: Action)
    requires Enabled(s, a) && (a.GiveUp? || a.ReReport?)
    ensures a.t in s.threads && Fresh(s, a.z) && a.t.Worker?
    ensures var th, threads' := s.threads[a.t], Apply(s, a).threads;
            threads' == s.threads[a.t := threads'[a.t]][a.z := th] && a.t in threads' &&
            (if a.GiveUp? then threads'[a.t] == Idle && (th.Starting? || th.Opened? || th.Resolved? ||
                (th.Reporting? && th.report.Failure?))
             else th.Reporting? && th.report.Success? &&
                  threads'[a.t] == Reporting(th.op, th.attempt, Failure(Transient, a.detail), Sent))
  {
  }

  lemma CommitAttempts(s: State, t: Tid, n: Tid)
    requires Enabled(s, Commit(t, n)) && s.threads[t].attempt in s.attempts
    ensures var a, s' := s.threads[t].attempt, Apply(s, Commit(t, n));
            a in s'.attempts && s'.attempts == s.attempts[a := s'.attempts[a]] &&
            s'.attempts[a].op == s.attempts[a].op && s'.attempts[a].number == s.attempts[a].number
  {
    hide Store.FinishedSuccess, Store.FinishedFailure;
  }
}
