/** What the columns of a row say, whichever way it got there: an invariant of both fault levels. */
module Rows {
  import opened Model
  import opened JobQueue
  import opened Protocol
  import opened Carrier
  import CarrierSteps
  import Lifecycle
  import Store
  import Frame

  /** The operation ended after an attempt, within its lifetime. */
  predicate FinishedInTime(row: Operation) {
    row.completedAt.Some? && row.startedAt.Some? && row.startedAt.value <= row.completedAt.value
  }

  predicate RowOk(row: Operation, now: nat) {
    && row.createdAt <= now
    && (row.startedAt.None? <==> row.attemptCount == 0) && row.attemptCount >= 0
    && (row.startedAt.Some? ==> row.createdAt <= row.startedAt.value <= now)
    && (row.completedAt.Some? ==> row.createdAt <= row.completedAt.value <= now)
    && (row.output.Some? <==> row.status == Succeeded)
    && match row.status
       case Pending => row.attemptCount == 0 && row.errorMessage.None? && row.completedAt.None?
       case Queued => row.attemptCount == 0 && row.errorMessage.None? && row.completedAt.None?
       case Running => row.attemptCount >= 1
       case Retrying => row.attemptCount >= 1 && row.errorMessage.Some?
       case Succeeded => FinishedInTime(row) && row.errorMessage.None?
       case Failed => FinishedInTime(row) && row.errorMessage.Some?
       case DeadLettered => FinishedInTime(row) && row.errorMessage.Some?
       case Cancelled => row.completedAt.Some?
  }

  /** An attempt row is open, or closed with the columns its outcome calls for. */
  predicate AttemptRowOk(att: Attempt, now: nat) {
    && att.startedAt <= now
    && (att.finishedAt.Some? <==> att.success.Some?)
    && (att.finishedAt.Some? ==> att.startedAt <= att.finishedAt.value <= now)
    && match att.success
       case None => att.provider.None? && att.latencyMs.None? && att.category.None? && att.detail.None?
       case Some(true) => att.provider.Some? && att.latencyMs.Some?
       case Some(false) => att.category.Some? && att.detail.Some?
  }

  ghost predicate TablesOk(s: State) {
    && (forall o :: o in s.ops ==> RowOk(s.ops[o], s.now))
    && (forall a :: a in s.attempts ==> AttemptRowOk(s.attempts[a], s.now))
  }

  // ---- rows ----

  ghost predicate OpsOk(ops: Ops, now: nat) { forall o :: o in ops ==> RowOk(ops[o], now) }

  lemma StatementsKeep(ops: Ops, now: nat, o: OpId, tenant: Tenant, next: Status, text: string)
    requires OpsOk(ops, now)
    ensures OpsOk(Store.Enqueued(ops, o), now)
    ensures OpsOk(Store.WithCancel(ops, tenant, o, now), now)
    ensures OpsOk(Store.FinishedSuccess(ops, o, text, now), now)
    ensures next in {Retrying, Failed, DeadLettered} ==> OpsOk(Store.FinishedFailure(ops, o, next, text, now), now)
  {
  }

  /** A start is the only statement that needs to know who sends it. */
  lemma StartKeeps(ops: Ops, now: nat, o: OpId, number: int)
    requires OpsOk(ops, now) && o in ops && number == ops[o].attemptCount + 1 && !Lifecycle.Settled(ops[o].status)
    ensures OpsOk(Store.Started(ops, o, number, now), now)
  {
  }

  lemma InsertKeeps(ops: Ops, now: nat, id: OpId, req: CreateRequest)
    requires OpsOk(ops, now)
    ensures OpsOk(ops[id := Store.NewRow(req, now)], now)
  {
  }

  lemma LaterKeeps(ops: Ops, now: nat, now': nat)
    requires OpsOk(ops, now) && now <= now'
    ensures OpsOk(ops, now')
  {
  }

  lemma RowsStep(level: Level, s: State, a: Action, s': State)
    requires Inv(s) && Step(level, s, a, s') && OpsOk(s.ops, s.now)
    ensures OpsOk(s'.ops, s'.now)
  {
    hide Inv, Apply, Enabled, OpsOk, Store.KeyTaken;
    Frame.TouchesTables(s, a);
    Frame.TouchesRest(s, a);
    match a
    case Tick(to) => TickClock(s, to); LaterKeeps(s.ops, s.now, s'.now);
    case Insert(t, id) => Frame.InsertRows(s, t, id); InsertKeeps(s.ops, s.now, id, s.threads[t].req);
    case MarkQueued(t) => Frame.MarkRows(s, t); StatementsKeep(s.ops, s.now, s.threads[t].op, 0, Failed, "");
    case Cancel(tenant, op) => Frame.CancelRows(s, tenant, op); StatementsKeep(s.ops, s.now, op, tenant, Failed, "");
    case Start(t, attempt) =>
      Frame.StartRows(s, t, attempt);
      CarrierSteps.ThreadFacts(s, t);
      StartKeeps(s.ops, s.now, s.threads[t].op, s.threads[t].number);
    case Commit(t, n) =>
      Frame.CommitRows(s, t, n);
      var th := s.threads[t];
      match th.report {
        case Success(output, _, _) => StatementsKeep(s.ops, s.now, th.op, 0, Failed, output);
        case Failure(category, detail) =>
          var next := Store.NextStatus(category, WillRetry(th.report, th.stage.seen));
          StatementsKeep(s.ops, s.now, th.op, 0, next, detail);
      }
    case _ =>
  }

  lemma TickClock(s: State, to: nat)
    requires Enabled(s, Tick(to))
    ensures s.now <= Apply(s, Tick(to)).now
  {
  }

  // ---- attempts ----

  ghost predicate AttemptsOk(attempts: Attempts, now: nat) {
    forall a :: a in attempts ==> AttemptRowOk(attempts[a], now)
  }

  lemma ClosingKeeps(attempts: Attempts, now: nat, a: AttemptId, text: string, n: int, category: Category)
    requires AttemptsOk(attempts, now)
    ensures AttemptsOk(Store.ClosedSuccess(attempts, a, text, n, now), now)
    ensures AttemptsOk(Store.ClosedFailure(attempts, a, category, text, now), now)
  {
  }

  lemma StartAttempts(s: State, t: Tid, attempt: AttemptId)
    requires Enabled(s, Start(t, attempt)) && AttemptsOk(s.attempts, s.now)
    ensures AttemptsOk(Apply(s, Start(t, attempt)).attempts, s.now)
  {
  }

  lemma CommitAttempts(s: State, t: Tid, n: Tid)
    requires Enabled(s, Commit(t, n)) && AttemptsOk(s.attempts, s.now)
    ensures AttemptsOk(Apply(s, Commit(t, n)).attempts, s.now)
  {
    hide AttemptsOk, Store.ClosedSuccess, Store.ClosedFailure, Store.FinishedSuccess, Store.FinishedFailure;
    var th := s.threads[t];
    match th.report
    case Success(_, provider, latencyMs) => ClosingKeeps(s.attempts, s.now, th.attempt, provider, latencyMs, Permanent);
    case Failure(category, detail) => ClosingKeeps(s.attempts, s.now, th.attempt, detail, 0, category);
  }

  lemma LaterAttempts(attempts: Attempts, now: nat, now': nat)
    requires AttemptsOk(attempts, now) && now <= now'
    ensures AttemptsOk(attempts, now')
  {
  }

  lemma AttemptsStep(level: Level, s: State, a: Action, s': State)
    requires Step(level, s, a, s') && AttemptsOk(s.attempts, s.now)
    ensures AttemptsOk(s'.attempts, s'.now)
  {
    hide Apply, Enabled, AttemptsOk;
    Frame.TouchesTables(s, a);
    Frame.TouchesRest(s, a);
    match a
    case Tick(to) => TickClock(s, to); LaterAttempts(s.attempts, s.now, s'.now);
    case Start(t, attempt) => StartAttempts(s, t, attempt);
    case Commit(t, n) => CommitAttempts(s, t, n);
    case _ =>
  }

  // ---- runs ----

  lemma {:induction false} RunRows(level: Level, states: seq<State>, actions: seq<Action>, i: nat)
    requires IsRun(level, states, actions) && i < |states|
    ensures OpsOk(states[i].ops, states[i].now) && AttemptsOk(states[i].attempts, states[i].now)
  {
    hide Inv, Apply, Enabled;
    if i > 0 {
      RunRows(level, states, actions, i - 1);
      hide OpsOk, AttemptsOk;
      assert Step(level, states[i - 1], actions[i - 1], states[i]);
      Lifecycle.RunInv(level, states, actions, i - 1);
      RowsStep(level, states[i - 1], actions[i - 1], states[i]);
      AttemptsStep(level, states[i - 1], actions[i - 1], states[i]);
    }
  }

  /** In every reachable state an operation has an output exactly when it is SUCCEEDED, an error
      message when it failed or waits for a retry, a start time exactly when an attempt was made,
      and an end time no earlier than that when it ended; closed attempts carry what their outcome
      calls for and open ones nothing. */
  lemma ColumnsTell(level: Level, states: seq<State>, actions: seq<Action>, i: nat)
    requires IsRun(level, states, actions) && i < |states|
    ensures TablesOk(states[i])
  {
    hide IsRun, RowOk, AttemptRowOk;
    RunRows(level, states, actions, i);
  }
}
