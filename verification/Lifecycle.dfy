/** Safety of the operation lifecycle over whole runs, at both fault levels. */
module Lifecycle {
  import opened Model
  import opened JobQueue
  import opened Protocol
  import opened Carrier
  import CarrierSteps
  import Frame

  lemma {:induction false} PathKeepsInv(level: Level, states: seq<State>, actions: seq<Action>, i: nat)
    requires IsPath(level, states, actions) && Inv(states[0]) && i < |states|
    ensures Inv(states[i])
  {
    hide Inv;
    if i > 0 {
      PathKeepsInv(level, states, actions, i - 1);
      CarrierSteps.StepKeepsInv(level, states[i - 1], actions[i - 1], states[i]);
    }
  }

  lemma ExtendPath(level: Level, states: seq<State>, actions: seq<Action>, a: Action, s': State)
    requires IsPath(level, states, actions) && Step(level, states[|actions|], a, s')
    ensures IsPath(level, states + [s'], actions + [a])
  {
    hide Step;
    var more, acts := states + [s'], actions + [a];
    forall i | 0 <= i < |acts|
      ensures Step(level, more[i], acts[i], more[i + 1])
    {
      if i < |actions| {
        assert more[i] == states[i] && more[i + 1] == states[i + 1] && acts[i] == actions[i];
      }
    }
  }

  /** A path that starts where another ends continues it. */
  lemma JoinPaths(level: Level, states: seq<State>, actions: seq<Action>, later: seq<State>, acts: seq<Action>)
    requires IsPath(level, states, actions) && IsPath(level, later, acts) && later[0] == states[|actions|]
    ensures IsPath(level, states + later[1..], actions + acts)
    ensures (states + later[1..])[|actions + acts|] == later[|acts|]
  {
    hide Step;
    var all, both := states + later[1..], actions + acts;
    forall i | 0 <= i < |both|
      ensures Step(level, all[i], both[i], all[i + 1])
    {
      if i < |actions| {
        assert all[i] == states[i] && all[i + 1] == states[i + 1] && both[i] == actions[i];
      } else {
        var k := i - |actions|;
        assert all[i] == later[k] && all[i + 1] == later[k + 1] && both[i] == acts[k];
      }
    }
  }

  lemma InitInv(s: State)
    requires Init(s)
    ensures Inv(s)
  {
  }

  /** The invariant holds in every state of every run. */
  lemma RunInv(level: Level, states: seq<State>, actions: seq<Action>, i: nat)
    requires IsRun(level, states, actions) && i < |states|
    ensures Inv(states[i])
  {
    InitInv(states[0]);
    PathKeepsInv(level, states, actions, i);
  }

  // ---- single carrier ----

  datatype Place = InMain(index: nat) | InDelayed(job: Job) | AtThread(t: Tid)

  ghost function CarrierPlaces(s: State, o: OpId): set<Place> {
    (set i: nat | 0 <= i < |s.main| && s.main[i].op == o :: InMain(i)) +
    (set j | j in s.delayed && j.op == o :: InDelayed(j)) +
    (set t | t in s.threads && Carried(t, s.threads[t]) == Some(o) :: AtThread(t))
  }

  lemma AtMostOne<T>(places: set<T>)
    requires forall p, q :: p in places && q in places ==> p == q
    ensures |places| <= 1
  {
    if places != {} {
      var p :| p in places;
      assert places == {p};
    }
  }

  lemma UniqueCarrier(s: State, o: OpId)
    requires Unique(s)
    ensures |CarrierPlaces(s, o)| <= 1
  {
    AtMostOne(CarrierPlaces(s, o));
  }

  /** Jobs queued, delayed or held for one operation, starts in flight, attempts still owing a
      failure report and failure handlers never total more than one. */
  lemma SingleCarrier(level: Level, states: seq<State>, actions: seq<Action>, i: nat, o: OpId)
    requires IsRun(level, states, actions) && i < |states|
    ensures |CarrierPlaces(states[i], o)| <= 1
  {
    RunInv(level, states, actions, i);
    UniqueCarrier(states[i], o);
  }

  /** The operation a worker is busy with, from the pop to the end of its last report. */
  function BusyWith(th: Thread): Option<OpId> {
    match th
    case Popped(job) => Some(job.op)
    case Starting(o, _, _) => Some(o)
    case Opened(o, _) => Some(o)
    case Resolved(o, _, _) => Some(o)
    case Working(o, _) => Some(o)
    case Reporting(o, _, _, _) => Some(o)
    case _ => None
  }

  lemma NoTwoWorkers(level: Level, states: seq<State>, actions: seq<Action>, i: nat, v: nat, w: nat)
    requires IsRun(level, states, actions) && i < |states| && v != w
    requires Worker(v) in states[i].threads && Worker(w) in states[i].threads
    requires BusyWith(states[i].threads[Worker(v)]).Some?
    ensures BusyWith(states[i].threads[Worker(v)]) != BusyWith(states[i].threads[Worker(w)])
  {
    RunInv(level, states, actions, i);
    assert BusyWith(states[i].threads[Worker(v)]) == Carried(Worker(v), states[i].threads[Worker(v)]);
  }

  // ---- late reports ----

  /** A job of o is queued, delayed or popped, or a start for it is in flight. */
  ghost predicate AwaitsStart(s: State, o: OpId) {
    || !NotInMain(s.main, o)
    || !NotInDelayed(s.delayed, o)
    || (exists t :: t in s.threads && (s.threads[t].Popped? || s.threads[t].Starting?) &&
                    Carried(t, s.threads[t]) == Some(o))
  }

  lemma AwaitingNotRunning(s: State, o: OpId)
    requires Inv(s) && AwaitsStart(s, o)
    ensures o in s.ops && s.ops[o].status != Running
  {
    if t :| t in s.threads && (s.threads[t].Popped? || s.threads[t].Starting?) && Carried(t, s.threads[t]) == Some(o) {
      CarrierSteps.ThreadFacts(s, t);
    }
  }

  /** While an operation waits for its next start it is not RUNNING, so a report that lands late
      (the guarded UPDATE of either outcome) leaves its row as it is. */
  lemma LateReportKeepsRow(level: Level, states: seq<State>, actions: seq<Action>, i: nat, t: Tid, n: Tid)
    requires IsRun(level, states, actions) && i < |states| && Enabled(states[i], Commit(t, n))
    requires AwaitsStart(states[i], states[i].threads[t].op)
    ensures Apply(states[i], Commit(t, n)).ops == states[i].ops
  {
    hide Inv, AwaitsStart, Apply, Enabled;
    RunInv(level, states, actions, i);
    Frame.CommitRows(states[i], t, n);
    AwaitingNotRunning(states[i], states[i].threads[t].op);
  }

  // ---- transitions ----

  /** The change one action makes to the status of one operation. */
  predicate StatusChange(a: Action, before: Status, after: Status) {
    match a
    case MarkQueued(_) => before == Pending && after == Queued
    case Start(_, _) => Startable(before) && after == Running
    case Commit(_, _) => before == Running && after in {Succeeded, Retrying, Failed, DeadLettered}
    case Cancel(_, _) => !IsTerminal(before) && after == Cancelled
    case _ => false
  }

  /** Rows are never removed; a status only changes as StatusChange says; the attempt count
      changes exactly when a start executes, which is never on a RUNNING operation. */
  lemma ExactTransition(level: Level, s: State, a: Action, s': State, o: OpId)
    requires Inv(s) && Step(level, s, a, s') && o in s.ops
    ensures o in s'.ops && SameIdentity(s.ops[o], s'.ops[o])
    ensures s'.ops[o].status != s.ops[o].status ==> StatusChange(a, s.ops[o].status, s'.ops[o].status)
    ensures (a.Start? && s.threads[a.t].op == o) <==> s'.ops[o].attemptCount != s.ops[o].attemptCount
    ensures s'.ops[o].attemptCount != s.ops[o].attemptCount ==>
              s'.ops[o].attemptCount == s.ops[o].attemptCount + 1 &&
              StatusChange(a, s.ops[o].status, s'.ops[o].status)
  {
    hide Inv, Apply, Enabled;
    RowChange(s, a, o);
    if a.Start? {
      Frame.StartRows(s, a.t, a.attempt);
      CarrierSteps.ThreadFacts(s, a.t);
    }
  }

  /** What one action can do to one row, in terms of the statements. */
  lemma RowChange(s: State, a: Action, o: OpId)
    requires Enabled(s, a) && o in s.ops
    ensures o in Apply(s, a).ops
    ensures var row, row' := s.ops[o], Apply(s, a).ops[o];
            match a
            case MarkQueued(_) => row' == row || (row.status == Pending && row' == row.(status := Queued))
            case Cancel(_, _) =>
              row' == row ||
              (!IsTerminal(row.status) && row' == row.(status := Cancelled, completedAt := row'.completedAt))
            case Start(t, _) =>
              if t in s.threads && s.threads[t].Starting? && s.threads[t].op == o
              then row' == row.(status := Running, attemptCount := s.threads[t].number, startedAt := row'.startedAt)
              else row' == row
            case Commit(_, _) =>
              row' == row ||
              (row.status == Running && row'.status in {Succeeded, Retrying, Failed, DeadLettered} &&
               row' == row.(status := row'.status, output := row'.output, errorMessage := row'.errorMessage,
                            completedAt := row'.completedAt))
            case _ => row' == row
  {
    hide Apply, Enabled;
    Frame.TouchesTables(s, a);
    match a
    case Insert(t, id) => Frame.InsertRows(s, t, id);
    case MarkQueued(t) => Frame.MarkRows(s, t);
    case Cancel(tenant, op) => Frame.CancelRows(s, tenant, op);
    case Start(t, attempt) => Frame.StartRows(s, t, attempt);
    case Commit(t, n) => Frame.CommitRows(s, t, n);
    case _ =>
  }

  predicate Settled(status: Status) { status in {Succeeded, Failed, DeadLettered} }

  /** No action touches the row of a SUCCEEDED, FAILED or DEAD_LETTERED operation, although
      the start statement has no status guard. */
  lemma SettledStep(level: Level, s: State, a: Action, s': State, o: OpId)
    requires Inv(s) && Step(level, s, a, s') && o in s.ops && Settled(s.ops[o].status)
    ensures o in s'.ops && s'.ops[o] == s.ops[o]
  {
    hide Inv, Apply, Enabled;
    RowChange(s, a, o);
    if a.Start? {
      Frame.StartRows(s, a.t, a.attempt);
      CarrierSteps.ThreadFacts(s, a.t);
    }
  }

  /** Along any path the whole row (status, output, error, counts) is frozen once settled. */
  lemma {:induction false} SettledForever(level: Level, states: seq<State>, actions: seq<Action>, i: nat, j: nat,
      o: OpId)
    requires IsPath(level, states, actions) && Inv(states[0]) && i <= j < |states|
    requires o in states[i].ops && Settled(states[i].ops[o].status)
    ensures o in states[j].ops && states[j].ops[o] == states[i].ops[o]
    decreases j
  {
    hide Inv, Apply, Enabled;
    if i < j {
      SettledForever(level, states, actions, i, j - 1, o);
      PathKeepsInv(level, states, actions, j - 1);
      SettledStep(level, states[j - 1], actions[j - 1], states[j], o);
    }
  }

  // ---- attempts ----

  ghost function AttemptsOf(attempts: Attempts, o: OpId): set<AttemptId> {
    set a | a in attempts && attempts[a].op == o
  }

  /** A table numbered 1..n has n rows. */
  lemma {:induction false} CountNumbered(attempts: Attempts, o: OpId, ids: set<AttemptId>, n: nat)
    requires forall a :: a in ids <==> a in attempts && attempts[a].op == o && attempts[a].number <= n
    requires forall a :: a in ids ==> 1 <= attempts[a].number
    requires forall a, b :: a in ids && b in ids && a != b ==> attempts[a].number != attempts[b].number
    requires HasAll(attempts, o, n)
    ensures |ids| == n
    decreases n
  {
    if n == 0 {
      assert ids == {};
    } else {
      assert HasAttempt(attempts, o, n);
      var a :| a in attempts && attempts[a].op == o && attempts[a].number == n;
      CountNumbered(attempts, o, ids - {a}, n - 1);
    }
  }

  /** Attempts of an operation are numbered exactly 1..attempt_count, one row each, and never
      more than max(1, max_retries) of them are made. */
  lemma AttemptAccounting(level: Level, states: seq<State>, actions: seq<Action>, i: nat, o: OpId)
    requires IsRun(level, states, actions) && i < |states| && o in states[i].ops
    ensures 0 <= states[i].ops[o].attemptCount <= AttemptCap(states[i].ops[o])
    ensures forall n :: HasAttempt(states[i].attempts, o, n) <==> 1 <= n <= states[i].ops[o].attemptCount
    ensures |AttemptsOf(states[i].attempts, o)| == states[i].ops[o].attemptCount
  {
    RunInv(level, states, actions, i);
    CountNumbered(states[i].attempts, o, AttemptsOf(states[i].attempts, o), states[i].ops[o].attemptCount);
  }

  /** The retry decision taken from an earlier read is the one the current row would give, and
      the backoff exponent it uses lies in 1..max_retries - 1. */
  lemma RetryDecisionCurrent(level: Level, states: seq<State>, actions: seq<Action>, i: nat, t: Tid)
    requires IsRun(level, states, actions) && i < |states| && t in states[i].threads
    requires states[i].threads[t].Reporting? && states[i].threads[t].report.Failure?
    requires !states[i].threads[t].stage.Sent?
    ensures states[i].threads[t].op in states[i].ops
    ensures var th, row := states[i].threads[t], states[i].ops[states[i].threads[t].op];
            WillRetry(th.report, th.stage.seen) == WillRetry(th.report, row) &&
            th.stage.seen.tenant == row.tenant &&
            (WillRetry(th.report, row) ==> 1 <= th.stage.seen.attemptCount < row.maxRetries)
  {
    RunInv(level, states, actions, i);
    CarrierSteps.ThreadFacts(states[i], t);
  }
}
