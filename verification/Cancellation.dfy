/** CANCELLED is not final: a start whose fetch preceded the cancel revives the operation.
    README.md:78-80 of the repository promises the opposite; here is the run, and exactly when the
    promise holds. */
module Cancellation {
  import opened Model
  import opened JobQueue
  import opened Protocol
  import opened Carrier
  import Store
  import Frame

  /** A start request for o has been sent and not executed yet. */
  ghost predicate StartInFlight(s: State, o: OpId) {
    exists t :: t in s.threads && s.threads[t].Starting? && s.threads[t].op == o
  }

  /** Only Fetch sends a start request. */
  lemma StartingActor(s: State, a: Action)
    requires Enabled(s, a) && !Frame.NoThread(a) && !Frame.TwoThreads(a) && !a.Fetch?
    ensures a.t in Apply(s, a).threads ==> !Apply(s, a).threads[a.t].Starting?
  {
    hide Store.KeyTaken, Store.HoldsKey, Store.Conflicts, Store.Started, Recorded, RetryJob, ReadyAt, Counter;
    match a
    case Submit(_, _) =>
    case Lookup(_, _) =>
    case Insert(_, _) =>
    case Refetch(_, _) =>
    case Enqueue(_) =>
    case MarkQueued(_) =>
    case Pop(_) =>
    case Start(_, _) =>
    case Resolve(_) =>
    case Incr(_, _) =>
    case _ => ReporterStarts(s, a);
  }

  lemma ReporterStarts(s: State, a: Action)
    requires Enabled(s, a)
    requires a.Finish? || a.Read? || a.Decr? || a.Clamp? || a.Schedule? || a.Record? || a.Emit? || a.Drop?
    ensures a.t in Apply(s, a).threads ==> !Apply(s, a).threads[a.t].Starting?
  {
    hide Recorded, RetryJob, ReadyAt, Counter;
    match a
    case Finish(_, _) =>
    case Read(_) =>
    case Decr(_, _) =>
    case Clamp(_, _) =>
    case Schedule(_, _) =>
    case Record(_) =>
    case Emit(_) =>
    case Drop(_) =>
  }

  /** It does so only for a row it read as not terminal. */
  lemma FetchStarts(s: State, t: Tid)
    requires Enabled(s, Fetch(t))
    ensures var th := Apply(s, Fetch(t)).threads[t];
            th.Starting? ==> th.op in s.ops && !IsTerminal(s.ops[th.op].status)
  {
  }

  lemma StartingFrom(s: State, a: Action, u: Tid)
    requires Enabled(s, a) && u in Apply(s, a).threads && Apply(s, a).threads[u].Starting?
    ensures var o := Apply(s, a).threads[u].op;
            StartInFlight(s, o) || (o in s.ops && !IsTerminal(s.ops[o].status))
  {
    hide Apply, Enabled;
    Frame.TouchesThreads(s, a);
    if a.Commit? {
      Frame.CommitThreads(s, a.t, a.notifier);
      assert u in s.threads && s.threads[u].Starting?;
    } else if Frame.TwoThreads(a) {
      Frame.DetachThreads(s, a);
      assert u == a.z || (u in s.threads && u != a.t);
    } else if !Frame.NoThread(a) && u == a.t {
      if a.Fetch? { FetchStarts(s, a.t); } else { StartingActor(s, a); }
    } else {
      assert u in s.threads && s.threads[u] == Apply(s, a).threads[u];
    }
  }

  lemma CancelledRow(s: State, a: Action, o: OpId)
    requires Enabled(s, a) && o in s.ops && s.ops[o].status == Cancelled && !StartInFlight(s, o)
    ensures o in Apply(s, a).ops && Apply(s, a).ops[o] == s.ops[o]
  {
    hide Apply, Enabled;
    Frame.TouchesTables(s, a);
    match a
    case Start(t, attempt) => Frame.StartRows(s, t, attempt); assert s.threads[t].op != o;
    case Commit(t, n) => Frame.CommitRows(s, t, n);
    case Insert(t, id) => Frame.InsertRows(s, t, id);
    case MarkQueued(t) => Frame.MarkRows(s, t);
    case Cancel(tenant, op) => Frame.CancelRows(s, tenant, op);
    case _ =>
  }

  /** Cancelled with no start in flight: no step of either level changes that. */
  lemma CancelledStep(level: Level, s: State, a: Action, s': State, o: OpId)
    requires Step(level, s, a, s') && o in s.ops && s.ops[o].status == Cancelled && !StartInFlight(s, o)
    ensures o in s'.ops && s'.ops[o] == s.ops[o] && !StartInFlight(s', o)
  {
    CancelledRow(s, a, o);
    hide Apply, Enabled;
    if t :| t in s'.threads && s'.threads[t].Starting? && s'.threads[t].op == o {
      StartingFrom(s, a, t);
    }
  }

  lemma {:induction false} CancelledPath(level: Level, states: seq<State>, actions: seq<Action>, i: nat, o: OpId)
    requires IsPath(level, states, actions) && i < |states|
    requires o in states[0].ops && states[0].ops[o].status == Cancelled && !StartInFlight(states[0], o)
    ensures o in states[i].ops && states[i].ops[o] == states[0].ops[o] && !StartInFlight(states[i], o)
  {
    hide Enabled, Apply, StartInFlight;
    if i > 0 {
      CancelledPath(level, states, actions, i - 1, o);
      CancelledStep(level, states[i - 1], actions[i - 1], states[i], o);
    }
  }

  /** In every continuation of either level the operation is still CANCELLED. */
  ghost predicate StaysCancelled(level: Level, s: State, o: OpId) {
    forall states: seq<State>, actions: seq<Action>, i: nat {:trigger IsPath(level, states, actions), states[i]} ::
      IsPath(level, states, actions) && states[0] == s && i < |states| ==>
        o in states[i].ops && states[i].ops[o].status == Cancelled
  }

  lemma FreshAttempt(attempts: Attempts) returns (a: AttemptId)
    ensures a !in attempts
  {
    a := FreshNat(attempts.Keys);
  }

  lemma FreshNat(used: set<nat>) returns (n: nat)
    ensures n !in used && forall m :: m in used ==> m < n
  {
    if used == {} {
      n := 0;
    } else {
      var m :| m in used;
      var n' := FreshNat(used - {m});
      n := if m < n' then n' else m + 1;
      assert forall x :: x in used ==> x == m || x in used - {m};
    }
  }

  /** A cancelled operation stays cancelled if and only if no start request for it is in
      flight; the one step that breaks it is that start. */
  lemma CancelSticksIffNoStartInFlight(level: Level, s: State, o: OpId)
    requires o in s.ops && s.ops[o].status == Cancelled
    ensures StaysCancelled(level, s, o) <==> !StartInFlight(s, o)
  {
    if t :| t in s.threads && s.threads[t].Starting? && s.threads[t].op == o {
      var a := FreshAttempt(s.attempts);
      var states, actions := [s, Apply(s, Start(t, a))], [Start(t, a)];
      assert IsPath(level, states, actions);
      assert states[1].ops[o].status == Running;
    } else {
      forall states: seq<State>, actions: seq<Action>, i: nat | IsPath(level, states, actions) &&
          states[0] == s && i < |states|
        ensures o in states[i].ops && states[i].ops[o].status == Cancelled
      {
        CancelledPath(level, states, actions, i, o);
      }
    }
  }

  // ---- witness ----

  const REQUEST := CreateRequest(7, None, "classify", "{}", 3)
  const ROW := Store.NewRow(REQUEST, 0)
  const JOB := Job(0, 7, "classify", 0, 0)

  ghost function Moment(ops: Ops, attempts: Attempts, main: seq<Job>, worker: Thread, handler: Option<Thread>): State {
    var threads := map[Worker(0) := worker];
    State(ops, attempts, main, map[], map[], [], if handler.Some?
        then threads[Handler(0) := handler.value] else threads, map[], [], 0)
  }

  lemma RevivedCreate() returns (states: seq<State>)
    ensures states == [
      Moment(map[], map[], [], Idle, None),
      Moment(map[], map[], [], Idle, Some(Inserting(REQUEST))),
      Moment(map[0 := ROW], map[], [], Idle, Some(Submitting(REQUEST, 0))),
      Moment(map[0 := ROW], map[], [JOB], Idle, Some(Marking(REQUEST, 0)))]
    ensures Step(F0, states[0], Submit(Handler(0), REQUEST), states[1])
    ensures Step(F0, states[1], Insert(Handler(0), 0), states[2])
    ensures Step(F0, states[2], Enqueue(Handler(0)), states[3])
  {
    states := [
      Moment(map[], map[], [], Idle, None),
      Moment(map[], map[], [], Idle, Some(Inserting(REQUEST))),
      Moment(map[0 := ROW], map[], [], Idle, Some(Submitting(REQUEST, 0))),
      Moment(map[0 := ROW], map[], [JOB], Idle, Some(Marking(REQUEST, 0)))];
  }

  lemma RevivedFetch() returns (states: seq<State>)
    ensures states == [
      Moment(map[0 := ROW], map[], [JOB], Idle, Some(Marking(REQUEST, 0))),
      Moment(map[0 := ROW], map[], [], Popped(JOB), Some(Marking(REQUEST, 0))),
      Moment(map[0 := ROW], map[], [], Starting(0, 1, 0), Some(Marking(REQUEST, 0)))]
    ensures Step(F0, states[0], Pop(Worker(0)), states[1])
    ensures Step(F0, states[1], Fetch(Worker(0)), states[2])
  {
    states := [
      Moment(map[0 := ROW], map[], [JOB], Idle, Some(Marking(REQUEST, 0))),
      Moment(map[0 := ROW], map[], [], Popped(JOB), Some(Marking(REQUEST, 0))),
      Moment(map[0 := ROW], map[], [], Starting(0, 1, 0), Some(Marking(REQUEST, 0)))];
  }

  lemma RevivedStart() returns (cancelled: Operation, running: Operation, states: seq<State>)
    ensures cancelled.status == Cancelled && running.status == Running
    ensures states == [
      Moment(map[0 := ROW], map[], [], Starting(0, 1, 0), Some(Marking(REQUEST, 0))),
      Moment(map[0 := cancelled], map[], [], Starting(0, 1, 0), Some(Marking(REQUEST, 0))),
      Moment(map[0 := running], map[0 := Store.OpenedAttempt(0, 1, 0, 0)], [], Opened(0, 0), Some(Marking(REQUEST, 0)))]
    ensures Step(F0, states[0], Cancel(7, 0), states[1])
    ensures Step(F0, states[1], Start(Worker(0), 0), states[2])
  {
    cancelled := ROW.(status := Cancelled, completedAt := Some(0));
    running := cancelled.(status := Running, attemptCount := 1, startedAt := Some(0));
    states := [
      Moment(map[0 := ROW], map[], [], Starting(0, 1, 0), Some(Marking(REQUEST, 0))),
      Moment(map[0 := cancelled], map[], [], Starting(0, 1, 0), Some(Marking(REQUEST, 0))),
      Moment(map[0 := running], map[0 := Store.OpenedAttempt(0, 1, 0, 0)], [], Opened(0, 0),
             Some(Marking(REQUEST, 0)))];
  }

  lemma UnqueuedStart() returns (running: Operation, states: seq<State>)
    ensures running.status == Running
    ensures states == [
      Moment(map[0 := ROW], map[], [], Starting(0, 1, 0), Some(Marking(REQUEST, 0))),
      Moment(map[0 := running], map[0 := Store.OpenedAttempt(0, 1, 0, 0)], [], Opened(0, 0),
             Some(Marking(REQUEST, 0)))]
    ensures Step(F0, states[0], Start(Worker(0), 0), states[1])
  {
    running := ROW.(status := Running, attemptCount := 1, startedAt := Some(0));
    states := [
      Moment(map[0 := ROW], map[], [], Starting(0, 1, 0), Some(Marking(REQUEST, 0))),
      Moment(map[0 := running], map[0 := Store.OpenedAttempt(0, 1, 0, 0)], [], Opened(0, 0),
             Some(Marking(REQUEST, 0)))];
  }

  /** The enqueue precedes the QUEUED mark: a fault-free run from PENDING straight to RUNNING. */
  lemma UnqueuedRun() returns (states: seq<State>, actions: seq<Action>)
    ensures IsRun(F0, states, actions) && |states| == 7
    ensures forall i :: 2 <= i < 6 ==> 0 in states[i].ops && states[i].ops[0].status == Pending
    ensures 0 in states[6].ops && states[6].ops[0].status == Running
  {
    hide Step;
    var h, w := Handler(0), Worker(0);
    var create := RevivedCreate();
    var fetch := RevivedFetch();
    var _, start := UnqueuedStart();
    states := create + fetch[1..] + start[1..];
    actions := [Submit(h, REQUEST), Insert(h, 0), Enqueue(h), Pop(w), Fetch(w), Start(w, 0)];
    forall i | 0 <= i < |actions|
      ensures Step(F0, states[i], actions[i], states[i + 1])
    {
    }
  }

  /** A fault-free run in which a worker fetches, the client cancels, and the start executes:
      the CANCELLED operation is RUNNING again. */
  lemma RevivedRun() returns (states: seq<State>, actions: seq<Action>)
    ensures IsRun(F0, states, actions) && |states| == 8
    ensures 0 in states[5].ops && states[5].ops[0].status == Pending
    ensures 0 in states[6].ops && states[6].ops[0].status == Cancelled
    ensures 0 in states[7].ops && states[7].ops[0].status == Running
  {
    hide Step;
    var h, w := Handler(0), Worker(0);
    var create := RevivedCreate();
    var fetch := RevivedFetch();
    var _, _, start := RevivedStart();
    states := create + fetch[1..] + start[1..];
    actions := [Submit(h, REQUEST), Insert(h, 0), Enqueue(h), Pop(w), Fetch(w), Cancel(7, 0), Start(w, 0)];
    forall i | 0 <= i < |actions|
      ensures Step(F0, states[i], actions[i], states[i + 1])
    {
    }
  }
}
