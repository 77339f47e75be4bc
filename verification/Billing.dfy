/** When a cancelled operation is billed or announced all the same: a run in which it is, and
    exactly when it no longer can be.  All results hold at both fault levels. */
module Billing {
  import opened Model
  import opened JobQueue
  import opened Protocol
  import opened Carrier
  import opened Traces
  import Cancellation
  import CarrierSteps
  import FaultFreeEnds
  import Flows
  import Frame
  import Lifecycle
  import Progress
  import Redis
  import Release
  import Store
  import WorkerTraces

  // ---- who can still bill or announce ----

  /** The thread can go on to meter o: a worker on its way to a report, a success report on its
      way, or the goroutine that meters.  An abandoned start request reports nothing. */
  predicate Bills(t: Tid, th: Thread, o: OpId) {
    match th
    case Starting(p, _, _) => p == o && t.Worker?
    case Opened(p, _) => p == o && t.Worker?
    case Resolved(p, _, _) => p == o && t.Worker?
    case Working(p, _) => p == o
    case Reporting(p, _, report, _) => p == o && report.Success?
    case Metering(_, p) => p == o
    case _ => false
  }

  /** The thread can go on to announce o: it can bill it, its failure report ends the operation
      as `row` stands, or it announces already. */
  predicate Tells(row: Operation, t: Tid, th: Thread, o: OpId) {
    || Bills(t, th, o)
    || (th.Reporting? && th.op == o && !WillRetry(th.report, row))
    || (th.Announcing? && th.op == o)
  }

  ghost predicate NoneBills(s: State, o: OpId) {
    forall t :: t in s.threads ==> !Bills(t, s.threads[t], o)
  }

  ghost predicate NoneTells(s: State, o: OpId)
    requires o in s.ops
  {
    forall t :: t in s.threads ==> !Tells(s.ops[o], t, s.threads[t], o)
  }

  /** No fetch can take the operation up: it is cancelled, or nothing carries it. */
  ghost predicate Dormant(s: State, o: OpId) {
    o in s.ops && (s.ops[o].status == Cancelled || FreeFor(s, None, o))
  }

  // ---- threads only go on with what they had ----

  /** What the acting thread can tell after its step it could tell before. */
  ghost predicate GoesOn(s: State, a: Action, s': State, o: OpId, row: Operation)
    requires !Frame.NoThread(a)
  {
    a.t in s'.threads ==>
      (Bills(a.t, s'.threads[a.t], o) ==> a.t in s.threads && Bills(a.t, s.threads[a.t], o)) &&
      (Tells(row, a.t, s'.threads[a.t], o) ==> a.t in s.threads && Tells(row, a.t, s.threads[a.t], o))
  }

  lemma ClientGoesOn(s: State, a: Action, o: OpId, row: Operation)
    requires Enabled(s, a) && (a.Submit? || a.Lookup? || a.Insert? || a.Refetch?)
    ensures GoesOn(s, a, Apply(s, a), o, row)
  {
    hide Store.KeyTaken, Store.HoldsKey, Store.Conflicts, WillRetry;
    match a
    case Submit(_, _) =>
    case Lookup(_, _) =>
    case Insert(_, _) =>
    case Refetch(_, _) =>
  }

  lemma QueueGoesOn(s: State, a: Action, o: OpId, row: Operation)
    requires Enabled(s, a) && (a.Enqueue? || a.MarkQueued? || a.Pop?)
    ensures GoesOn(s, a, Apply(s, a), o, row)
  {
    hide Store.Enqueued, WillRetry;
    match a
    case Enqueue(_) =>
    case MarkQueued(_) =>
    case Pop(_) =>
  }

  lemma WorkerGoesOn(s: State, a: Action, o: OpId, row: Operation)
    requires Enabled(s, a) && (a.Start? || a.Resolve? || a.Incr? || a.Finish? || a.Drop?)
    ensures GoesOn(s, a, Apply(s, a), o, row)
  {
    hide Store.Started, Counter, WillRetry;
    match a
    case Start(_, _) =>
    case Resolve(_) =>
    case Incr(_, _) =>
    case Finish(_, _) =>
    case Drop(_) =>
  }

  lemma ReportGoesOn(s: State, a: Action, o: OpId, row: Operation)
    requires Enabled(s, a) && (a.Read? || a.Decr? || a.Clamp? || a.Schedule? || a.Record? || a.Emit?)
    ensures GoesOn(s, a, Apply(s, a), o, row)
  {
    hide Recorded, RetryJob, ReadyAt, Counter, WillRetry;
    match a
    case Read(_) =>
    case Decr(_, _) =>
    case Clamp(_, _) =>
    case Schedule(_, _) =>
    case Record(_) =>
    case Emit(_) =>
  }

  /** A dormant operation is not fetched: the worker finds it terminal, or there is no job. */
  lemma FetchGoesOn(s: State, t: Tid, o: OpId, row: Operation)
    requires Enabled(s, Fetch(t)) && Dormant(s, o)
    ensures GoesOn(s, Fetch(t), Apply(s, Fetch(t)), o, row)
  {
    hide WillRetry, NotInMain, NotInDelayed;
    assert s.threads[t].job.op == o ==> Carried(t, s.threads[t]) == Some(o);
  }

  lemma ActorGoesOn(s: State, a: Action, o: OpId, row: Operation)
    requires Enabled(s, a) && Dormant(s, o) && !Frame.NoThread(a) && !Frame.TwoThreads(a)
    ensures GoesOn(s, a, Apply(s, a), o, row)
  {
    hide Enabled, Apply, Dormant, GoesOn;
    if a.Submit? || a.Lookup? || a.Insert? || a.Refetch? {
      ClientGoesOn(s, a, o, row);
    } else if a.Enqueue? || a.MarkQueued? || a.Pop? {
      QueueGoesOn(s, a, o, row);
    } else if a.Fetch? {
      FetchGoesOn(s, a.t, o, row);
    } else if a.Start? || a.Resolve? || a.Incr? || a.Finish? || a.Drop? {
      WorkerGoesOn(s, a, o, row);
    } else {
      ReportGoesOn(s, a, o, row);
    }
  }

  /** A committing thread decides on the retry as the current row would. */
  lemma CommitDecides(s: State, t: Tid)
    requires Inv(s) && t in s.threads && s.threads[t].Reporting? && s.threads[t].stage.Freed?
    ensures s.threads[t].op in s.ops
    ensures var th := s.threads[t]; WillRetry(th.report, th.stage.seen) == WillRetry(th.report, s.ops[th.op])
  {
    CarrierSteps.ThreadFacts(s, t);
  }

  /** The same for the actions that write two threads; `row` is the operation's row. */
  lemma SecondGoesOn(s: State, a: Action, u: Tid, o: OpId) returns (v: Tid)
    requires Inv(s) && Enabled(s, a) && Frame.TwoThreads(a) && o in s.ops && u in Apply(s, a).threads
    ensures Bills(u, Apply(s, a).threads[u], o) ==> v in s.threads && Bills(v, s.threads[v], o)
    ensures Tells(s.ops[o], u, Apply(s, a).threads[u], o) ==> v in s.threads && Tells(s.ops[o], v, s.threads[v], o)
  {
    hide Inv, Enabled, Apply;
    v := u;
    if a.Commit? {
      Frame.CommitThreads(s, a.t, a.notifier);
      CommitDecides(s, a.t);
      if u == a.notifier { v := a.t; }
    } else {
      Frame.DetachThreads(s, a);
      if u == a.z || u == a.t { v := a.t; }
    }
  }

  // ---- a dormant operation nobody speaks for ----

  /** An abandoned start is the last carrier: after it nothing carries the operation. */
  lemma AbandonedStartFrees(s: State, t: Tid, attempt: AttemptId)
    requires Inv(s) && Enabled(s, Start(t, attempt)) && t.Handler?
    ensures FreeFor(Apply(s, Start(t, attempt)), None, s.threads[t].op)
  {
    hide Inv, Store.Started;
    CarrierSteps.ThreadFacts(s, t);
  }

  lemma DormantStep(level: Level, s: State, a: Action, s': State, o: OpId)
    requires Inv(s) && Step(level, s, a, s') && Dormant(s, o) && NoneBills(s, o)
    ensures Dormant(s', o)
  {
    hide Inv, Enabled, Apply, FreeFor;
    Lifecycle.RowChange(s, a, o);
    if FreeFor(s, None, o) {
      Release.FreeStays(level, s, a, s', o);
    } else if a.Start? {
      Frame.StartRows(s, a.t, a.attempt);
      if s.threads[a.t].op == o {
        assert !Bills(a.t, s.threads[a.t], o);
        AbandonedStartFrees(s, a.t, a.attempt);
      }
    }
  }

  lemma NoneBillsStep(level: Level, s: State, a: Action, s': State, o: OpId)
    requires Inv(s) && Step(level, s, a, s') && Dormant(s, o) && NoneBills(s, o)
    ensures NoneBills(s', o)
  {
    hide Inv, Enabled, Apply, Dormant, Bills, Tells;
    Frame.TouchesThreads(s, a);
    assert o in s.ops by { InTable(s, o); }
    forall u | u in s'.threads
      ensures !Bills(u, s'.threads[u], o)
    {
      if Frame.TwoThreads(a) {
        var v := SecondGoesOn(s, a, u, o);
      } else if !Frame.NoThread(a) {
        ActorGoesOn(s, a, o, s.ops[o]);
      }
    }
  }

  lemma InTable(s: State, o: OpId)
    requires Dormant(s, o)
    ensures o in s.ops
  {
  }

  /** With nobody to bill it, the operation does not enter the ledger. */
  lemma UnbilledStep(level: Level, s: State, a: Action, s': State, o: OpId)
    requires Step(level, s, a, s') && NoneBills(s, o) && o !in s.ledger
    ensures o !in s'.ledger
  {
    hide Enabled, Apply;
    if o in s'.ledger {
      FaultFreeEnds.RecordWrites(s, a, o);
      RecordActor(s, a);
    }
  }

  lemma RecordActor(s: State, a: Action)
    requires Enabled(s, a) && (a.Record? || a.Emit?)
    ensures a.t in s.threads && (if a.Record? then s.threads[a.t].Metering? else s.threads[a.t].Announcing?)
  {
  }

  lemma {:induction false} UnbilledPath(level: Level, states: seq<State>, actions: seq<Action>, i: nat, o: OpId)
    requires IsPath(level, states, actions) && Inv(states[0]) && i < |states|
    requires Dormant(states[0], o) && NoneBills(states[0], o) && o !in states[0].ledger
    ensures Dormant(states[i], o) && NoneBills(states[i], o) && o !in states[i].ledger
  {
    hide Inv, Enabled, Apply, Dormant, NoneBills;
    if i > 0 {
      UnbilledPath(level, states, actions, i - 1, o);
      Lifecycle.PathKeepsInv(level, states, actions, i - 1);
      DormantStep(level, states[i - 1], actions[i - 1], states[i], o);
      NoneBillsStep(level, states[i - 1], actions[i - 1], states[i], o);
      UnbilledStep(level, states[i - 1], actions[i - 1], states[i], o);
    }
  }

  // ---- the same for announcements ----

  ghost predicate Told(s: State, o: OpId) { exists k :: 0 <= k < |s.events| && s.events[k].op == o }

  lemma TellsBills(s: State, o: OpId)
    requires o in s.ops && NoneTells(s, o)
    ensures NoneBills(s, o)
  {
    forall t | t in s.threads
      ensures !Bills(t, s.threads[t], o)
    {
      assert !Tells(s.ops[o], t, s.threads[t], o);
    }
  }

  lemma SameRetry(row: Operation, row': Operation, t: Tid, th: Thread, o: OpId)
    requires row'.attemptCount == row.attemptCount && row'.maxRetries == row.maxRetries
    ensures Tells(row', t, th, o) == Tells(row, t, th, o)
  {
  }

  /** A start of o leaves no report of o pending: the start was its only carrier. */
  lemma StartedAlone(s: State, t: Tid, attempt: AttemptId, u: Tid, row: Operation, row': Operation)
    requires Inv(s) && Enabled(s, Start(t, attempt)) && u in s.threads && u != t
    ensures Tells(row', u, s.threads[u], s.threads[t].op) ==> Tells(row, u, s.threads[u], s.threads[t].op)
  {
    hide Inv, NotInMain, NotInDelayed;
    CarrierSteps.ThreadFacts(s, t);
    CarrierSteps.ThreadFacts(s, u);
    hide ThreadOk;
    assert Carried(u, s.threads[u]) != Some(s.threads[t].op);
  }

  lemma NoneTellsStep(level: Level, s: State, a: Action, s': State, o: OpId)
    requires Inv(s) && Step(level, s, a, s') && Dormant(s, o) && NoneTells(s, o)
    ensures o in s'.ops && NoneTells(s', o)
  {
    hide Inv, Enabled, Apply, Dormant, Bills, Tells;
    Frame.TouchesThreads(s, a);
    InTable(s, o);
    Lifecycle.ExactTransition(level, s, a, s', o);
    var row, row' := s.ops[o], s'.ops[o];
    if a.Start? { Frame.StartRows(s, a.t, a.attempt); }
    forall u | u in s'.threads
      ensures !Tells(row', u, s'.threads[u], o)
    {
      if a.Start? && s.threads[a.t].op == o {
        if u == a.t {
          ActorGoesOn(s, a, o, row');
          StartTells(s, a.t, row, row');
        } else {
          StartedAlone(s, a.t, a.attempt, u, row, row');
        }
      } else {
        SameRetry(row, row', u, s'.threads[u], o);
        if Frame.TwoThreads(a) {
          var v := SecondGoesOn(s, a, u, o);
        } else if !Frame.NoThread(a) {
          ActorGoesOn(s, a, o, row);
        }
      }
    }
  }

  lemma StartTells(s: State, t: Tid, row: Operation, row': Operation)
    requires t in s.threads && s.threads[t].Starting?
    ensures Tells(row', t, s.threads[t], s.threads[t].op) == Tells(row, t, s.threads[t], s.threads[t].op)
  {
  }

  lemma UntoldStep(level: Level, s: State, a: Action, s': State, o: OpId)
    requires Step(level, s, a, s') && o in s.ops && NoneTells(s, o) && !Told(s, o)
    ensures !Told(s', o)
  {
    hide Enabled, Apply;
    FaultFreeEnds.EmitWrites(s, a);
    if a.Emit? {
      RecordActor(s, a);
      assert !Tells(s.ops[o], a.t, s.threads[a.t], o);
    }
  }

  lemma {:induction false} UntoldPath(level: Level, states: seq<State>, actions: seq<Action>, i: nat, o: OpId)
    requires IsPath(level, states, actions) && Inv(states[0]) && i < |states|
    requires Dormant(states[0], o) && NoneTells(states[0], o) && !Told(states[0], o)
    ensures Dormant(states[i], o) && NoneTells(states[i], o) && !Told(states[i], o)
  {
    hide Inv, Enabled, Apply, NoneTells, Told, FreeFor;
    if i > 0 {
      UntoldPath(level, states, actions, i - 1, o);
      Lifecycle.PathKeepsInv(level, states, actions, i - 1);
      TellsBills(states[i - 1], o);
      DormantStep(level, states[i - 1], actions[i - 1], states[i], o);
      NoneTellsStep(level, states[i - 1], actions[i - 1], states[i], o);
      UntoldStep(level, states[i - 1], actions[i - 1], states[i], o);
    }
  }

  // ---- a thread that can still speak for o can be let finish ----

  /** What the report's end will be, as far as it is decided. */
  predicate Ripe(s: State, t: Tid, o: OpId) {
    && o in s.ops && t in s.threads
    && match s.threads[t]
       case Starting(p, _, _) => p == o && t.Worker?
       case Opened(p, _) => p == o && t.Worker?
       case Resolved(p, _, _) => p == o && t.Worker?
       case Working(p, _) => p == o
       case Reporting(p, _, report, stage) =>
         p == o && !stage.Retry? && !WillRetry(report, if stage.Sent? then s.ops[o] else stage.seen)
       case Metering(_, p) => p == o
       case Announcing(_, p, _) => p == o
       case _ => false
  }

  /** How many steps are left to the announcement. */
  function Distance(th: Thread): nat {
    match th
    case Starting(_, _, _) => 9
    case Opened(_, _) => 8
    case Resolved(_, _, _) => 7
    case Working(_, _) => 6
    case Reporting(_, _, _, stage) =>
      (match stage
       case Sent => 5
       case Got(_) => 4
       case Freed(_, negative) => if negative then 3 else 2
       case Retry(_) => 2)
    case Metering(_, _) => 1
    case _ => 0
  }

  /** The step took the announcement closer, and billing stays possible if it was. */
  ghost predicate Closer(s: State, t: Tid, s': State, t': Tid, o: OpId) {
    && Ripe(s, t, o) && Ripe(s', t', o) && Distance(s'.threads[t']) < Distance(s.threads[t])
    && (Bills(t, s.threads[t], o) || o in s.ledger ==> Bills(t', s'.threads[t'], o) || o in s'.ledger)
  }

  /** The worker's way to its report; the provider succeeds. */
  lemma WorkerNext(level: Level, s: State, t: Tid, o: OpId) returns (trace: seq<Action>, s': State)
    requires Ripe(s, t, o)
    requires s.threads[t].Starting? || s.threads[t].Opened? || s.threads[t].Resolved? || s.threads[t].Working?
    ensures Leads(level, s, trace, s') && Closer(s, t, s', t, o)
  {
    hide Leads, WillRetry;
    match s.threads[t]
    case Starting(_, _, _) =>
      var attempt := Cancellation.FreshAttempt(s.attempts);
      StartOne(level, s, t, attempt);
      var th := s.threads[t];
      trace := [Start(t, attempt)];
      s' := s.(ops := Store.Started(s.ops, o, th.number, s.now),
               attempts := s.attempts[attempt := Store.OpenedAttempt(o, th.number, th.worker, s.now)],
               threads := s.threads[t := Opened(o, attempt)]);
    case Opened(_, attempt) =>
      ResolveOne(level, s, t);
      trace, s' := [Resolve(t)], s.(threads := s.threads[t := Resolved(o, attempt, s.ops[o].tenant)]);
    case Resolved(_, attempt, tenant) =>
      IncrOne(level, s, t, true);
      trace, s' := [Incr(t, true)], s.(counters := Redis.Incremented(s.counters, tenant),
                                       threads := s.threads[t := Working(o, attempt)]);
    case Working(_, attempt) =>
      var report := Success("", "", 0);
      WorkerTraces.FinishOne(level, s, t, report);
      trace, s' := [Finish(t, report)], s.(threads := s.threads[t := Reporting(o, attempt, report, Stage.Sent)]);
      NoSuccessRetry(report, s.ops[o]);
  }

  lemma NoSuccessRetry(report: Report, row: Operation)
    requires report.Success?
    ensures !WillRetry(report, row)
  {
  }

  lemma ReportNext(level: Level, s: State, t: Tid, o: OpId) returns (trace: seq<Action>, s': State)
    requires Ripe(s, t, o) && s.threads[t].Reporting? && Distance(s.threads[t]) > 2
    ensures Leads(level, s, trace, s') && Closer(s, t, s', t, o)
  {
    hide Leads, WillRetry;
    var th := s.threads[t];
    match th.stage
    case Sent =>
      ReadOne(level, s, t);
      trace, s' := [Read(t)], s.(threads := s.threads[t := th.(stage := Got(s.ops[o]))]);
    case Got(seen) =>
      DecrOne(level, s, t, true);
      var val := Counter(s.counters, seen.tenant) - 1;
      trace, s' := [Decr(t, true)], s.(counters := s.counters[seen.tenant := val],
                                       threads := s.threads[t := th.(stage := Freed(seen, val < 0))]);
    case Freed(seen, _) =>
      ClampOne(level, s, t, true);
      trace, s' := [Clamp(t, true)], s.(counters := s.counters[seen.tenant := 0],
                                  threads := s.threads[t := th.(stage := Freed(seen, false))]);
  }

  lemma CommitNext(level: Level, s: State, t: Tid, o: OpId) returns (trace: seq<Action>, s': State, n: Tid)
    requires Ripe(s, t, o) && s.threads[t].Reporting? && Distance(s.threads[t]) == 2
    ensures Leads(level, s, trace, s') && Closer(s, t, s', n, o)
  {
    n := Progress.FreshHandler(s);
    assert Enabled(s, Commit(t, n));
    trace, s' := [Commit(t, n)], Apply(s, Commit(t, n));
    hide Enabled, Apply, Leads, WillRetry;
    LeadsOne(level, s, Commit(t, n));
    Frame.CommitThreads(s, t, n);
    Frame.CommitRows(s, t, n);
    Frame.TouchesRest(s, Commit(t, n));
  }

  lemma RecordNext(level: Level, s: State, t: Tid, o: OpId) returns (trace: seq<Action>, s': State)
    requires Ripe(s, t, o) && s.threads[t].Metering?
    ensures Leads(level, s, trace, s') && Closer(s, t, s', t, o)
  {
    RecordOne(level, s, t);
    hide Leads;
    trace, s' := [Record(t)], s.(ledger := Recorded(s.ledger, s.threads[t].tenant, o, 1, s.now),
                                 threads := s.threads[t := Announcing(s.threads[t].tenant, o, OperationSucceeded)]);
  }

  lemma Next(level: Level, s: State, t: Tid, o: OpId) returns (trace: seq<Action>, s': State, t': Tid)
    requires Ripe(s, t, o) && !s.threads[t].Announcing?
    ensures Leads(level, s, trace, s') && Closer(s, t, s', t', o)
  {
    hide Leads, Closer;
    t' := t;
    match s.threads[t]
    case Metering(_, _) => trace, s' := RecordNext(level, s, t, o);
    case Reporting(_, _, _, _) =>
      if Distance(s.threads[t]) > 2 {
        trace, s' := ReportNext(level, s, t, o);
      } else {
        trace, s', t' := CommitNext(level, s, t, o);
      }
    case _ => trace, s' := WorkerNext(level, s, t, o);
  }

  /** Left alone, the thread announces o, and bills it if it could. */
  lemma {:induction false} Onward(level: Level, s: State, t: Tid, o: OpId) returns (trace: seq<Action>, s': State)
    requires Ripe(s, t, o)
    ensures Leads(level, s, trace, s') && Told(s', o)
    ensures Bills(t, s.threads[t], o) || o in s.ledger ==> o in s'.ledger
    decreases Distance(s.threads[t])
  {
    hide Leads;
    if s.threads[t].Announcing? {
      EmitOne(level, s, t);
      var th := s.threads[t];
      trace := [Emit(t)];
      s' := s.(events := s.events + [Event(th.tenant, th.op, th.kind)], threads := Ended(s.threads, t));
      assert s'.events[|s.events|].op == o;
    } else {
      var p, m, u := Next(level, s, t, o);
      var q;
      q, s' := Onward(level, m, u, o);
      LeadsThen(level, s, p, m, q, s');
      trace := p + q;
    }
  }

  lemma SpeakerRipe(s: State, t: Tid, o: OpId)
    requires Inv(s) && o in s.ops && t in s.threads && Tells(s.ops[o], t, s.threads[t], o)
    ensures Ripe(s, t, o)
  {
    hide Inv, FreeFor;
    CarrierSteps.ThreadFacts(s, t);
  }

  // ---- exact conditions ----

  ghost predicate StaysUnbilled(level: Level, s: State, o: OpId) {
    forall states: seq<State>, actions: seq<Action> | IsPath(level, states, actions) && states[0] == s ::
      o !in states[|actions|].ledger
  }

  ghost predicate StaysUntold(level: Level, s: State, o: OpId) {
    forall states: seq<State>, actions: seq<Action> | IsPath(level, states, actions) && states[0] == s ::
      !Told(states[|actions|], o)
  }

  /** A cancelled operation that is not billed stays unbilled in every continuation if and only if
      no worker is on its way to a report for it, no success report is under way and no goroutine
      meters it. */
  lemma CancelledUnbilledIff(level: Level, states: seq<State>, actions: seq<Action>, i: nat, o: OpId)
    requires IsRun(level, states, actions) && i < |states| && o in states[i].ops
    requires states[i].ops[o].status == Cancelled && o !in states[i].ledger
    ensures StaysUnbilled(level, states[i], o) <==> NoneBills(states[i], o)
  {
    hide Inv, Init, Enabled, Apply, Bills, Tells, Ripe, Leads;
    var s := states[i];
    Lifecycle.RunInv(level, states, actions, i);
    if NoneBills(s, o) {
      assert Dormant(s, o);
      forall later: seq<State>, acts: seq<Action> | IsPath(level, later, acts) && later[0] == s
        ensures o !in later[|acts|].ledger
      {
        UnbilledPath(level, later, acts, |acts|, o);
      }
    } else {
      var t :| t in s.threads && Bills(t, s.threads[t], o);
      BillerTells(s.ops[o], t, s.threads[t], o);
      SpeakerRipe(s, t, o);
      var trace, s' := Onward(level, s, t, o);
      var later := LeadsIsPath(level, s, trace, s');
    }
  }

  lemma BillerTells(row: Operation, t: Tid, th: Thread, o: OpId)
    requires Bills(t, th, o)
    ensures Tells(row, t, th, o)
  {
  }

  /** A cancelled operation that no event has announced stays unannounced in every continuation if
      and only if, besides, no report that would end it is under way and no goroutine announces it. */
  lemma CancelledUntoldIff(level: Level, states: seq<State>, actions: seq<Action>, i: nat, o: OpId)
    requires IsRun(level, states, actions) && i < |states| && o in states[i].ops
    requires states[i].ops[o].status == Cancelled && !Told(states[i], o)
    ensures StaysUntold(level, states[i], o) <==> NoneTells(states[i], o)
  {
    hide Inv, Init, Enabled, Apply, Bills, Tells, Ripe, Leads, Told;
    var s := states[i];
    Lifecycle.RunInv(level, states, actions, i);
    if NoneTells(s, o) {
      assert Dormant(s, o);
      forall later: seq<State>, acts: seq<Action> | IsPath(level, later, acts) && later[0] == s
        ensures !Told(later[|acts|], o)
      {
        UntoldPath(level, later, acts, |acts|, o);
      }
    } else {
      var t :| t in s.threads && Tells(s.ops[o], t, s.threads[t], o);
      SpeakerRipe(s, t, o);
      var trace, s' := Onward(level, s, t, o);
      var later := LeadsIsPath(level, s, trace, s');
    }
  }

  // ---- witness ----

  /** One polling worker, nothing else. */
  ghost const START := Cancellation.Moment(map[], map[], [], Idle, None)

  /** The client cancels while the provider works. */
  lemma CancelledWorking() returns (trace: seq<Action>, s: State)
    ensures Leads(F0, START, trace, s)
    ensures 0 in s.ops && s.ops[0].status == Cancelled && 0 !in s.ledger
    ensures Worker(0) in s.threads && s.threads[Worker(0)] == Working(0, 0)
    ensures forall t :: t in s.threads ==> !s.threads[t].Starting?
  {
    hide Leads;
    var s0, h, w, req := START, Handler(0), Worker(0), Cancellation.REQUEST;
    CreateLeads(s0, h, req, 0, true, true);
    var row := Store.NewRow(req, 0).(status := Queued);
    var job := Job(0, 7, "classify", 0, 0);
    var s1 := State(map[0 := row], map[], [job], map[], map[], [], map[w := Idle, h := Replied(req, 0, false)],
                    map[], [], 0);
    assert With(s0, Flows.Submitted(WorldOf(s0), req, 0, 0, true, true), s0.threads[h := Replied(req, 0, false)]) == s1;
    trace := CreateActions(h, req, 0, true, true);
    s, trace := WorkFrom(s0, trace, s1, row, job);
  }

  lemma WorkFrom(s0: State, p: seq<Action>, s1: State, row: Operation, job: Job) returns (s: State, trace: seq<Action>)
    requires Leads(F0, s0, p, s1)
    requires s1.ops == map[0 := row] && row.tenant == 7 && row.status == Queued && row.attemptCount == 0
    requires s1.main == [job] && job.op == 0 && s1.attempts == map[] && s1.ledger == map[]
    requires Worker(0) in s1.threads && s1.threads[Worker(0)] == Idle
    requires forall t :: t in s1.threads ==> !s1.threads[t].Starting?
    ensures Leads(F0, s0, trace, s)
    ensures 0 in s.ops && s.ops[0].status == Cancelled && 0 !in s.ledger
    ensures Worker(0) in s.threads && s.threads[Worker(0)] == Working(0, 0)
    ensures forall t :: t in s.threads ==> !s.threads[t].Starting?
  {
    hide Leads;
    var w := Worker(0);
    WorkerTraces.PopOne(F0, s1, w);
    var s2 := s1.(main := s1.main[..|s1.main| - 1], threads := s1.threads[w := Popped(job)]);
    WorkerTraces.FetchOne(F0, s2, w);
    var s3 := s2.(threads := s2.threads[w := Starting(0, 1, 0)]);
    BeginLeads(F0, s3, w, 0, true);
    var s4 := With(s3, Flows.Begun(WorldOf(s3), 0, 0, 1, 0, s3.now, true), s3.threads[w := Working(0, 0)]);
    LeadsThen(F0, s0, p, s1, [Pop(w)], s2);
    LeadsThen(F0, s0, p + [Pop(w)], s2, [Fetch(w)], s3);
    LeadsThen(F0, s0, p + [Pop(w)] + [Fetch(w)], s3, BeginActions(w, 0, true), s4);
    trace := p + [Pop(w)] + [Fetch(w)] + BeginActions(w, 0, true);
    s := CancelFrom(s4);
    LeadsThen(F0, s0, trace, s4, [Cancel(7, 0)], s);
    trace := trace + [Cancel(7, 0)];
  }

  lemma CancelFrom(s: State) returns (s': State)
    requires 0 in s.ops && s.ops[0].tenant == 7 && !IsTerminal(s.ops[0].status)
    ensures Leads(F0, s, [Cancel(7, 0)], s')
    ensures s' == s.(ops := s'.ops) && 0 in s'.ops && s'.ops[0].status == Cancelled
  {
    s' := Apply(s, Cancel(7, 0));
    LeadsOne(F0, s, Cancel(7, 0));
  }

  /** A fault-free run that ends with a CANCELLED operation in the ledger and announced. */
  lemma CancelledBilledRun() returns (states: seq<State>, actions: seq<Action>)
    ensures IsRun(F0, states, actions)
    ensures var s := states[|actions|]; 0 in s.ops && s.ops[0].status == Cancelled && 0 in s.ledger && Told(s, 0)
  {
    hide Leads, Told;
    var p, m := CancelledWorking();
    assert Ripe(m, Worker(0), 0) && Bills(Worker(0), m.threads[Worker(0)], 0);
    var q, s := Onward(F0, m, Worker(0), 0);
    var after := LeadsIsPath(F0, m, q, s);
    Cancellation.CancelledPath(F0, after, q, |q|, 0);
    LeadsThen(F0, START, p, m, q, s);
    states := LeadsIsPath(F0, START, p + q, s);
    actions := p + q;
    hide Step;
  }
}
