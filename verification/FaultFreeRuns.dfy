/** No operation is orphaned in a fault-free run; and what such runs guarantee in the end. */
module FaultFreeRuns {
  import opened Model
  import opened JobQueue
  import opened Protocol
  import opened Carrier
  import opened FaultFree
  import opened FaultFreeLocal
  import CarrierSteps
  import Lifecycle
  import FaultFreeEnds
  import Store
  import Frame

  // ---- carriers are only given up by terminal operations ----

  lemma CommitKeeps(s: State, t: Tid, n: Tid)
    requires Inv(s) && Local(s) && Enabled(s, Commit(t, n))
    ensures Carried(t, s.threads[t]) == Some(s.threads[t].op)
    ensures var th, s' := s.threads[t], Apply(s, Commit(t, n));
            (t in s'.threads && Carried(t, s'.threads[t]) == Some(th.op)) ||
            (th.op in s'.ops && IsTerminal(s'.ops[th.op].status))
  {
    hide Inv, Local;
    CommitFacts(s, t);
  }

  /** The acting worker keeps what it carries, hands it to a queue, or its operation is over. */
  ghost predicate Keeps(s: State, a: Action, s': State, o: OpId)
    requires !Frame.NoThread(a)
  {
    || (a.t in s'.threads && Carried(a.t, s'.threads[a.t]) == Some(o))
    || !NotInMain(s'.main, o)
    || !NotInDelayed(s'.delayed, o)
    || (o in s'.ops && IsTerminal(s'.ops[o].status))
  }

  lemma EnqueueKeeps(s: State, t: Tid)
    requires Enabled(s, Enqueue(t))
    ensures !NotInMain(Apply(s, Enqueue(t)).main, s.threads[t].op) && Carried(t, s.threads[t]) == Some(s.threads[t].op)
  {
    assert ApplyEnqueue(s, t).main[0].op == s.threads[t].op;
  }

  lemma ScheduleKeeps(s: State, t: Tid, jitter: nat)
    requires Enabled(s, Schedule(t, jitter))
    ensures !NotInDelayed(Apply(s, Schedule(t, jitter)).delayed, s.threads[t].op)
    ensures Carried(t, s.threads[t]).Some? ==> Carried(t, s.threads[t]) == Some(s.threads[t].op)
  {
    assert RetryJob(s.threads[t].op, s.threads[t].stage.seen, s.now) in ApplySchedule(s, t, jitter).delayed;
  }

  lemma ActorKeeps(s: State, a: Action, s': State, o: OpId)
    requires Inv(s) && Local(s) && Step(F0, s, a, s') && !Frame.NoThread(a)
    requires a.t in s.threads && Carried(a.t, s.threads[a.t]) == Some(o)
    ensures Keeps(s, a, s', o)
  {
    hide Inv, Local, Clean, FreeFor, ThreadsClean, ThreadClean, ThreadOk, NotInMain, NotInDelayed, Apply, Enabled;
    CarrierSteps.ThreadFacts(s, a.t);
    LocalFacts(s, a.t);
    match a
    case Enqueue(t) => EnqueueKeeps(s, t);
    case Schedule(t, jitter) => ScheduleKeeps(s, t, jitter);
    case Commit(t, n) => CommitKeeps(s, t, n);
    case Fetch(t) => FetchKeeps(s, t);
    case Start(t, attempt) => StartKeeps(s, t, attempt);
    case _ => if HoldingAction(a) { AttemptKeeps(s, a); } else { NoCarrierActs(s, a); }
  }

  lemma LocalFacts(s: State, t: Tid)
    requires Local(s) && t in s.threads
    ensures ThreadClean(s.ops, s.attempts, s.ledger, t, s.threads[t])
  {
  }

  lemma FetchKeeps(s: State, t: Tid)
    requires Enabled(s, Fetch(t)) && ThreadOk(s.ops, s.attempts, t, s.threads[t])
    ensures Carried(t, s.threads[t]) == Some(s.threads[t].job.op)
    ensures var o, s' := s.threads[t].job.op, Apply(s, Fetch(t));
            (t in s'.threads && Carried(t, s'.threads[t]) == Some(o)) ||
            (o in s'.ops && IsTerminal(s'.ops[o].status))
  {
  }

  lemma StartKeeps(s: State, t: Tid, attempt: AttemptId)
    requires Enabled(s, Start(t, attempt)) && ThreadClean(s.ops, s.attempts, s.ledger, t, s.threads[t])
    ensures var s' := Apply(s, Start(t, attempt)); t in s'.threads && Carried(t, s'.threads[t]) == Some(s.threads[t].op)
    ensures Carried(t, s.threads[t]) == Some(s.threads[t].op)
  {
  }

  predicate HoldingAction(a: Action) {
    a.Resolve? || a.Incr? || a.Finish? || a.Read? || a.Decr? || a.Clamp?
  }

  lemma AttemptKeeps(s: State, a: Action)
    requires Enabled(s, a) && Allowed(F0, a) && HoldingAction(a) && a.t in s.threads
    requires ThreadClean(s.ops, s.attempts, s.ledger, a.t, s.threads[a.t])
    requires ThreadOk(s.ops, s.attempts, a.t, s.threads[a.t])
    ensures a.t in Apply(s, a).threads
    ensures Carried(a.t, Apply(s, a).threads[a.t]) == Carried(a.t, s.threads[a.t])
  {
    hide Live, Clean, Counter;
    match a
    case Resolve(_) =>
    case Incr(_, _) =>
    case Finish(_, _) =>
    case Read(_) =>
    case Decr(_, _) =>
    case Clamp(_, _) =>
  }

  /** The remaining actions are taken by threads that carry nothing. */
  lemma NoCarrierActs(s: State, a: Action)
    requires Enabled(s, a) && Allowed(F0, a)
    requires a.Submit? || a.Lookup? || a.Insert? || a.Refetch? || a.MarkQueued? || a.Pop? || a.Record? || a.Emit?
    ensures a.t in s.threads ==> Carried(a.t, s.threads[a.t]).None?
  {
    hide Store.KeyTaken, Store.HoldsKey;
  }

  lemma PopKeeps(s: State, t: Tid, o: OpId)
    requires Enabled(s, Pop(t)) && FreeFor(Apply(s, Pop(t)), None, o)
    ensures NotInMain(s.main, o)
  {
    var s' := Apply(s, Pop(t));
    assert Carried(t, s'.threads[t]) == Some(s.main[|s.main| - 1].op);
    forall i | 0 <= i < |s.main|
      ensures s.main[i].op != o
    {
      if i < |s.main| - 1 { assert s'.main[i] == s.main[i]; }
    }
  }

  lemma EnqueueMain(s: State, t: Tid, o: OpId)
    requires Enabled(s, Enqueue(t)) && NotInMain(ApplyEnqueue(s, t).main, o)
    ensures NotInMain(s.main, o)
  {
    forall i | 0 <= i < |s.main|
      ensures s.main[i].op != o
    {
      assert ApplyEnqueue(s, t).main[i + 1] == s.main[i];
    }
  }

  lemma PromoteKeeps(s: State, o: OpId)
    requires s.scanned != [] && FreeFor(Apply(s, Promote), None, o)
    ensures NotInMain(s.main, o) && NotInDelayed(s.delayed, o)
  {
    var s' := Apply(s, Promote);
    LPushAllReverses(s.main, s.scanned);
    forall i | 0 <= i < |s.main|
      ensures s.main[i].op != o
    {
      assert s'.main[|s.scanned| + i] == s.main[i];
    }
    forall j | j in s.delayed
      ensures j.op != o
    {
      if j in s.scanned {
        var i :| 0 <= i < |s.scanned| && s.scanned[i] == j;
        assert s'.main[|s.scanned| - 1 - i] == j;
      } else {
        assert j in s'.delayed;
      }
    }
  }

  lemma ScheduleKeepsOthers(s: State, t: Tid, jitter: nat, o: OpId)
    requires Enabled(s, Schedule(t, jitter)) && NotInDelayed(Apply(s, Schedule(t, jitter)).delayed, o)
    ensures NotInDelayed(s.delayed, o)
  {
    hide ReadyAt;
    forall j | j in s.delayed
      ensures j.op != o
    {
      assert j in Apply(s, Schedule(t, jitter)).delayed;
    }
  }

  lemma QueuesKeep(s: State, a: Action, o: OpId)
    requires Enabled(s, a) && FreeFor(Apply(s, a), None, o)
    ensures NotInMain(s.main, o) && NotInDelayed(s.delayed, o)
  {
    hide NotInMain, NotInDelayed, NotInThreads;
    Frame.TouchesTables(s, a);
    match a
    case Enqueue(t) => EnqueueMain(s, t, o);
    case Schedule(t, jitter) => hide Apply, Enabled; ScheduleKeepsOthers(s, t, jitter, o);
    case Pop(t) => hide Apply, Enabled; PopKeeps(s, t, o);
    case Promote => PromoteKeeps(s, o);
    case _ => hide Apply, Enabled;
  }

  lemma OthersKeep(s: State, a: Action, u: Tid)
    requires Enabled(s, a) && Allowed(F0, a) && u in s.threads && (!Frame.NoThread(a) ==> u != a.t)
    ensures u in Apply(s, a).threads && Apply(s, a).threads[u] == s.threads[u]
  {
    hide Apply, Enabled;
    Frame.TouchesThreads(s, a);
    if a.Commit? { Frame.CommitThreads(s, a.t, a.notifier); }
  }

  /** In a fault-free step a carrier only disappears when its operation is terminal. */
  lemma CarrierKept(s: State, a: Action, s': State, o: OpId)
    requires Inv(s) && Local(s) && Step(F0, s, a, s') && !FreeFor(s, None, o)
    ensures !FreeFor(s', None, o) || (o in s'.ops && IsTerminal(s'.ops[o].status))
  {
    hide Inv, Local, Enabled, Apply, NotInMain, NotInDelayed;
    if FreeFor(s', None, o) {
      QueuesKeep(s, a, o);
      var u :| u in s.threads && Carried(u, s.threads[u]) == Some(o);
      if !Frame.NoThread(a) && u == a.t {
        ActorKeeps(s, a, s', o);
      } else {
        OthersKeep(s, a, u);
      }
    }
  }

  lemma NewRowCarried(s: State, a: Action, s': State, o: OpId)
    requires Step(F0, s, a, s') && o in s'.ops && o !in s.ops
    ensures !FreeFor(s', None, o)
  {
    hide Apply, Enabled;
    Frame.TouchesTables(s, a);
    match a
    case Insert(t, id) => Frame.InsertRows(s, t, id); assert Carried(t, s'.threads[t]) == Some(o);
    case MarkQueued(t) => Frame.MarkRows(s, t);
    case Cancel(tenant, op) => Frame.CancelRows(s, tenant, op);
    case Start(t, attempt) => Frame.StartRows(s, t, attempt);
    case Commit(t, n) => Frame.CommitRows(s, t, n);
    case _ =>
  }

  lemma StepKeepsNoOrphan(s: State, a: Action, s': State)
    requires Inv(s) && Local(s) && NoOrphan(s) && Step(F0, s, a, s')
    ensures NoOrphan(s')
  {
    hide Inv, Local, Enabled, Apply, FreeFor;
    forall o | o in s'.ops && !IsTerminal(s'.ops[o].status)
      ensures !FreeFor(s', None, o)
    {
      if o !in s.ops {
        NewRowCarried(s, a, s', o);
      } else if FreeFor(s, None, o) {
        FaultFreeEnds.FreeRowFixed(F0, s, a, s', o);
      } else {
        CarrierKept(s, a, s', o);
      }
    }
  }

  lemma StepKeepsInv0(s: State, a: Action, s': State)
    requires Inv(s) && Inv0(s) && Step(F0, s, a, s')
    ensures Inv0(s')
  {
    hide Inv, Local, OverFree, Ends, NoOrphan, Enabled, Apply;
    StepKeepsLocal(s, a, s');
    FaultFreeEnds.StepKeepsOverFree(s, a, s');
    FaultFreeEnds.StepKeepsEnds(s, a, s');
    StepKeepsNoOrphan(s, a, s');
  }

  lemma InitInv0(s: State)
    requires Init(s)
    ensures Inv0(s)
  {
  }

  /** Both invariants hold in every state of a fault-free run. */
  lemma {:induction false} RunInv0(states: seq<State>, actions: seq<Action>, i: nat)
    requires IsRun(F0, states, actions) && i < |states|
    ensures Inv(states[i]) && Inv0(states[i])
  {
    hide Inv, Inv0, Enabled, Apply;
    Lifecycle.RunInv(F0, states, actions, i);
    if i == 0 {
      InitInv0(states[0]);
    } else {
      RunInv0(states, actions, i - 1);
      StepKeepsInv0(states[i - 1], actions[i - 1], states[i]);
    }
  }

  // ---- guarantees ----

  /** Every operation that is not terminal has exactly one carrier. */
  lemma NoOperationOrphaned(states: seq<State>, actions: seq<Action>, i: nat, o: OpId)
    requires IsRun(F0, states, actions) && i < |states| && o in states[i].ops
    requires !IsTerminal(states[i].ops[o].status)
    ensures |Lifecycle.CarrierPlaces(states[i], o)| == 1
  {
    RunInv0(states, actions, i);
    Lifecycle.SingleCarrier(F0, states, actions, i, o);
    hide Inv;
    var s := states[i];
    assert !FreeFor(s, None, o);
    if !NotInMain(s.main, o) {
      var k: nat :| k < |s.main| && s.main[k].op == o;
      assert Lifecycle.InMain(k) in Lifecycle.CarrierPlaces(s, o);
    } else if !NotInDelayed(s.delayed, o) {
      var j :| j in s.delayed && j.op == o;
      assert Lifecycle.InDelayed(j) in Lifecycle.CarrierPlaces(s, o);
    } else {
      var u :| u in s.threads && Carried(u, s.threads[u]) == Some(o);
      assert Lifecycle.AtThread(u) in Lifecycle.CarrierPlaces(s, o);
    }
  }

  /** Both queues empty, workers polling, handlers gone. */
  ghost predicate Quiescent(s: State) {
    s.main == [] && s.delayed == map[] && forall t :: t in s.threads ==> s.threads[t].Idle? || s.threads[t].Replied?
  }

  lemma QuiescentMeansTerminal(states: seq<State>, actions: seq<Action>, i: nat, o: OpId)
    requires IsRun(F0, states, actions) && i < |states| && Quiescent(states[i]) && o in states[i].ops
    ensures IsTerminal(states[i].ops[o].status)
    ensures states[i].ops[o].status == Succeeded ==> o in states[i].ledger
  {
    RunInv0(states, actions, i);
    hide Inv;
  }

  /** The attempt rows determine the outcome. */
  lemma HistoryDecidesOutcome(states: seq<State>, actions: seq<Action>, i: nat, o: OpId)
    requires IsRun(F0, states, actions) && i < |states| && o in states[i].ops
    ensures var s := states[i]; var row := s.ops[o];
            (forall a :: a in s.attempts && s.attempts[a].op == o && s.attempts[a].number < row.attemptCount ==>
               FailedAs(s.attempts[a], Transient)) &&
            (row.status in {Succeeded, Failed, DeadLettered} ==>
               exists a :: a in s.attempts && s.attempts[a].op == o && s.attempts[a].number == row.attemptCount &&
                 match row.status
                 case Succeeded => s.attempts[a].success == Some(true)
                 case Failed => FailedAs(s.attempts[a], Permanent)
                 case _ => FailedAs(s.attempts[a], Transient) && row.attemptCount >= row.maxRetries)
  {
    RunInv0(states, actions, i);
    Lifecycle.AttemptAccounting(F0, states, actions, i, o);
    hide Inv, ThreadsClean, JobsClean, OverFree, Ends, NoOrphan;
    var s := states[i];
    if Lifecycle.Settled(s.ops[o].status) {
      assert HasAttempt(s.attempts, o, s.ops[o].attemptCount);
      var a :| a in s.attempts && s.attempts[a].op == o && s.attempts[a].number == s.ops[o].attemptCount;
    }
  }

  /** The status an event announces. */
  function Outcome(kind: EventKind): Status {
    match kind
    case OperationSucceeded => Succeeded
    case OperationFailed => Failed
    case OperationDeadLettered => DeadLettered
  }

  /** At most one terminal event per operation, and events and ledger rows agree with the row
      (or the operation was cancelled while its last attempt ran). */
  lemma BillingAgrees(states: seq<State>, actions: seq<Action>, i: nat)
    requires IsRun(F0, states, actions) && i < |states|
    ensures var s := states[i];
            (forall k, l :: 0 <= k < l < |s.events| ==> s.events[k].op != s.events[l].op) &&
            (forall k :: 0 <= k < |s.events| ==>
               var e := s.events[k];
               e.op in s.ops && s.ops[e.op].tenant == e.tenant &&
               s.ops[e.op].status in {Cancelled, Outcome(e.kind)} &&
               (e.kind.OperationSucceeded? ==> e.op in s.ledger)) &&
            (forall o :: o in s.ledger ==>
               o in s.ops && s.ledger[o].tenant == s.ops[o].tenant && s.ledger[o].units == 1 &&
               s.ops[o].status in {Succeeded, Cancelled}) &&
            (forall o :: o in s.ops && s.ops[o].status == Succeeded ==> o in s.ledger || MeteringFor(s.threads, o))
  {
    RunInv0(states, actions, i);
    hide Inv, Local, OverFree, NoOrphan, MeteringFor;
    var s := states[i];
    forall k | 0 <= k < |s.events|
      ensures var e := s.events[k];
              KindOk(s.ops, s.ledger, e.op, e.kind) && TenantOk(s.ops, e.tenant, e.op)
    {
    }
  }
}
