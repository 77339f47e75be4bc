/** The handler marks a row QUEUED after pushing its job, so a worker may start an operation that is
    still PENDING; here is exactly when that happens. */
module QueuedMark {
  import opened Model
  import opened Protocol
  import opened Carrier
  import CarrierSteps
  import Idempotency
  import Lifecycle
  import Rows
  import Store
  import Frame

  /** The handler that inserted o has executed its mark and answered. */
  ghost predicate Acknowledged(s: State, o: OpId) {
    exists t :: t in s.threads && s.threads[t].Replied? && s.threads[t].op == o && !s.threads[t].existed
  }

  /** The handler that inserted o has pushed the job, and its mark has not executed. */
  ghost predicate MarkInFlight(s: State, o: OpId) {
    exists t :: t in s.threads && s.threads[t].Marking? && s.threads[t].op == o
  }

  predicate Tells(status: Status, acknowledged: bool) {
    (status == Pending ==> !acknowledged) && (status == Queued ==> acknowledged)
  }

  ghost predicate MarksTell(s: State) {
    forall o :: o in s.ops ==> Tells(s.ops[o].status, Acknowledged(s, o))
  }

  // ---- one step ----

  lemma ReplyUntouched(s: State, a: Action, t: Tid)
    requires Enabled(s, a) && t in s.threads && s.threads[t].Replied? && !Frame.NoThread(a)
    ensures a.t != t
  {
    hide Store.KeyTaken, Store.HoldsKey;
  }

  lemma ReplyStays(s: State, a: Action, t: Tid)
    requires Enabled(s, a) && t in s.threads && s.threads[t].Replied?
    ensures t in Apply(s, a).threads && Apply(s, a).threads[t] == s.threads[t]
  {
    if !Frame.NoThread(a) { ReplyUntouched(s, a, t); }
    hide Enabled, Apply;
    Frame.TouchesThreads(s, a);
    if a.Commit? {
      Frame.CommitThreads(s, a.t, a.notifier);
    } else if Frame.TwoThreads(a) {
      Frame.DetachThreads(s, a);
    }
  }

  /** Only its mark ends the handler's wait. */
  lemma MarkingActs(s: State, a: Action)
    requires Enabled(s, a) && !Frame.NoThread(a) && a.t in s.threads && s.threads[a.t].Marking?
    ensures a == MarkQueued(a.t) || a.t !in Apply(s, a).threads || Apply(s, a).threads[a.t] == Idle
  {
    hide Store.KeyTaken, Store.HoldsKey;
  }

  lemma ReplyFrom(s: State, a: Action, u: Tid, o: OpId)
    requires Enabled(s, a) && u in Apply(s, a).threads
    requires var th := Apply(s, a).threads[u]; th.Replied? && th.op == o && !th.existed
    ensures Acknowledged(s, o) ||
            (a == MarkQueued(u) && u in s.threads && s.threads[u].Marking? && s.threads[u].op == o)
  {
    if a == Enqueue(u) { Idempotency.CreatorActs(s, a); }
    hide Enabled, Apply;
    Idempotency.PastPushFrom(s, a, u, o);
    Frame.TouchesThreads(s, a);
    if s.threads[u].Marking? {
      if a.Commit? {
        Frame.CommitThreads(s, a.t, a.notifier);
      } else if Frame.TwoThreads(a) {
        Frame.DetachThreads(s, a);
      } else {
        MarkingActs(s, a);
      }
    }
  }

  lemma MarkEffect(s: State, t: Tid)
    requires Enabled(s, MarkQueued(t))
    ensures var o, s' := s.threads[t].op, Apply(s, MarkQueued(t));
            Acknowledged(s', o) &&
            (forall p :: p in s.ops && p != o ==> p in s'.ops && s'.ops[p] == s.ops[p]) &&
            (o in s'.ops ==> s'.ops[o].status != Pending)
  {
    var s' := Apply(s, MarkQueued(t));
    assert s'.threads[t] == Replied(s.threads[t].req, s.threads[t].op, false);
  }

  lemma NewRowTells(s: State, a: Action, o: OpId)
    requires Inv(s) && Enabled(s, a) && o in Apply(s, a).ops && o !in s.ops
    ensures Tells(Apply(s, a).ops[o].status, Acknowledged(Apply(s, a), o))
  {
    hide Enabled, Apply, Inv;
    Frame.TouchesTables(s, a);
    match a
    case Insert(t, id) =>
      Frame.InsertRows(s, t, id);
      if u :| u in Apply(s, a).threads && Apply(s, a).threads[u].Replied? && Apply(s, a).threads[u].op == o &&
              !Apply(s, a).threads[u].existed
      {
        ReplyFrom(s, a, u, o);
        var v :| v in s.threads && s.threads[v].Replied? && s.threads[v].op == o;
        CarrierSteps.ThreadFacts(s, v);
      }
    case MarkQueued(t) => Frame.MarkRows(s, t);
    case Cancel(tenant, op) => Frame.CancelRows(s, tenant, op);
    case Start(t, attempt) => Frame.StartRows(s, t, attempt);
    case Commit(t, n) => Frame.CommitRows(s, t, n);
    case _ =>
  }

  lemma OldRowTells(level: Level, s: State, a: Action, s': State, o: OpId)
    requires Inv(s) && Step(level, s, a, s') && o in s.ops && Tells(s.ops[o].status, Acknowledged(s, o))
    ensures o in s'.ops && Tells(s'.ops[o].status, Acknowledged(s', o))
  {
    hide Enabled, Apply, Inv;
    Lifecycle.ExactTransition(level, s, a, s', o);
    if a.MarkQueued? { MarkEffect(s, a.t); }
    if Acknowledged(s, o) {
      var t :| t in s.threads && s.threads[t].Replied? && s.threads[t].op == o && !s.threads[t].existed;
      ReplyStays(s, a, t);
    } else if Acknowledged(s', o) {
      var u :| u in s'.threads && s'.threads[u].Replied? && s'.threads[u].op == o && !s'.threads[u].existed;
      ReplyFrom(s, a, u, o);
    }
  }

  lemma StepKeepsMarksTell(level: Level, s: State, a: Action, s': State)
    requires Inv(s) && MarksTell(s) && Step(level, s, a, s')
    ensures MarksTell(s')
  {
    hide Enabled, Apply, Inv, Tells, Acknowledged;
    forall o | o in s'.ops
      ensures Tells(s'.ops[o].status, Acknowledged(s', o))
    {
      if o in s.ops { OldRowTells(level, s, a, s', o); } else { NewRowTells(s, a, o); }
    }
  }

  lemma {:induction false} RunMarksTell(level: Level, states: seq<State>, actions: seq<Action>, i: nat)
    requires IsRun(level, states, actions) && i < |states|
    ensures MarksTell(states[i])
  {
    hide Enabled, Apply, Inv, Tells, Acknowledged;
    if i > 0 {
      RunMarksTell(level, states, actions, i - 1);
      Lifecycle.RunInv(level, states, actions, i - 1);
      StepKeepsMarksTell(level, states[i - 1], actions[i - 1], states[i]);
    }
  }

  // ---- when the first start skips QUEUED ----

  /** Not yet started and not cancelled. */
  predicate Unstarted(row: Operation) { row.attemptCount == 0 && row.status != Cancelled }

  lemma UnstartedStatus(row: Operation, now: nat)
    requires Rows.RowOk(row, now)
    ensures Unstarted(row) <==> row.status in {Pending, Queued}
  {
  }

  /** At either level an operation is PENDING exactly when it was neither started nor cancelled and
      its create has not answered; QUEUED, when it has. */
  lemma QueuedIffAcknowledged(level: Level, states: seq<State>, actions: seq<Action>, i: nat, o: OpId)
    requires IsRun(level, states, actions) && i < |states| && o in states[i].ops
    ensures var row := states[i].ops[o];
            (row.status == Pending <==> Unstarted(row) && !Acknowledged(states[i], o)) &&
            (row.status == Queued <==> Unstarted(row) && Acknowledged(states[i], o))
  {
    RunMarksTell(level, states, actions, i);
    Rows.RunRows(level, states, actions, i);
    hide IsRun, Rows.RowOk, Acknowledged;
    UnstartedStatus(states[i].ops[o], states[i].now);
  }

  /** A start in flight finds its row PENDING, and will skip QUEUED, exactly when it is the first,
      nobody cancelled, and the create has pushed the job but not executed its mark: at F0 the mark
      is still in flight, at F1 it may also have been lost. */
  lemma StartSkipsQueuedIff(level: Level, states: seq<State>, actions: seq<Action>, i: nat, t: Tid)
    requires IsRun(level, states, actions) && i < |states|
    requires t in states[i].threads && states[i].threads[t].Starting?
    ensures var s, o := states[i], states[i].threads[t].op;
            o in s.ops &&
            (s.ops[o].status == Pending <==> Unstarted(s.ops[o]) && !Acknowledged(s, o)) &&
            (MarkInFlight(s, o) ==> !Acknowledged(s, o)) &&
            (level == F0 ==> (s.ops[o].status == Pending <==> Unstarted(s.ops[o]) && MarkInFlight(s, o)))
  {
    var s, o := states[i], states[i].threads[t].op;
    Lifecycle.RunInv(level, states, actions, i);
    CarrierSteps.ThreadFacts(s, t);
    QueuedIffAcknowledged(level, states, actions, i, o);
    if MarkInFlight(s, o) { OneCreator(s, o); }
    if level == F0 {
      Idempotency.RunCreators(states, actions, i);
      hide IsRun, Inv, Acknowledged, MarkInFlight;
      assert Idempotency.HasCreator(s.threads, o);
      CreatorMarks(s, t, o);
    }
  }

  lemma OneCreator(s: State, o: OpId)
    requires Inv(s) && MarkInFlight(s, o)
    ensures !Acknowledged(s, o)
  {
  }

  /** A start in flight means that the creator has pushed. */
  lemma CreatorMarks(s: State, t: Tid, o: OpId)
    requires Inv(s) && Idempotency.HasCreator(s.threads, o)
    requires t in s.threads && s.threads[t].Starting? && s.threads[t].op == o
    ensures MarkInFlight(s, o) || Acknowledged(s, o)
  {
    var u :| u in s.threads && Created(s.threads[u]) == Some(o);
    assert u != t && Carried(t, s.threads[t]) == Some(o);
    assert !s.threads[u].Submitting?;
  }
}
