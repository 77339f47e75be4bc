/** No bill and no announcement without a report: what the ledger and the events tell of the run, at
    both fault levels. */
module Receipts {
  import opened Model
  import opened JobQueue
  import opened Protocol
  import opened Carrier
  import opened Provenance
  import CarrierSteps
  import FaultFreeEnds
  import Lifecycle
  import Store
  import Frame

  /** The report calls for this announcement. */
  predicate Warrants(report: Report, kind: EventKind) {
    match kind
    case OperationSucceeded => report.Success?
    case OperationFailed => report.Failure? && report.category == Permanent
    case OperationDeadLettered => report.Failure? && report.category != Permanent
  }

  /** Some earlier step committed a report on o that calls for this announcement. */
  ghost predicate Warranted(states: seq<State>, actions: seq<Action>, n: nat, o: OpId, kind: EventKind) {
    exists k :: 0 <= k < n && Reports(states, actions, k, o) && Warrants(ReportOf(states, actions, k, o), kind)
  }

  /** A usage row is one unit for the operation's tenant, dated by the record that wrote it. */
  ghost predicate RecordTold(states: seq<State>, actions: seq<Action>, n: nat, o: OpId, row: UsageRow) {
    row.units == 1 &&
    exists k :: 0 <= k < n && k < |actions| && k < |states| && actions[k].Record? &&
      actions[k].t in states[k].threads && states[k].threads[actions[k].t] == Metering(row.tenant, o) &&
      row.recordedAt == states[k].now
  }

  /** What a goroutine is about to announce; metering leads to the announcement of a success. */
  function Announcement(th: Thread): Option<(Tenant, OpId, EventKind)> {
    match th
    case Metering(tenant, o) => Some((tenant, o, OperationSucceeded))
    case Announcing(tenant, o, kind) => Some((tenant, o, kind))
    case _ => None
  }

  ghost predicate Backed(states: seq<State>, actions: seq<Action>, n: nat, ops: Ops, tenant: Tenant, o: OpId,
      kind: EventKind) {
    Warranted(states, actions, n, o, kind) && TenantOk(ops, tenant, o)
  }

  ghost predicate ThreadsBacked(states: seq<State>, actions: seq<Action>, n: nat, s: State) {
    forall t :: t in s.threads && Announcement(s.threads[t]).Some? ==>
      var (tenant, o, kind) := Announcement(s.threads[t]).value;
      Backed(states, actions, n, s.ops, tenant, o, kind)
  }

  ghost predicate EventsBacked(states: seq<State>, actions: seq<Action>, n: nat, s: State) {
    forall i :: 0 <= i < |s.events| ==>
      Backed(states, actions, n, s.ops, s.events[i].tenant, s.events[i].op, s.events[i].kind)
  }

  ghost predicate LedgerBacked(states: seq<State>, actions: seq<Action>, n: nat, s: State) {
    forall o :: o in s.ledger ==>
      Backed(states, actions, n, s.ops, s.ledger[o].tenant, o, OperationSucceeded) &&
      RecordTold(states, actions, n, o, s.ledger[o])
  }

  // ---- one step ----

  lemma WarrantedLater(states: seq<State>, actions: seq<Action>, n: nat, o: OpId, kind: EventKind)
    requires Warranted(states, actions, n, o, kind)
    ensures Warranted(states, actions, n + 1, o, kind)
  {
    var k :| 0 <= k < n && Reports(states, actions, k, o) && Warrants(ReportOf(states, actions, k, o), kind);
    assert k < n + 1;
  }

  lemma TenantKept(s: State, a: Action, tenant: Tenant, o: OpId)
    requires Enabled(s, a) && TenantOk(s.ops, tenant, o)
    ensures TenantOk(Apply(s, a).ops, tenant, o)
  {
    hide Enabled, Apply;
    RowEvolves(s, a, o);
  }

  lemma BackedLater(states: seq<State>, actions: seq<Action>, n: nat, s: State, a: Action, tenant: Tenant, o: OpId,
      kind: EventKind)
    requires Enabled(s, a) && Backed(states, actions, n, s.ops, tenant, o, kind)
    ensures Backed(states, actions, n + 1, Apply(s, a).ops, tenant, o, kind)
  {
    hide Enabled, Apply, Warranted;
    WarrantedLater(states, actions, n, o, kind);
    TenantKept(s, a, tenant, o);
  }

  lemma CreatorSilent(s: State, a: Action)
    requires Enabled(s, a) && (Creating(a) || a.Drop?)
    ensures a.t in Apply(s, a).threads ==> Announcement(Apply(s, a).threads[a.t]) == None
  {
    hide Store.KeyTaken, Store.HoldsKey, Store.Conflicts, Store.Enqueued, Store.NewRow;
    match a
    case Submit(_, _) =>
    case Lookup(_, _) =>
    case Insert(_, _) =>
    case Refetch(_, _) =>
    case Enqueue(_) =>
    case MarkQueued(_) =>
    case Drop(_) =>
  }

  lemma WorkerSilent(s: State, a: Action)
    requires Enabled(s, a) && (a.Pop? || a.Fetch? || a.Start? || a.Resolve? || a.Incr? || a.Finish?)
    ensures a.t in Apply(s, a).threads ==> Announcement(Apply(s, a).threads[a.t]) == None
  {
    hide Store.Started, Counter;
    match a
    case Pop(_) =>
    case Fetch(_) =>
    case Start(_, _) =>
    case Resolve(_) =>
    case Incr(_, _) =>
    case Finish(_, _) =>
  }

  /** Only Record goes on with an announcement: the one it was metering for. */
  lemma ReporterAnnounces(s: State, a: Action)
    requires Enabled(s, a) && (a.Read? || a.Decr? || a.Clamp? || a.Schedule? || a.Record? || a.Emit?)
    ensures a.t in Apply(s, a).threads && Announcement(Apply(s, a).threads[a.t]).Some? ==>
              a.t in s.threads && Announcement(s.threads[a.t]) == Announcement(Apply(s, a).threads[a.t])
  {
    hide Recorded, RetryJob, ReadyAt, Counter;
    match a
    case Read(_) =>
    case Decr(_, _) =>
    case Clamp(_, _) =>
    case Schedule(_, _) =>
    case Record(_) =>
    case Emit(_) =>
  }

  /** An announcement to come was to come before, or is what a commit's report calls for. */
  lemma AnnouncementFrom(s: State, a: Action, u: Tid)
    requires Enabled(s, a) && u in Apply(s, a).threads && Announcement(Apply(s, a).threads[u]).Some?
    ensures var next := Announcement(Apply(s, a).threads[u]);
            (u in s.threads && Announcement(s.threads[u]) == next) ||
            (a.Commit? && a.t in s.threads && s.threads[a.t].Reporting? && s.threads[a.t].op == next.value.1 &&
             s.threads[a.t].stage.Freed? && s.threads[a.t].stage.seen.tenant == next.value.0 &&
             Warrants(s.threads[a.t].report, next.value.2))
  {
    hide Apply, Enabled;
    Frame.TouchesThreads(s, a);
    if a.Commit? {
      Frame.CommitThreads(s, a.t, a.notifier);
    } else if Frame.TwoThreads(a) {
      Frame.DetachThreads(s, a);
    } else if !Frame.NoThread(a) && u == a.t {
      if Creating(a) || a.Drop? {
        CreatorSilent(s, a);
      } else if a.Pop? || a.Fetch? || a.Start? || a.Resolve? || a.Incr? || a.Finish? {
        WorkerSilent(s, a);
      } else {
        ReporterAnnounces(s, a);
      }
    }
  }

  lemma LedgerKept(s: State, a: Action, o: OpId)
    requires Enabled(s, a) && o in s.ledger
    ensures o in Apply(s, a).ledger && Apply(s, a).ledger[o] == s.ledger[o]
  {
    Frame.TouchesRest(s, a);
    if !a.Record? { hide Apply, Enabled; }
  }

  lemma ThreadsStep(level: Level, states: seq<State>, actions: seq<Action>, n: nat)
    requires IsRun(level, states, actions) && n < |actions| && ThreadsBacked(states, actions, n, states[n])
    ensures ThreadsBacked(states, actions, n + 1, states[n + 1])
  {
    hide Init, Inv, Enabled, Apply, Warranted;
    var s, a, s' := states[n], actions[n], states[n + 1];
    assert Step(level, s, a, s');
    Lifecycle.RunInv(level, states, actions, n);
    forall t | t in s'.threads && Announcement(s'.threads[t]).Some?
      ensures var (tenant, o, kind) := Announcement(s'.threads[t]).value;
              Backed(states, actions, n + 1, s'.ops, tenant, o, kind)
    {
      var (tenant, o, kind) := Announcement(s'.threads[t]).value;
      AnnouncementFrom(s, a, t);
      if t in s.threads && Announcement(s.threads[t]) == Announcement(s'.threads[t]) {
        BackedLater(states, actions, n, s, a, tenant, o, kind);
      } else {
        CarrierSteps.ThreadFacts(s, a.t);
        TenantKept(s, a, tenant, o);
        NowWarranted(states, actions, n, o, kind);
      }
    }
  }

  lemma NowWarranted(states: seq<State>, actions: seq<Action>, n: nat, o: OpId, kind: EventKind)
    requires Reports(states, actions, n, o) && Warrants(ReportOf(states, actions, n, o), kind)
    ensures Warranted(states, actions, n + 1, o, kind)
  {
  }

  lemma EventsStep(level: Level, states: seq<State>, actions: seq<Action>, n: nat)
    requires IsRun(level, states, actions) && n < |actions|
    requires ThreadsBacked(states, actions, n, states[n]) && EventsBacked(states, actions, n, states[n])
    ensures EventsBacked(states, actions, n + 1, states[n + 1])
  {
    hide Init, Enabled, Apply, Backed;
    var s, a := states[n], actions[n];
    assert Step(level, s, a, states[n + 1]);
    FaultFreeEnds.EmitWrites(s, a);
    if a.Emit? { EmitterThere(s, a.t); }
    var events := states[n + 1].events;
    forall i | 0 <= i < |events|
      ensures Backed(states, actions, n + 1, states[n + 1].ops, events[i].tenant, events[i].op, events[i].kind)
    {
      if i < |s.events| {
        assert events[i] == s.events[i];
      } else {
        assert Announcement(s.threads[a.t]) == Some((events[i].tenant, events[i].op, events[i].kind));
      }
      BackedLater(states, actions, n, s, a, events[i].tenant, events[i].op, events[i].kind);
    }
  }

  lemma EmitterThere(s: State, t: Tid)
    requires Enabled(s, Emit(t))
    ensures t in s.threads
  {
  }

  lemma RecorderThere(s: State, t: Tid)
    requires Enabled(s, Record(t))
    ensures t in s.threads
  {
  }

  lemma LedgerStep(level: Level, states: seq<State>, actions: seq<Action>, n: nat)
    requires IsRun(level, states, actions) && n < |actions|
    requires ThreadsBacked(states, actions, n, states[n]) && LedgerBacked(states, actions, n, states[n])
    ensures LedgerBacked(states, actions, n + 1, states[n + 1])
  {
    hide Init, Enabled, Apply, Backed, RecordTold;
    var s, a, s' := states[n], actions[n], states[n + 1];
    assert Step(level, s, a, s');
    forall o | o in s'.ledger
      ensures Backed(states, actions, n + 1, s'.ops, s'.ledger[o].tenant, o, OperationSucceeded)
      ensures RecordTold(states, actions, n + 1, o, s'.ledger[o])
    {
      var row := s'.ledger[o];
      if o in s.ledger {
        LedgerKept(s, a, o);
        RecordToldLater(states, actions, n, o, row);
      } else {
        FaultFreeEnds.RecordWrites(s, a, o);
        RecorderThere(s, a.t);
        assert Announcement(s.threads[a.t]) == Some((row.tenant, o, OperationSucceeded));
        NowRecorded(states, actions, n, o, row);
      }
      BackedLater(states, actions, n, s, a, row.tenant, o, OperationSucceeded);
    }
  }

  lemma RecordToldLater(states: seq<State>, actions: seq<Action>, n: nat, o: OpId, row: UsageRow)
    requires RecordTold(states, actions, n, o, row)
    ensures RecordTold(states, actions, n + 1, o, row)
  {
    var k :| 0 <= k < n && k < |actions| && k < |states| && actions[k].Record? &&
             actions[k].t in states[k].threads && states[k].threads[actions[k].t] == Metering(row.tenant, o) &&
             row.recordedAt == states[k].now;
    assert k < n + 1;
  }

  lemma NowRecorded(states: seq<State>, actions: seq<Action>, n: nat, o: OpId, row: UsageRow)
    requires n < |actions| && n < |states| && actions[n].Record? && actions[n].t in states[n].threads
    requires states[n].threads[actions[n].t] == Metering(row.tenant, o) && row == UsageRow(row.tenant, 1, states[n].now)
    ensures RecordTold(states, actions, n + 1, o, row)
  {
  }

  /** In every reachable state of both levels, whoever is billed or told, or about to be, is so for a
      report that the run has committed: a usage row and a succeeded event for a success, a failed
      event for a permanent failure, a dead-lettered event for another one, each under the operation's
      own tenant; and a usage row is one unit dated by the record that wrote it. */
  lemma {:induction false} NothingWithoutReport(level: Level, states: seq<State>, actions: seq<Action>, n: nat)
    requires IsRun(level, states, actions) && n < |states|
    ensures ThreadsBacked(states, actions, n, states[n])
    ensures EventsBacked(states, actions, n, states[n])
    ensures LedgerBacked(states, actions, n, states[n])
  {
    hide Enabled, Apply, ThreadsBacked, EventsBacked, LedgerBacked;
    if n == 0 {
      NothingYet(states, actions, states[0]);
    } else {
      NothingWithoutReport(level, states, actions, n - 1);
      ThreadsStep(level, states, actions, n - 1);
      EventsStep(level, states, actions, n - 1);
      LedgerStep(level, states, actions, n - 1);
    }
  }

  lemma NothingYet(states: seq<State>, actions: seq<Action>, s: State)
    requires Init(s)
    ensures ThreadsBacked(states, actions, 0, s) && EventsBacked(states, actions, 0, s) &&
            LedgerBacked(states, actions, 0, s)
  {
  }
}
