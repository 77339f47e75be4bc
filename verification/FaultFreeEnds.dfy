/** Fault-free steps keep the side effects of terminal outcomes in step with the rows. */
module FaultFreeEnds {
  import opened Model
  import opened JobQueue
  import opened Protocol
  import opened Carrier
  import opened FaultFree
  import opened FaultFreeLocal
  import CarrierSteps
  import Release
  import Store
  import Frame

  // ---- goroutines ----

  /** Only a commit spawns a goroutine; an acting thread goes on ending only from Record. */
  ghost predicate EndsOn(s: State, a: Action, s': State)
    requires !Frame.NoThread(a)
  {
    a.t in s'.threads && Ending(s'.threads[a.t]).Some? ==>
      a.Record? && s'.threads[a.t].Announcing? &&
      a.t in s.threads && Ending(s'.threads[a.t]) == Ending(s.threads[a.t])
  }

  lemma ActorEndsOn(s: State, a: Action)
    requires Enabled(s, a) && Allowed(F0, a) && !Frame.NoThread(a) && !a.Commit?
    ensures EndsOn(s, a, Apply(s, a))
  {
    hide Store.KeyTaken, Store.HoldsKey, Store.Conflicts, Store.Started, Recorded, RetryJob, ReadyAt, Counter;
    match a
    case Submit(_, _) =>
    case Lookup(_, _) =>
    case Insert(_, _) =>
    case Refetch(_, _) =>
    case Enqueue(_) =>
    case MarkQueued(_) =>
    case Pop(_) =>
    case Fetch(_) =>
    case Start(_, _) =>
    case Resolve(_) =>
    case Incr(_, _) =>
    case _ => ReporterEndsOn(s, a);
  }

  lemma ReporterEndsOn(s: State, a: Action)
    requires Enabled(s, a) && ReportAction(a)
    ensures EndsOn(s, a, Apply(s, a))
  {
    hide Recorded, RetryJob, ReadyAt, Counter;
    match a
    case Finish(_, _) =>
    case Read(_) =>
    case Decr(_, _) =>
    case Clamp(_, _) =>
    case Schedule(_, _) =>
    case Record(_) =>
    case Emit(_) =>
  }

  /** Where the goroutines after a step come from. */
  lemma EndingFrom(s: State, a: Action, u: Tid)
    requires Enabled(s, a) && Allowed(F0, a) && !a.Commit?
    requires u in Apply(s, a).threads && Ending(Apply(s, a).threads[u]).Some?
    ensures u in s.threads && Ending(s.threads[u]) == Ending(Apply(s, a).threads[u])
    ensures Apply(s, a).threads[u].Metering? ==> s.threads[u].Metering?
    ensures a.Emit? ==> u != a.t
  {
    Frame.TouchesThreads(s, a);
    if !Frame.NoThread(a) { ActorEndsOn(s, a); }
    hide Apply, Enabled;
  }

  ghost predicate Over(s: State, o: OpId) {
    || (exists t :: t in s.threads && Ending(s.threads[t]) == Some(o))
    || (exists i :: 0 <= i < |s.events| && s.events[i].op == o)
    || o in s.ledger
  }

  lemma OverIsFree(s: State, o: OpId)
    requires OverFree(s) && Over(s, o)
    ensures FreeFor(s, None, o)
  {
  }

  lemma FreeIsOver(s: State)
    requires forall o :: Over(s, o) ==> FreeFor(s, None, o)
    ensures OverFree(s)
  {
    forall t | t in s.threads && Ending(s.threads[t]).Some?
      ensures FreeFor(s, None, Ending(s.threads[t]).value)
    {
      assert Over(s, Ending(s.threads[t]).value);
    }
    forall i | 0 <= i < |s.events|
      ensures FreeFor(s, None, s.events[i].op)
    {
      assert Over(s, s.events[i].op);
    }
    forall o | o in s.ledger
      ensures FreeFor(s, None, o)
    {
      assert Over(s, o);
    }
  }

  lemma RecordWrites(s: State, a: Action, o: OpId)
    requires Enabled(s, a) && o in Apply(s, a).ledger && o !in s.ledger
    ensures a.Record? && s.threads[a.t] == Metering(s.threads[a.t].tenant, o)
    ensures Apply(s, a).ledger[o] == UsageRow(s.threads[a.t].tenant, 1, s.now)
  {
    Frame.TouchesRest(s, a);
    hide Store.KeyTaken;
    if !a.Record? { hide Apply, Enabled; }
  }

  lemma EmitWrites(s: State, a: Action)
    requires Enabled(s, a)
    ensures if a.Emit? then
              s.threads[a.t].Announcing? &&
              Apply(s, a).events ==
                s.events + [Event(s.threads[a.t].tenant, s.threads[a.t].op, s.threads[a.t].kind)]
            else Apply(s, a).events == s.events
  {
    Frame.TouchesRest(s, a);
    if !a.Emit? { hide Apply, Enabled; }
  }

  lemma OverFrom(s: State, a: Action, o: OpId)
    requires Enabled(s, a) && Allowed(F0, a) && !a.Commit? && Over(Apply(s, a), o)
    ensures Over(s, o)
  {
    var s' := Apply(s, a);
    EmitWrites(s, a);
    if o in s'.ledger {
      if o !in s.ledger {
        RecordWrites(s, a, o);
        hide Apply, Enabled;
        assert Ending(s.threads[a.t]) == Some(o);
      }
    } else if i :| 0 <= i < |s'.events| && s'.events[i].op == o {
      hide Apply, Enabled;
      if i < |s.events| {
        assert s.events[i].op == o;
      } else {
        assert Ending(s.threads[a.t]) == Some(o);
      }
    } else {
      var u :| u in s'.threads && Ending(s'.threads[u]) == Some(o);
      EndingFrom(s, a, u);
      hide Apply, Enabled;
    }
  }

  /** What a final commit leaves behind: the actor has ended, its operation is free and a
      goroutine announces the outcome. */
  lemma CommitEffect(s: State, t: Tid, n: Tid)
    requires Inv(s) && Local(s) && Enabled(s, Commit(t, n))
    ensures var th, s' := s.threads[t], ApplyCommit(s, t, n);
            if WillRetry(th.report, th.stage.seen) then
              s'.threads == s.threads[t := th.(stage := Retry(th.stage.seen))]
            else
              s'.threads == Ended(s.threads, t)[n := s'.threads[n]] &&
              Ending(s'.threads[n]) == Some(th.op) && FreeFor(s', None, th.op)
    ensures Carried(t, s.threads[t]) == Some(s.threads[t].op)
  {
    hide Inv, Local;
    CommitFacts(s, t);
    EndThread(s, t);
    var th := s.threads[t];
    var s' := ApplyCommit(s, t, n);
    if !WillRetry(th.report, th.stage.seen) {
      Release.SetFree(Ended(s.threads, t), n, s'.threads[n], th.op);
    }
  }

  lemma CommitOver(s: State, t: Tid, n: Tid, o: OpId)
    requires Inv(s) && Local(s) && Enabled(s, Commit(t, n)) && Over(ApplyCommit(s, t, n), o)
    ensures Over(s, o) || (o == s.threads[t].op && FreeFor(ApplyCommit(s, t, n), None, o))
  {
    hide Inv, Local, FreeFor;
    CommitEffect(s, t, n);
    var s' := ApplyCommit(s, t, n);
    assert s'.events == s.events && s'.ledger == s.ledger;
    if o !in s.ledger && !exists i :: 0 <= i < |s.events| && s.events[i].op == o {
      var u :| u in s'.threads && Ending(s'.threads[u]) == Some(o);
      assert u != n && u != t ==> u in s.threads && s'.threads[u] == s.threads[u];
    }
  }

  lemma OverKnown(s: State, o: OpId)
    requires Inv(s) && Ends(s) && Over(s, o)
    ensures o in s.ops
  {
    if t :| t in s.threads && Ending(s.threads[t]) == Some(o) {
      CarrierSteps.ThreadFacts(s, t);
    }
    hide Inv;
  }

  lemma StepKeepsOverFree(s: State, a: Action, s': State)
    requires Inv(s) && Inv0(s) && Step(F0, s, a, s')
    ensures OverFree(s')
  {
    hide Inv, Local, Ends, NoOrphan, Enabled, Apply, FreeFor, OverFree, Over;
    forall o | Over(s', o)
      ensures FreeFor(s', None, o)
    {
      OverStep(s, a, s', o);
    }
    FreeIsOver(s');
  }

  lemma OverStep(s: State, a: Action, s': State, o: OpId)
    requires Inv(s) && Inv0(s) && Step(F0, s, a, s') && Over(s', o)
    ensures FreeFor(s', None, o)
  {
    hide Inv, Local, Ends, NoOrphan, Enabled, FreeFor, OverFree, Over;
    if a.Commit? {
      CommitOver(s, a.t, a.notifier, o);
    } else {
      hide Apply;
      OverFrom(s, a, o);
    }
    if Over(s, o) {
      OverIsFree(s, o);
      OverKnown(s, o);
      Release.FreeStays(F0, s, a, s', o);
    }
  }

  // ---- rows of finished operations ----

  /** A terminal row without a carrier is final, CANCELLED included. */
  lemma FreeRowFixed(level: Level, s: State, a: Action, s': State, o: OpId)
    requires Step(level, s, a, s') && o in s.ops && IsTerminal(s.ops[o].status) && FreeFor(s, None, o)
    ensures o in s'.ops && s'.ops[o] == s.ops[o]
  {
    hide Apply, Enabled, NotInMain, NotInDelayed;
    Frame.TouchesTables(s, a);
    match a
    case Start(t, attempt) => Frame.StartRows(s, t, attempt); assert Carried(t, s.threads[t]) != Some(o);
    case Commit(t, n) => Frame.CommitRows(s, t, n);
    case Insert(t, id) => Frame.InsertRows(s, t, id);
    case MarkQueued(t) => Frame.MarkRows(s, t);
    case Cancel(tenant, op) => Frame.CancelRows(s, tenant, op);
    case _ =>
  }

  /** The row of a ledger entry or an emitted event. */
  ghost predicate Announced(s: State, o: OpId) {
    o in s.ledger || exists i :: 0 <= i < |s.events| && s.events[i].op == o
  }

  lemma AnnouncedRow(s: State, o: OpId)
    requires Ends(s) && OverFree(s) && Announced(s, o)
    ensures o in s.ops && IsTerminal(s.ops[o].status) && FreeFor(s, None, o)
  {
    hide EndOnce, Billed, FreeFor;
    if o !in s.ledger {
      var i :| 0 <= i < |s.events| && s.events[i].op == o;
      assert KindOk(s.ops, s.ledger, o, s.events[i].kind);
    }
  }

  lemma EndRow(s: State, a: Action, s': State, o: OpId)
    requires OverFree(s) && Ends(s) && Step(F0, s, a, s') && Announced(s, o)
    ensures o in s.ops && o in s'.ops && s'.ops[o] == s.ops[o]
  {
    hide Apply, Enabled, FreeFor, OverFree, Ends, Announced;
    AnnouncedRow(s, o);
    FreeRowFixed(F0, s, a, s', o);
  }

  // ---- uniqueness of the side effects ----

  lemma QuietEndOnce(s: State, a: Action, s': State)
    requires Ends(s) && Step(F0, s, a, s') && !a.Commit? && !a.Emit?
    ensures EndOnce(s'.ledger, s'.threads, s'.events)
  {
    hide Enabled, Apply;
    EmitWrites(s, a);
    forall u | u in s'.threads && Ending(s'.threads[u]).Some?
      ensures u in s.threads && Ending(s.threads[u]) == Ending(s'.threads[u])
      ensures s'.threads[u].Metering? ==> s.threads[u].Metering? && s'.threads[u].op !in s'.ledger
    {
      EndingFrom(s, a, u);
      if s'.threads[u].Metering? && s'.threads[u].op in s'.ledger {
        RecordWrites(s, a, s'.threads[u].op);
        RecordedThread(s, a);
      }
    }
  }

  lemma RecordedThread(s: State, a: Action)
    requires Enabled(s, a) && a.Record?
    ensures a.t in Apply(s, a).threads && Apply(s, a).threads[a.t].Announcing?
    ensures a.t in s.threads && s.threads[a.t].Metering? && s.threads[a.t].op in Apply(s, a).ledger
  {
  }

  lemma EmitEndOnce(s: State, a: Action, s': State)
    requires Ends(s) && Step(F0, s, a, s') && a.Emit?
    ensures EndOnce(s'.ledger, s'.threads, s'.events)
  {
    hide Enabled, Apply;
    EmitWrites(s, a);
    Frame.TouchesRest(s, a);
    Acts(s, a);
    var o := s.threads[a.t].op;
    forall u | u in s'.threads && Ending(s'.threads[u]).Some?
      ensures u in s.threads && u != a.t && Ending(s.threads[u]) == Ending(s'.threads[u])
      ensures s'.threads[u].Metering? ==> s.threads[u].Metering?
    {
      EndingFrom(s, a, u);
    }
    assert Ending(s.threads[a.t]) == Some(o);
  }

  lemma CommitEndOnce(s: State, t: Tid, n: Tid)
    requires Inv(s) && Local(s) && OverFree(s) && Ends(s) && Enabled(s, Commit(t, n))
    ensures var s' := ApplyCommit(s, t, n); EndOnce(s'.ledger, s'.threads, s'.events)
  {
    hide Inv, Local, FreeFor, OverFree, EventsOk, LedgerOk, Billed;
    CommitEffect(s, t, n);
    CarriedNotOver(s, t, s.threads[t].op);
    assert Apply(s, Commit(t, n)) == ApplyCommit(s, t, n);
    Frame.CommitThreads(s, t, n);
    Frame.TouchesRest(s, Commit(t, n));
    hide Enabled, Apply, ApplyCommit;
    var th := s.threads[t];
    if WillRetry(th.report, th.stage.seen) {
      QuietSet(s.ledger, s.threads, s.events, t, th.(stage := Retry(th.stage.seen)));
    } else {
      QuietEnd(s.ledger, s.threads, s.events, t);
      EndingSet(s.ledger, Ended(s.threads, t), s.events, n, ApplyCommit(s, t, n).threads[n], th.op);
    }
  }

  lemma QuietSet(ledger: map<OpId, UsageRow>, threads: map<Tid, Thread>, events: seq<Event>, t: Tid, th: Thread)
    requires EndOnce(ledger, threads, events) && Ending(th).None?
    ensures EndOnce(ledger, threads[t := th], events)
  {
  }

  lemma QuietEnd(ledger: map<OpId, UsageRow>, threads: map<Tid, Thread>, events: seq<Event>, t: Tid)
    requires EndOnce(ledger, threads, events)
    ensures EndOnce(ledger, Ended(threads, t), events)
    ensures forall u :: u in Ended(threads, t) && Ending(Ended(threads, t)[u]).Some? ==>
              u in threads && Ended(threads, t)[u] == threads[u]
  {
  }

  lemma EndingSet(ledger: map<OpId, UsageRow>, threads: map<Tid, Thread>, events: seq<Event>, n: Tid, th: Thread,
      o: OpId)
    requires EndOnce(ledger, threads, events) && Ending(th) == Some(o) && o !in ledger
    requires forall u :: u in threads ==> Ending(threads[u]) != Some(o)
    requires forall i :: 0 <= i < |events| ==> events[i].op != o
    ensures EndOnce(ledger, threads[n := th], events)
  {
  }

  // ---- billing ----

  lemma KindStable(ops: Ops, ops': Ops, ledger: map<OpId, UsageRow>, ledger': map<OpId, UsageRow>, o: OpId,
      kind: EventKind)
    requires KindOk(ops, ledger, o, kind) && ledger.Keys <= ledger'.Keys && o in ops' && ops'[o] == ops[o]
    ensures KindOk(ops', ledger', o, kind)
  {
  }

  lemma EventOk(s: State, i: nat)
    requires Ends(s) && i < |s.events|
    ensures KindOk(s.ops, s.ledger, s.events[i].op, s.events[i].kind) &&
            TenantOk(s.ops, s.events[i].tenant, s.events[i].op)
    ensures Announced(s, s.events[i].op)
  {
    hide EndOnce, LedgerOk, Billed;
  }

  lemma OldEvent(s: State, a: Action, s': State, i: nat)
    requires OverFree(s) && Ends(s) && Step(F0, s, a, s') && i < |s.events|
    ensures KindOk(s'.ops, s'.ledger, s.events[i].op, s.events[i].kind) &&
            TenantOk(s'.ops, s.events[i].tenant, s.events[i].op)
  {
    hide Apply, Enabled, OverFree, Ends, Announced;
    EventOk(s, i);
    EndRow(s, a, s', s.events[i].op);
    LedgerStep(s, a);
    KindStable(s.ops, s'.ops, s.ledger, s'.ledger, s.events[i].op, s.events[i].kind);
  }

  lemma NewEvent(s: State, a: Action, s': State)
    requires Inv(s) && Local(s) && Step(F0, s, a, s') && a.Emit?
    ensures var th := s.threads[a.t];
            th.Announcing? && KindOk(s'.ops, s'.ledger, th.op, th.kind) && TenantOk(s'.ops, th.tenant, th.op)
  {
    hide Apply, Inv, JobsClean, History;
    Acts(s, a);
    CarrierSteps.ThreadFacts(s, a.t);
    EndClean(s.ops, s.attempts, s.ledger, s.threads, a.t);
    hide ThreadsClean;
    Frame.TouchesTables(s, a);
    LedgerStep(s, a);
    EmitWrites(s, a);
    hide Enabled;
    KindStable(s.ops, s'.ops, s.ledger, s'.ledger, s.threads[a.t].op, s.threads[a.t].kind);
  }

  lemma StepKeepsEvents(s: State, a: Action, s': State)
    requires Inv(s) && Local(s) && OverFree(s) && Ends(s) && Step(F0, s, a, s')
    ensures EventsOk(s'.ops, s'.ledger, s'.events)
  {
    hide Inv, Apply, Enabled, OverFree, Ends, Local, KindOk, TenantOk;
    EmitWrites(s, a);
    if a.Emit? { NewEvent(s, a, s'); }
    forall i: nat | i < |s'.events|
      ensures KindOk(s'.ops, s'.ledger, s'.events[i].op, s'.events[i].kind)
      ensures TenantOk(s'.ops, s'.events[i].tenant, s'.events[i].op)
    {
      if i < |s.events| { OldEvent(s, a, s', i); }
    }
  }

  lemma OldLedgerRow(s: State, a: Action, s': State, o: OpId)
    requires OverFree(s) && Ends(s) && Step(F0, s, a, s') && o in s.ledger
    ensures o in s'.ledger && TenantOk(s'.ops, s'.ledger[o].tenant, o)
    ensures s'.ledger[o].units == 1 && s'.ops[o].status in {Succeeded, Cancelled}
  {
    hide Apply, Enabled, OverFree, EndOnce, EventsOk, Billed;
    EndRow(s, a, s', o);
    LedgerKept(s, a, o);
  }

  lemma NewLedgerRow(s: State, a: Action, s': State, o: OpId)
    requires Inv(s) && Local(s) && Step(F0, s, a, s') && o in s'.ledger && o !in s.ledger
    ensures TenantOk(s'.ops, s'.ledger[o].tenant, o)
    ensures s'.ledger[o].units == 1 && s'.ops[o].status in {Succeeded, Cancelled}
  {
    hide Inv, Apply, Enabled, ThreadsClean, JobsClean, History;
    RecordWrites(s, a, o);
    RecordedThread(s, a);
    CarrierSteps.ThreadFacts(s, a.t);
    EndClean(s.ops, s.attempts, s.ledger, s.threads, a.t);
    Frame.TouchesTables(s, a);
  }

  lemma StepKeepsLedger(s: State, a: Action, s': State)
    requires Inv(s) && Local(s) && OverFree(s) && Ends(s) && Step(F0, s, a, s')
    ensures LedgerOk(s'.ops, s'.ledger)
  {
    hide Inv, Apply, Enabled, OverFree, Ends, Local;
    forall o | o in s'.ledger
      ensures TenantOk(s'.ops, s'.ledger[o].tenant, o)
      ensures s'.ledger[o].units == 1 && o in s'.ops && s'.ops[o].status in {Succeeded, Cancelled}
    {
      if o in s.ledger { OldLedgerRow(s, a, s', o); } else { NewLedgerRow(s, a, s', o); }
    }
  }

  lemma LedgerKept(s: State, a: Action, o: OpId)
    requires Enabled(s, a) && o in s.ledger
    ensures o in Apply(s, a).ledger && Apply(s, a).ledger[o] == s.ledger[o]
  {
    Frame.TouchesRest(s, a);
    if !a.Record? { hide Apply, Enabled; }
  }

  /** A new success comes with a goroutine that will meter it. */
  lemma NewSuccess(s: State, a: Action, s': State, o: OpId)
    requires Inv(s) && Local(s) && Step(F0, s, a, s')
    requires o in s'.ops && s'.ops[o].status == Succeeded && (o in s.ops ==> s.ops[o].status != Succeeded)
    ensures MeteringFor(s'.threads, o)
  {
    hide Inv, Local, MeteringFor, Apply, Enabled;
    Frame.TouchesTables(s, a);
    match a
    case Commit(t, n) => NewSuccessCommit(s, t, n, o);
    case Insert(t, id) => Frame.InsertRows(s, t, id);
    case MarkQueued(t) => Frame.MarkRows(s, t);
    case Cancel(tenant, op) => Frame.CancelRows(s, tenant, op);
    case Start(t, attempt) => Frame.StartRows(s, t, attempt);
    case _ =>
  }

  lemma NewSuccessCommit(s: State, t: Tid, n: Tid, o: OpId)
    requires Enabled(s, Commit(t, n))
    requires var s' := Apply(s, Commit(t, n));
             o in s'.ops && s'.ops[o].status == Succeeded && (o in s.ops ==> s.ops[o].status != Succeeded)
    ensures MeteringFor(Apply(s, Commit(t, n)).threads, o)
  {
    Frame.CommitRows(s, t, n);
    Frame.CommitThreads(s, t, n);
    var s' := Apply(s, Commit(t, n));
    hide Enabled, Apply;
    assert s.threads[t].report.Success? && s.threads[t].op == o;
    assert s'.threads[n] == Metering(s.threads[t].stage.seen.tenant, o);
  }

  lemma MeteringKept(s: State, a: Action, s': State, o: OpId)
    requires Local(s) && Step(F0, s, a, s') && MeteringFor(s.threads, o)
    ensures MeteringFor(s'.threads, o) || o in s'.ledger
  {
    hide Apply, Enabled, Local, MeteringFor;
    var t := Meter(s, o);
    if a.Record? && a.t == t {
      RecordedThread(s, a);
    } else {
      OtherThreadKept(s, a, t);
      MeterThere(s', t, o);
    }
  }

  lemma Meter(s: State, o: OpId) returns (t: Tid)
    requires MeteringFor(s.threads, o)
    ensures t in s.threads && s.threads[t].Metering? && s.threads[t].op == o
  {
    t :| t in s.threads && s.threads[t].Metering? && s.threads[t].op == o;
  }

  lemma MeterThere(s: State, t: Tid, o: OpId)
    requires t in s.threads && s.threads[t].Metering? && s.threads[t].op == o
    ensures MeteringFor(s.threads, o)
  {
  }

  /** A metering goroutine is only moved by its own Record. */
  lemma OtherThreadKept(s: State, a: Action, t: Tid)
    requires Enabled(s, a) && Allowed(F0, a) && t in s.threads && s.threads[t].Metering?
    requires !(a.Record? && a.t == t)
    ensures t in Apply(s, a).threads && Apply(s, a).threads[t] == s.threads[t]
  {
    Frame.TouchesThreads(s, a);
    if a.Commit? {
      Frame.CommitThreads(s, a.t, a.notifier);
      hide Apply, Enabled;
      assert a.t != t;
    } else if !Frame.NoThread(a) {
      hide Store.KeyTaken, Store.HoldsKey, Apply;
      assert a.t != t;
    }
  }

  lemma StepKeepsBilled(s: State, a: Action, s': State)
    requires Inv(s) && Local(s) && Ends(s) && Step(F0, s, a, s')
    ensures Billed(s'.ops, s'.ledger, s'.threads)
  {
    hide Inv, Local, Apply, Enabled, MeteringFor;
    forall o | o in s'.ops && s'.ops[o].status == Succeeded
      ensures o in s'.ledger || MeteringFor(s'.threads, o)
    {
      if o in s.ops && s.ops[o].status == Succeeded {
        if o in s.ledger { LedgerKept(s, a, o); } else { MeteringKept(s, a, s', o); }
      } else {
        NewSuccess(s, a, s', o);
      }
    }
  }

  lemma StepKeepsEndOnce(s: State, a: Action, s': State)
    requires Inv(s) && Local(s) && OverFree(s) && Ends(s) && Step(F0, s, a, s')
    ensures EndOnce(s'.ledger, s'.threads, s'.events)
  {
    hide Inv, Local, OverFree, Enabled, Ends, EndOnce;
    if a.Commit? {
      CommitEndOnce(s, a.t, a.notifier);
    } else if a.Emit? {
      hide Apply;
      EmitEndOnce(s, a, s');
    } else {
      hide Apply;
      QuietEndOnce(s, a, s');
    }
  }

  lemma StepKeepsEnds(s: State, a: Action, s': State)
    requires Inv(s) && Local(s) && OverFree(s) && Ends(s) && Step(F0, s, a, s')
    ensures Ends(s')
  {
    hide Inv, Local, OverFree, Enabled, Apply, EndOnce, EventsOk, LedgerOk, Billed;
    StepKeepsEvents(s, a, s');
    StepKeepsLedger(s, a, s');
    StepKeepsBilled(s, a, s');
    StepKeepsEndOnce(s, a, s');
  }
}
