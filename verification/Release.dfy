/** Carriers are moved, never made: an operation that has none can never be started again. */
module Release {
  import opened Model
  import opened JobQueue
  import opened Protocol
  import opened Carrier
  import CarrierSteps
  import Frame
  import Store

  lemma PromoteFree(s: State, o: OpId)
    requires s.scanned != [] && ScanOk(s.delayed, s.scanned) && FreeFor(s, None, o)
    ensures FreeFor(Apply(s, Promote), None, o)
  {
    LPushAllReverses(s.main, s.scanned);
    var main' := Reverse(s.scanned) + s.main;
    forall i | 0 <= i < |main'|
      ensures main'[i].op != o
    {
      if i < |s.scanned| {
        assert main'[i] == s.scanned[|s.scanned| - 1 - i];
        assert main'[i] in s.delayed;
      } else {
        assert main'[i] == s.main[i - |s.scanned|];
      }
    }
  }

  lemma EnqueueFree(s: State, t: Tid, o: OpId)
    requires Enabled(s, Enqueue(t)) && FreeFor(s, None, o)
    ensures NotInMain(ApplyEnqueue(s, t).main, o)
  {
    assert Carried(t, s.threads[t]) != Some(o);
  }

  lemma ScheduleFree(s: State, t: Tid, jitter: nat, o: OpId)
    requires Inv(s) && Enabled(s, Schedule(t, jitter)) && FreeFor(s, None, o)
    ensures NotInDelayed(ApplySchedule(s, t, jitter).delayed, o)
  {
    hide Inv, ReadyAt, NotInMain;
    CarrierSteps.ThreadFacts(s, t);
    assert s.threads[t].op != o;
  }

  lemma PopFree(s: State, t: Tid, o: OpId)
    requires Enabled(s, Pop(t)) && NotInMain(s.main, o)
    ensures NotInMain(Apply(s, Pop(t)).main, o)
  {
  }

  lemma QueuesFree(s: State, a: Action, o: OpId)
    requires Inv(s) && Enabled(s, a) && FreeFor(s, None, o) && !a.Promote?
    ensures NotInMain(Apply(s, a).main, o) && NotInDelayed(Apply(s, a).delayed, o)
  {
    hide Inv, NotInMain, NotInDelayed, NotInThreads;
    Frame.TouchesTables(s, a);
    match a
    case Enqueue(t) => EnqueueFree(s, t, o);
    case Schedule(t, jitter) => ScheduleFree(s, t, jitter, o);
    case Pop(t) => hide Apply, Enabled; PopFree(s, t, o);
    case _ => hide Apply, Enabled;
  }

  /** A thread that acts carries afterwards what it carried, or nothing; only Pop and Insert
      take something up. */
  ghost predicate CarriesOn(s: State, a: Action, s': State)
    requires !Frame.NoThread(a)
  {
    a.t in s.threads && a.t in s'.threads ==>
      Carried(a.t, s'.threads[a.t]).None? || Carried(a.t, s'.threads[a.t]) == Carried(a.t, s.threads[a.t])
  }

  lemma HandlersCarryOn(s: State, a: Action)
    requires Enabled(s, a) && !a.Pop? && !a.Insert?
    requires !Frame.NoThread(a) && !Frame.TwoThreads(a)
    ensures CarriesOn(s, a, Apply(s, a))
  {
    hide Store.KeyTaken, IsDueReply, Store.Conflicts, Store.HoldsKey, Store.Started, Recorded, Counter;
    hide RetryJob, ReadyAt;
    match a
    case Submit(_, _) =>
    case Lookup(_, _) =>
    case Refetch(_, _) =>
    case Enqueue(_) =>
    case MarkQueued(_) =>
    case Fetch(_) =>
    case Start(_, _) =>
    case Resolve(_) =>
    case Incr(_, _) =>
    case _ => ReportsCarryOn(s, a);
  }

  lemma ReportsCarryOn(s: State, a: Action)
    requires Enabled(s, a)
    requires a.Finish? || a.Read? || a.Decr? || a.Clamp? || a.Schedule? || a.Record? || a.Emit? || a.Drop?
    ensures CarriesOn(s, a, Apply(s, a))
  {
    hide Recorded, Counter, RetryJob, ReadyAt;
    match a
    case Finish(_, _) =>
    case Read(_) =>
    case Decr(_, _) =>
    case Clamp(_, _) =>
    case _ => EndsCarryOn(s, a);
  }

  lemma EndsCarryOn(s: State, a: Action)
    requires Enabled(s, a) && (a.Schedule? || a.Record? || a.Emit? || a.Drop?)
    ensures CarriesOn(s, a, Apply(s, a))
  {
    hide Recorded, RetryJob, ReadyAt;
    match a
    case Schedule(_, _) =>
    case Record(_) =>
    case Emit(_) =>
    case Drop(_) =>
  }

  lemma SetFree(threads: map<Tid, Thread>, t: Tid, th: Thread, o: OpId)
    requires NotInThreads(threads, None, o) && Carried(t, th) != Some(o)
    ensures NotInThreads(threads[t := th], None, o)
  {
  }

  lemma EndFree(threads: map<Tid, Thread>, t: Tid, o: OpId)
    requires NotInThreads(threads, None, o)
    ensures NotInThreads(Ended(threads, t), None, o) && NotInThreads(threads - {t}, None, o)
    ensures t in threads ==> Carried(t, threads[t]) != Some(o)
  {
  }

  /** The actor's side of FreeStays. */
  lemma ActorFree(s: State, a: Action, o: OpId)
    requires Enabled(s, a) && FreeFor(s, None, o) && o in s.ops
    requires !Frame.NoThread(a) && !Frame.TwoThreads(a)
    ensures a.t in Apply(s, a).threads ==> Carried(a.t, Apply(s, a).threads[a.t]) != Some(o)
  {
    hide Store.KeyTaken, IsDueReply;
    if a.t in Apply(s, a).threads {
      if !(a.Pop? || a.Insert?) {
        assert a.Submit? || a.t in s.threads;
        EndFree(s.threads, a.t, o);
        HandlersCarryOn(s, a);
        hide Apply;
      }
    }
  }

  lemma SecondFree(s: State, a: Action, o: OpId)
    requires Enabled(s, a) && FreeFor(s, None, o) && Frame.TwoThreads(a)
    ensures NotInThreads(Apply(s, a).threads, None, o)
  {
    EndFree(s.threads, a.t, o);
    match a
    case Commit(t, n) =>
      if n in Apply(s, a).threads {
        SetFree(Ended(s.threads, t), n, Apply(s, a).threads[n], o);
      }
      SetFree(s.threads, t, s.threads[t].(stage := Retry(s.threads[t].stage.seen)), o);
    case GiveUp(t, z) =>
      SetFree(s.threads, t, Idle, o);
      SetFree(s.threads[t := Idle], z, s.threads[t], o);
    case ReReport(t, z, _) =>
      var th' := Apply(s, a).threads[t];
      SetFree(s.threads, t, th', o);
      SetFree(s.threads[t := th'], z, s.threads[t], o);
  }

  lemma ThreadsFree(s: State, a: Action, o: OpId)
    requires Enabled(s, a) && FreeFor(s, None, o) && o in s.ops
    ensures NotInThreads(Apply(s, a).threads, None, o)
  {
    hide Apply, Enabled, NotInMain, NotInDelayed, NotInThreads;
    Frame.TouchesThreads(s, a);
    if Frame.TwoThreads(a) {
      SecondFree(s, a, o);
    } else if !Frame.NoThread(a) {
      ActorFree(s, a, o);
      EndFree(s.threads, a.t, o);
      if a.t in Apply(s, a).threads {
        SetFree(s.threads, a.t, Apply(s, a).threads[a.t], o);
      }
    }
  }

  /** No action of either level gives a carrier to an existing operation that has none. */
  lemma FreeStays(level: Level, s: State, a: Action, s': State, o: OpId)
    requires Inv(s) && Step(level, s, a, s') && o in s.ops && FreeFor(s, None, o)
    ensures FreeFor(s', None, o)
  {
    if a.Promote? {
      CarrierSteps.ScanFacts(s);
      PromoteFree(s, o);
      hide Inv;
    } else {
      hide Inv, Apply;
      QueuesFree(s, a, o);
      ThreadsFree(s, a, o);
    }
  }
}
