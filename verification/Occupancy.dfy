/** The per-tenant concurrency counter of fault-free runs counts exactly the attempts that
    have been incremented and not yet decremented. */
module Occupancy {
  import opened Model
  import opened JobQueue
  import opened Protocol
  import opened Carrier
  import opened FaultFree
  import opened FaultFreeLocal
  import CarrierSteps
  import FaultFreeRuns
  import Lifecycle
  import Store
  import Frame
  import Sums

  /** The operation whose slot a thread occupies: from INCR to DECR. */
  function Holds(th: Thread): Option<OpId> {
    match th
    case Working(o, _) => Some(o)
    case Reporting(o, _, _, stage) => if stage.Sent? || stage.Got? then Some(o) else None
    case _ => None
  }

  ghost function Holders(threads: map<Tid, Thread>): set<Tid> {
    set t | t in threads && Holds(threads[t]).Some?
  }

  ghost function HoldersOf(ops: Ops, threads: map<Tid, Thread>, tenant: Tenant): set<Tid> {
    set t | t in threads && Holds(threads[t]).Some? && TenantOk(ops, tenant, Holds(threads[t]).value)
  }

  ghost predicate Counts(ops: Ops, threads: map<Tid, Thread>, counters: map<Tenant, int>) {
    && (forall tenant :: Counter(counters, tenant) == |HoldersOf(ops, threads, tenant)|)
    && Sums.Sum(counters) == |Holders(threads)|
  }

  ghost predicate CounterExact(s: State) { Counts(s.ops, s.threads, s.counters) }

  lemma Gain(ops: Ops, threads: map<Tid, Thread>, counters: map<Tenant, int>, t: Tid, th: Thread, mine: Tenant)
    requires Counts(ops, threads, counters) && (t in threads ==> Holds(threads[t]).None?)
    requires Holds(th).Some? && TenantOk(ops, mine, Holds(th).value)
    ensures Counts(ops, threads[t := th], counters[mine := Counter(counters, mine) + 1])
  {
    Sums.SumUpdate(counters, mine, Counter(counters, mine) + 1);
    var threads' := threads[t := th];
    hide Sums.Sum, HoldersOf, TenantOk;
    assert Holders(threads') == Holders(threads) + {t} && t !in Holders(threads);
    forall tenant
      ensures Counter(counters[mine := Counter(counters, mine) + 1], tenant) == |HoldersOf(ops, threads', tenant)|
    {
      GainOne(ops, threads, t, th, mine, tenant);
    }
  }

  lemma GainOne(ops: Ops, threads: map<Tid, Thread>, t: Tid, th: Thread, mine: Tenant, tenant: Tenant)
    requires t in threads ==> Holds(threads[t]).None?
    requires Holds(th).Some? && TenantOk(ops, mine, Holds(th).value)
    ensures |HoldersOf(ops, threads[t := th], tenant)| == |HoldersOf(ops, threads, tenant)| +
            if tenant == mine then 1 else 0
  {
    var before, after := HoldersOf(ops, threads, tenant), HoldersOf(ops, threads[t := th], tenant);
    assert t !in before;
    if tenant == mine {
      assert after == before + {t};
    } else {
      assert after == before;
    }
  }

  lemma Lose(ops: Ops, threads: map<Tid, Thread>, counters: map<Tenant, int>, t: Tid, th: Thread, mine: Tenant)
    requires Counts(ops, threads, counters) && t in threads
    requires Holds(threads[t]).Some? && TenantOk(ops, mine, Holds(threads[t]).value) && Holds(th).None?
    ensures Counts(ops, threads[t := th], counters[mine := Counter(counters, mine) - 1])
    ensures Counter(counters, mine) >= 1
  {
    Sums.SumUpdate(counters, mine, Counter(counters, mine) - 1);
    assert t in HoldersOf(ops, threads, mine);
    var threads', counters' := threads[t := th], counters[mine := Counter(counters, mine) - 1];
    assert Holders(threads') == Holders(threads) - {t};
    forall tenant
      ensures Counter(counters', tenant) == |HoldersOf(ops, threads', tenant)|
    {
      var before := HoldersOf(ops, threads, tenant);
      assert HoldersOf(ops, threads', tenant) == if tenant == mine then before - {t} else before;
    }
  }

  /** The negative clamp is never due. */
  ghost predicate NoClamp(threads: map<Tid, Thread>) {
    forall t :: t in threads && threads[t].Reporting? && threads[t].stage.Freed? ==> !threads[t].stage.negative
  }

  /** Every action but INCR and DECR leaves the holders as they are. */
  ghost predicate HoldsOn(s: State, a: Action, s': State)
    requires !Frame.NoThread(a)
  {
    && (a.t in s'.threads ==>
          Holds(s'.threads[a.t]) == if a.t in s.threads then Holds(s.threads[a.t]) else None)
    && (a.t !in s'.threads && a.t in s.threads ==> Holds(s.threads[a.t]).None?)
    && (a.t in s'.threads && s'.threads[a.t].Reporting? && s'.threads[a.t].stage.Freed? ==>
          !s'.threads[a.t].stage.negative)
  }

  lemma CreatorHoldsOn(s: State, a: Action)
    requires Enabled(s, a) && (CreateAction(a) || a.Insert? || a.MarkQueued?)
    ensures HoldsOn(s, a, Apply(s, a))
  {
    hide Store.KeyTaken, Store.HoldsKey, Store.Conflicts, Store.Enqueued;
    match a
    case Submit(_, _) =>
    case Lookup(_, _) =>
    case Insert(_, _) =>
    case Refetch(_, _) =>
    case Enqueue(_) =>
    case MarkQueued(_) =>
  }

  lemma WorkerHoldsOn(s: State, a: Action)
    requires Enabled(s, a) && (a.Pop? || a.Fetch? || a.Start? || a.Resolve?)
    ensures HoldsOn(s, a, Apply(s, a))
  {
    hide Store.Started;
    match a
    case Pop(_) =>
    case Fetch(_) =>
    case Start(_, _) =>
    case Resolve(_) =>
  }

  lemma ReporterHoldsOn(s: State, a: Action)
    requires Enabled(s, a) && (a.Finish? || a.Read? || a.Schedule? || a.Record? || a.Emit?)
    ensures HoldsOn(s, a, Apply(s, a))
  {
    hide Recorded, RetryJob, ReadyAt;
    match a
    case Finish(_, _) =>
    case Read(_) =>
    case Schedule(_, _) =>
    case Record(_) =>
    case Emit(_) =>
  }

  lemma QuietHolders(s: State, a: Action, s': State)
    requires Step(F0, s, a, s') && NoClamp(s.threads) && !a.Incr? && !a.Decr?
    ensures forall t :: (t in s.threads && Holds(s.threads[t]).Some?) <==>
                        (t in s'.threads && Holds(s'.threads[t]).Some?)
    ensures forall t :: t in s.threads && Holds(s.threads[t]).Some? ==> Holds(s'.threads[t]) == Holds(s.threads[t])
    ensures NoClamp(s'.threads)
  {
    hide Apply;
    if a.Commit? {
      CommitHolders(s, a.t, a.notifier);
    } else {
      Frame.TouchesThreads(s, a);
      if !Frame.NoThread(a) {
        ActorHoldsOn(s, a);
      }
      hide Enabled;
    }
  }

  lemma ActorHoldsOn(s: State, a: Action)
    requires Enabled(s, a) && Allowed(F0, a) && NoClamp(s.threads)
    requires !Frame.NoThread(a) && !Frame.TwoThreads(a) && !a.Incr? && !a.Decr?
    ensures HoldsOn(s, a, Apply(s, a))
  {
    hide Apply, HoldsOn;
    if CreateAction(a) || a.Insert? || a.MarkQueued? {
      CreatorHoldsOn(s, a);
    } else if a.Pop? || a.Fetch? || a.Start? || a.Resolve? {
      WorkerHoldsOn(s, a);
    } else if !a.Clamp? {
      ReporterHoldsOn(s, a);
    }
  }

  lemma CommitHolders(s: State, t: Tid, n: Tid)
    requires Enabled(s, Commit(t, n)) && NoClamp(s.threads)
    ensures var threads, threads' := s.threads, Apply(s, Commit(t, n)).threads;
            (forall u :: (u in threads && Holds(threads[u]).Some?) <==> (u in threads' && Holds(threads'[u]).Some?)) &&
            (forall u :: u in threads && Holds(threads[u]).Some? ==> Holds(threads'[u]) == Holds(threads[u])) &&
            NoClamp(threads')
  {
    hide Apply, Enabled;
    Frame.CommitThreads(s, t, n);
    assert Holds(s.threads[t]).None?;
  }

  lemma TenantsKept(s: State, a: Action, s': State)
    requires Inv(s) && Step(F0, s, a, s')
    ensures forall o, tenant :: o in s.ops ==> (TenantOk(s'.ops, tenant, o) <==> TenantOk(s.ops, tenant, o))
  {
    hide Inv, Enabled, Apply;
    forall o, tenant | o in s.ops
      ensures TenantOk(s'.ops, tenant, o) <==> TenantOk(s.ops, tenant, o)
    {
      Lifecycle.ExactTransition(F0, s, a, s', o);
    }
  }

  lemma HeldKnown(s: State)
    requires Inv(s)
    ensures forall t :: t in s.threads && Holds(s.threads[t]).Some? ==> Holds(s.threads[t]).value in s.ops
  {
    forall t | t in s.threads && Holds(s.threads[t]).Some?
      ensures Holds(s.threads[t]).value in s.ops
    {
      CarrierSteps.ThreadFacts(s, t);
    }
  }

  lemma SameHolders(ops: Ops, ops': Ops, threads: map<Tid, Thread>, threads': map<Tid, Thread>, tenant: Tenant)
    requires forall t :: (t in threads && Holds(threads[t]).Some?) <==> (t in threads' && Holds(threads'[t]).Some?)
    requires forall t :: t in threads && Holds(threads[t]).Some? ==>
               Holds(threads'[t]) == Holds(threads[t]) &&
               (TenantOk(ops', tenant, Holds(threads[t]).value) <==> TenantOk(ops, tenant, Holds(threads[t]).value))
    ensures Holders(threads') == Holders(threads)
    ensures HoldersOf(ops', threads', tenant) == HoldersOf(ops, threads, tenant)
  {
  }

  lemma QuietStep(s: State, a: Action, s': State)
    requires Inv(s) && Step(F0, s, a, s') && NoClamp(s.threads) && CounterExact(s) && !a.Incr? && !a.Decr?
    ensures CounterExact(s') && NoClamp(s'.threads)
  {
    hide Inv, Enabled, Apply, NoClamp, HoldersOf, TenantOk;
    QuietHolders(s, a, s');
    TenantsKept(s, a, s');
    HeldKnown(s);
    QuietCounters(s, a);
    forall tenant
      ensures Holders(s'.threads) == Holders(s.threads)
      ensures HoldersOf(s'.ops, s'.threads, tenant) == HoldersOf(s.ops, s.threads, tenant)
    {
      SameHolders(s.ops, s'.ops, s.threads, s'.threads, tenant);
    }
    SameHolders(s.ops, s'.ops, s.threads, s'.threads, 0);
  }

  lemma QuietCounters(s: State, a: Action)
    requires Enabled(s, a) && !a.Incr? && !a.Decr? && NoClamp(s.threads)
    ensures Apply(s, a).counters == s.counters
  {
    Frame.TouchesTables(s, a);
    Frame.TouchesRest(s, a);
    if !a.Clamp? { hide Apply, Enabled; }
  }

  lemma IncrStep(s: State, t: Tid)
    requires Inv(s) && Local(s) && NoClamp(s.threads) && CounterExact(s) && Enabled(s, Incr(t, true))
    ensures CounterExact(ApplyIncr(s, t, true)) && NoClamp(ApplyIncr(s, t, true).threads)
  {
    hide Inv, Local, Counts;
    CarrierSteps.ThreadFacts(s, t);
    FaultFreeRuns.LocalFacts(s, t);
    var th := s.threads[t];
    Gain(s.ops, s.threads, s.counters, t, Working(th.op, th.attempt), th.tenant);
  }

  lemma DecrStep(s: State, t: Tid)
    requires Inv(s) && NoClamp(s.threads) && CounterExact(s) && Enabled(s, Decr(t, true))
    ensures CounterExact(ApplyDecr(s, t, true)) && NoClamp(ApplyDecr(s, t, true).threads)
    ensures Counter(s.counters, s.threads[t].stage.seen.tenant) >= 1
  {
    hide Inv, Counts;
    CarrierSteps.ThreadFacts(s, t);
    Lose(s.ops, s.threads, s.counters, t, ApplyDecr(s, t, true).threads[t], s.threads[t].stage.seen.tenant);
  }

  lemma StepKeepsCounter(s: State, a: Action, s': State)
    requires Inv(s) && Local(s) && NoClamp(s.threads) && CounterExact(s) && Step(F0, s, a, s')
    ensures CounterExact(s') && NoClamp(s'.threads)
  {
    hide Inv, Local, CounterExact, NoClamp, Enabled;
    match a
    case Incr(t, _) => IncrStep(s, t);
    case Decr(t, _) => DecrStep(s, t);
    case _ => QuietStep(s, a, s'); hide Apply;
  }

  lemma {:induction false} RunCounter(states: seq<State>, actions: seq<Action>, i: nat)
    requires IsRun(F0, states, actions) && i < |states|
    ensures CounterExact(states[i]) && NoClamp(states[i].threads)
  {
    hide Inv, Inv0, Enabled, Apply, CounterExact, NoClamp;
    if i == 0 {
      InitCounter(states[0]);
    } else {
      RunCounter(states, actions, i - 1);
      FaultFreeRuns.RunInv0(states, actions, i - 1);
      LocalOf(states[i - 1]);
      StepKeepsCounter(states[i - 1], actions[i - 1], states[i]);
    }
  }

  lemma LocalOf(s: State)
    requires Inv0(s)
    ensures Local(s)
  {
  }

  lemma InitCounter(s: State)
    requires Init(s)
    ensures CounterExact(s) && NoClamp(s.threads)
  {
    assert Holders(s.threads) == {};
    forall tenant
      ensures HoldersOf(s.ops, s.threads, tenant) == {}
    {
    }
  }

  ghost function WorkersOf(s: State): set<Tid> { set t | t in s.threads && t.Worker? }

  /** In fault-free runs: each tenant's counter is the number of its attempts between INCR and
      DECR, no clamp is ever due, all counters together never exceed the number of workers,
      and all are zero once nothing is active. */
  lemma CounterGuarantees(states: seq<State>, actions: seq<Action>, i: nat)
    requires IsRun(F0, states, actions) && i < |states|
    ensures var s := states[i];
            (forall tenant :: Counter(s.counters, tenant) == |HoldersOf(s.ops, s.threads, tenant)|) &&
            NoClamp(s.threads) &&
            0 <= Sums.Sum(s.counters) <= |WorkersOf(s)| &&
            (FaultFreeRuns.Quiescent(s) ==> forall tenant :: Counter(s.counters, tenant) == 0)
  {
    RunCounter(states, actions, i);
    FaultFreeRuns.RunInv0(states, actions, i);
    LocalOf(states[i]);
    var s := states[i];
    HoldersAreWorkers(s);
    Sums.SubsetCard(Holders(s.threads), WorkersOf(s));
    hide Inv, Inv0;
    if FaultFreeRuns.Quiescent(s) {
      forall tenant
        ensures Counter(s.counters, tenant) == 0
      {
        assert HoldersOf(s.ops, s.threads, tenant) == {};
      }
    }
  }

  lemma HoldersAreWorkers(s: State)
    requires Inv(s) && Local(s)
    ensures Holders(s.threads) <= WorkersOf(s)
  {
    hide Inv, Local;
    forall t | t in Holders(s.threads)
      ensures t in WorkersOf(s)
    {
      CarrierSteps.ThreadFacts(s, t);
      FaultFreeRuns.LocalFacts(s, t);
    }
  }

  /** The counter changes by exactly one at INCR and DECR and never otherwise, whatever is
      cancelled meanwhile: DECR always finds at least 1. */
  lemma DecrFindsPositive(states: seq<State>, actions: seq<Action>, i: nat)
    requires IsRun(F0, states, actions) && i < |actions| && actions[i].Decr?
    ensures actions[i].t in states[i].threads && states[i].threads[actions[i].t].Reporting?
    ensures states[i].threads[actions[i].t].stage.Got?
    ensures Counter(states[i].counters, states[i].threads[actions[i].t].stage.seen.tenant) >= 1
  {
    hide Inv, Inv0, CounterExact, NoClamp, Apply;
    assert Step(F0, states[i], actions[i], states[i + 1]);
    RunCounter(states, actions, i);
    FaultFreeRuns.RunInv0(states, actions, i);
    DecrStep(states[i], actions[i].t);
  }
}
