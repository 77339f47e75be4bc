/** Tenant isolation over whole runs: the projection of a fault-free run to one tenant is a run of
    the same system serving that tenant alone. */
module Isolation {
  import opened Model
  import opened JobQueue
  import opened Protocol
  import opened Carrier
  import opened FaultFree
  import opened Tenants
  import opened TenantSteps
  import FaultFreeRuns
  import Lifecycle
  import Listing
  import Store

  /** What a step of the whole is for one tenant: its own step, or nothing at all. */
  ghost predicate Projects(s: State, a: Action, s': State, tenant: Tenant) {
    && Enabled(s, a)
    && match Own(s, a, tenant)
       case Some(b) => Step(F0, Of(s, tenant), b, Of(s', tenant))
       case None => Of(s', tenant) == Of(s, tenant)
  }

  lemma FollowsProjects(s: State, a: Action, tenant: Tenant)
    requires Follows(s, a, tenant) && Allowed(F0, a) && Own(s, a, tenant) == Some(a)
    ensures Projects(s, a, Apply(s, a), tenant)
  {
    hide Enabled, Apply, Of, Own;
  }

  lemma InvisibleProjects(s: State, a: Action, tenant: Tenant)
    requires Invisible(s, a, tenant) && Own(s, a, tenant) == None
    ensures Projects(s, a, Apply(s, a), tenant)
  {
    hide Enabled, Apply, Of, Own;
  }

  predicate RequestAction(a: Action) {
    a.Submit? || a.Lookup? || a.Insert? || a.Refetch? || a.Enqueue? || a.MarkQueued?
  }

  predicate GlobalAction(a: Action) { a.Tick? || a.Cancel? || a.Pop? || a.Scan? || a.Promote? }

  lemma CreateOwn(s: State, a: Action, tenant: Tenant)
    requires Enabled(s, a) && RequestAction(a)
    ensures !a.Submit? ==> a.t in s.threads && Owner(s.ops, s.threads[a.t]) == Some(Requester(s, a))
    ensures Own(s, a, tenant) == if Requester(s, a) == tenant then Some(a) else None
  {
    hide Store.KeyTaken, Store.HoldsKey;
  }

  /** Whose create request an action serves. */
  function Requester(s: State, a: Action): Tenant
    requires RequestAction(a)
  {
    if a.Submit? then a.req.tenant
    else if a.t in s.threads && (s.threads[a.t].Looking? || s.threads[a.t].Inserting? || s.threads[a.t].Refetching? ||
                                 s.threads[a.t].Submitting? || s.threads[a.t].Marking?) then s.threads[a.t].req.tenant
    else 0
  }

  lemma CreateProjects(s: State, a: Action, tenant: Tenant)
    requires Inv(s) && Enabled(s, a) && RequestAction(a)
    ensures Projects(s, a, Apply(s, a), tenant)
  {
    hide Inv, Enabled, Apply, Follows, Invisible, Projects, Own, Of, Requester;
    CreateOwn(s, a, tenant);
    if Requester(s, a) == tenant {
      CreateFollows(s, a, tenant);
      FollowsProjects(s, a, tenant);
    } else {
      CreateInvisible(s, a, tenant);
      InvisibleProjects(s, a, tenant);
    }
  }

  lemma CreateFollows(s: State, a: Action, tenant: Tenant)
    requires Inv(s) && Enabled(s, a) && RequestAction(a)
    requires Requester(s, a) == tenant
    ensures Follows(s, a, tenant)
  {
    hide Inv, Follows, Apply, Store.KeyTaken, Store.HoldsKey;
    match a
    case Submit(t, req) => SubmitMine(s, t, req, tenant);
    case Lookup(t, found) => LookupMine(s, t, found, tenant);
    case Insert(t, id) => InsertMine(s, t, id, tenant);
    case Refetch(t, id) => RefetchMine(s, t, id, tenant);
    case Enqueue(t) => EnqueueMine(s, t, tenant);
    case MarkQueued(t) => MarkMine(s, t, tenant);
  }

  lemma CreateInvisible(s: State, a: Action, tenant: Tenant)
    requires Inv(s) && Enabled(s, a) && RequestAction(a)
    requires Requester(s, a) != tenant
    ensures Invisible(s, a, tenant)
  {
    hide Inv, Invisible, Apply, Store.KeyTaken, Store.HoldsKey;
    match a
    case Submit(t, req) => SubmitForeign(s, t, req, tenant);
    case Lookup(t, found) => LocalForeign(s, a, tenant);
    case Insert(t, id) => InsertForeign(s, t, id, tenant);
    case Refetch(t, id) => LocalForeign(s, a, tenant);
    case Enqueue(t) => EnqueueForeign(s, t, tenant);
    case MarkQueued(t) => MarkForeign(s, t, tenant);
  }

  lemma ScanProjects(s: State, members: seq<Job>, tenant: Tenant)
    requires Enabled(s, Scan(members))
    ensures Projects(s, Scan(members), Apply(s, Scan(members)), tenant)
  {
    ScanMine(s, members, tenant);
    hide Enabled, Apply, Of;
  }

  lemma TickProjects(s: State, to: nat, tenant: Tenant)
    requires Enabled(s, Tick(to))
    ensures Projects(s, Tick(to), Apply(s, Tick(to)), tenant)
  {
  }

  lemma GlobalProjects(s: State, a: Action, tenant: Tenant)
    requires Inv(s) && Enabled(s, a) && GlobalAction(a)
    ensures Projects(s, a, Apply(s, a), tenant)
  {
    hide Inv, Projects, Follows, Invisible, Apply, Of, IsDueReply;
    match a
    case Tick(to) => TickProjects(s, to, tenant);
    case Scan(members) => ScanProjects(s, members, tenant);
    case Cancel(u, o) =>
      if u == tenant {
        CancelMine(s, tenant, o);
        FollowsProjects(s, a, tenant);
      } else {
        CancelForeign(s, u, o, tenant);
        InvisibleProjects(s, a, tenant);
      }
    case Pop(t) =>
      if s.main[|s.main| - 1].tenant == tenant {
        PopMine(s, t, tenant);
        FollowsProjects(s, a, tenant);
      } else {
        PopForeign(s, t, tenant);
        InvisibleProjects(s, a, tenant);
      }
    case Promote =>
      PromoteMine(s, tenant);
      if JobsOf(s.scanned, tenant) == [] {
        InvisibleProjects(s, a, tenant);
      } else {
        FollowsProjects(s, a, tenant);
      }
  }

  lemma AttemptFollows(s: State, a: Action, tenant: Tenant)
    requires Inv(s) && Ends(s) && Enabled(s, a) && Allowed(F0, a) && !RequestAction(a) && !GlobalAction(a)
    requires Owner(s.ops, s.threads[a.t]) == Some(tenant)
    ensures Follows(s, a, tenant)
  {
    hide Inv, Ends, Follows;
    match a
    case Fetch(t) => FetchMine(s, t, tenant);
    case Start(t, attempt) => StartMine(s, t, attempt, tenant);
    case Resolve(_) => StepMine(s, a, tenant);
    case Finish(_, _) => StepMine(s, a, tenant);
    case Read(_) => StepMine(s, a, tenant);
    case Incr(t, _) => IncrMine(s, t, tenant);
    case Decr(t, _) => DecrMine(s, t, tenant);
    case Clamp(t, _) => ClampMine(s, t, tenant);
    case Commit(t, n) =>
      if s.threads[t].report.Success? {
        CommitSuccessMine(s, t, n, tenant);
      } else {
        CommitFailureMine(s, t, n, tenant);
      }
    case Schedule(t, jitter) => ScheduleMine(s, t, jitter, tenant);
    case Record(t) => RecordMine(s, t, tenant);
    case Emit(t) => EmitMine(s, t, tenant);
  }

  lemma AttemptInvisible(s: State, a: Action, tenant: Tenant)
    requires Inv(s) && Ends(s) && Enabled(s, a) && Allowed(F0, a) && !RequestAction(a) && !GlobalAction(a)
    requires Owner(s.ops, s.threads[a.t]) != Some(tenant)
    ensures Invisible(s, a, tenant)
  {
    hide Inv, Ends, Invisible;
    match a
    case Fetch(_) => LocalForeign(s, a, tenant);
    case Start(t, attempt) => StartForeign(s, t, attempt, tenant);
    case Resolve(_) => LocalForeign(s, a, tenant);
    case Finish(_, _) => LocalForeign(s, a, tenant);
    case Read(_) => LocalForeign(s, a, tenant);
    case Incr(t, _) => IncrForeign(s, t, tenant);
    case Decr(t, _) => DecrForeign(s, t, tenant);
    case Clamp(t, _) => ClampForeign(s, t, tenant);
    case Commit(t, n) => CommitForeign(s, t, n, tenant);
    case Schedule(t, jitter) => ScheduleForeign(s, t, jitter, tenant);
    case Record(t) => RecordForeign(s, t, tenant);
    case Emit(t) => EmitForeign(s, t, tenant);
  }

  lemma ActorKnown(s: State, a: Action)
    requires Enabled(s, a) && Allowed(F0, a) && !RequestAction(a) && !GlobalAction(a)
    ensures a.t in s.threads
  {
  }

  lemma AttemptProjects(s: State, a: Action, tenant: Tenant)
    requires Inv(s) && Ends(s) && Enabled(s, a) && Allowed(F0, a) && !RequestAction(a) && !GlobalAction(a)
    ensures Projects(s, a, Apply(s, a), tenant)
  {
    hide Inv, Ends, Enabled, Apply, Follows, Invisible, Projects, Owner, Of;
    ActorKnown(s, a);
    if Owner(s.ops, s.threads[a.t]) == Some(tenant) {
      AttemptFollows(s, a, tenant);
      FollowsProjects(s, a, tenant);
    } else {
      AttemptInvisible(s, a, tenant);
      InvisibleProjects(s, a, tenant);
    }
  }

  lemma StepProjects(s: State, a: Action, s': State, tenant: Tenant)
    requires Inv(s) && Ends(s) && Step(F0, s, a, s')
    ensures Projects(s, a, s', tenant)
  {
    hide Inv, Ends, Enabled, Apply, Projects;
    if RequestAction(a) {
      CreateProjects(s, a, tenant);
    } else if GlobalAction(a) {
      GlobalProjects(s, a, tenant);
    } else {
      AttemptProjects(s, a, tenant);
    }
  }

  // ---- runs ----

  ghost function Trace(a: Option<Action>): seq<Action> { if a.Some? then [a.value] else [] }

  ghost function OwnAt(states: seq<State>, actions: seq<Action>, i: nat, tenant: Tenant): Option<Action>
    requires IsPath(F0, states, actions) && i < |actions|
  {
    assert Step(F0, states[i], actions[i], states[i + 1]);
    Own(states[i], actions[i], tenant)
  }

  /** The tenant's own actions among the first n, in order. */
  ghost function OwnActions(states: seq<State>, actions: seq<Action>, n: nat, tenant: Tenant): seq<Action>
    requires IsPath(F0, states, actions) && n <= |actions|
  {
    if n == 0 then []
    else OwnActions(states, actions, n - 1, tenant) + Trace(OwnAt(states, actions, n - 1, tenant))
  }

  /** The tenant's part of the states its own actions lead to. */
  ghost function OwnStates(states: seq<State>, actions: seq<Action>, n: nat, tenant: Tenant): (own: seq<State>)
    requires IsPath(F0, states, actions) && n <= |actions|
    ensures |own| == |OwnActions(states, actions, n, tenant)| + 1
  {
    if n == 0 then [Of(states[0], tenant)]
    else OwnStates(states, actions, n - 1, tenant) +
         if OwnAt(states, actions, n - 1, tenant).Some? then [Of(states[n], tenant)] else []
  }

  lemma InitOf(s: State, tenant: Tenant)
    requires Init(s)
    ensures Init(Of(s, tenant))
  {
  }

  /** One tenant's projection of a run with any number of tenants is a run, and ends in the
      tenant's part of the final state. */
  lemma {:induction false} ProjectedRun(states: seq<State>, actions: seq<Action>, n: nat, tenant: Tenant)
    requires IsRun(F0, states, actions) && n <= |actions|
    ensures var own := OwnStates(states, actions, n, tenant);
            IsRun(F0, own, OwnActions(states, actions, n, tenant)) &&
            own[|own| - 1] == Of(states[n], tenant)
  {
    hide Inv, Inv0, Ends, Enabled, Apply, Of, Own, Init;
    if n == 0 {
      InitOf(states[0], tenant);
    } else {
      ProjectedRun(states, actions, n - 1, tenant);
      var own, acts := OwnStates(states, actions, n - 1, tenant), OwnActions(states, actions, n - 1, tenant);
      EndsOf(states, actions, n - 1);
      StepProjects(states[n - 1], actions[n - 1], states[n], tenant);
      var b := OwnAt(states, actions, n - 1, tenant);
      if b.Some? {
        Lifecycle.ExtendPath(F0, own, acts, b.value, Of(states[n], tenant));
      } else {
        assert own + [] == own && acts + [] == acts;
      }
    }
  }

  lemma EndsOf(states: seq<State>, actions: seq<Action>, i: nat)
    requires IsRun(F0, states, actions) && i < |states|
    ensures Inv(states[i]) && Ends(states[i])
  {
    hide Inv, IsRun, Local, Ends, OverFree, NoOrphan;
    FaultFreeRuns.RunInv0(states, actions, i);
  }

  /** Nothing in a projected state belongs to anyone else. */
  lemma OnlyMine(s: State, tenant: Tenant)
    ensures var own := Of(s, tenant);
            (forall o :: o in own.ops ==> own.ops[o].tenant == tenant) &&
            (forall j :: j in own.main || j in own.delayed ==> j.tenant == tenant) &&
            (forall t :: t in own.threads ==> own.threads[t].Idle? || Owner(s.ops, own.threads[t]) == Some(tenant)) &&
            (forall o :: o in own.ledger ==> own.ledger[o].tenant == tenant)
  {
    forall j | j in JobsOf(s.main, tenant)
      ensures j.tenant == tenant
    {
      JobsMember(s.main, tenant, j);
    }
  }

  // ---- observations ----

  /** What the tenant can see: get, any page of any listing, whether a cancel would succeed. */
  ghost predicate SeesSame(ops: Ops, ops': Ops, tenant: Tenant) {
    && (forall id :: Listing.Lookup(ops, tenant, id) == Listing.Lookup(ops', tenant, id))
    && (forall id :: Store.Cancellable(ops, tenant, id) <==> Store.Cancellable(ops', tenant, id))
    && (forall f: Listing.ListFilter, page | f.tenant == tenant ::
          Listing.IsPage(ops, f, page) <==> Listing.IsPage(ops', f, page))
  }

  lemma OrderingOf(ops: Ops, f: Listing.ListFilter, all: seq<OpId>)
    ensures Listing.IsOrdering(ops, f, all) <==> Listing.IsOrdering(OpsOf(ops, f.tenant), f, all)
  {
    var mine := OpsOf(ops, f.tenant);
    forall id ensures Listing.Selected(ops, f, id) <==> Listing.Selected(mine, f, id) {}
  }

  /** Everything a tenant sees is determined by its own rows. */
  lemma SeesOnlyOwn(ops: Ops, tenant: Tenant)
    ensures SeesSame(ops, OpsOf(ops, tenant), tenant)
  {
    var mine := OpsOf(ops, tenant);
    forall f: Listing.ListFilter, page: seq<OpId> | f.tenant == tenant
      ensures Listing.IsPage(ops, f, page) <==> Listing.IsPage(mine, f, page)
    {
      forall all: seq<OpId>
        ensures Listing.IsOrdering(ops, f, all) <==> Listing.IsOrdering(mine, f, all)
      {
        OrderingOf(ops, f, all);
      }
    }
  }

  /** A step in which the tenant has no part is invisible to its get, list and cancel. */
  lemma OthersUnseen(states: seq<State>, actions: seq<Action>, i: nat, tenant: Tenant)
    requires IsRun(F0, states, actions) && i < |actions|
    requires OwnAt(states, actions, i, tenant) == None
    ensures SeesSame(states[i].ops, states[i + 1].ops, tenant)
  {
    hide Inv, Ends, Enabled, Apply, OpsOf, SeesSame, Own;
    EndsOf(states, actions, i);
    StepProjects(states[i], actions[i], states[i + 1], tenant);
    assert OpsOf(states[i].ops, tenant) == OpsOf(states[i + 1].ops, tenant);
    SeesOnlyOwn(states[i].ops, tenant);
    SeesOnlyOwn(states[i + 1].ops, tenant);
    SeesTransitive(states[i].ops, OpsOf(states[i].ops, tenant), states[i + 1].ops, tenant);
  }

  lemma SeesTransitive(ops: Ops, mine: Ops, ops': Ops, tenant: Tenant)
    requires SeesSame(ops, mine, tenant) && SeesSame(ops', mine, tenant)
    ensures SeesSame(ops, ops', tenant)
  {
    hide Listing.IsPage;
  }

  /** At every point of a run the tenant sees exactly what it would see at the end of a run in
      which it is alone. */
  lemma SeesAsIfAlone(states: seq<State>, actions: seq<Action>, n: nat, tenant: Tenant)
    requires IsRun(F0, states, actions) && n <= |actions|
    ensures var alone := OwnStates(states, actions, n, tenant);
            IsRun(F0, alone, OwnActions(states, actions, n, tenant)) &&
            var last := alone[|alone| - 1];
            (forall o :: o in last.ops ==> last.ops[o].tenant == tenant) &&
            SeesSame(states[n].ops, last.ops, tenant)
  {
    hide SeesSame, OwnStates, OwnActions, Init, Step;
    ProjectedRun(states, actions, n, tenant);
    OnlyMine(states[n], tenant);
    SeesOnlyOwn(states[n].ops, tenant);
  }
}
