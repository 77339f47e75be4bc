/** Concurrent creates with one (tenant, key) behave like put-if-absent, although each is a
    lookup, an insert and possibly a conflict re-fetch with other handlers in between. */
module Idempotency {
  import opened Model
  import opened JobQueue
  import opened Protocol
  import opened Carrier
  import CarrierSteps
  import Lifecycle
  import FaultFreeLocal
  import Store
  import Frame

  /** A create handler for this tenant and key, finished or not. */
  predicate Asks(th: Thread, tenant: Tenant, key: string) {
    match th
    case Looking(req) => req.tenant == tenant && req.key == Some(key)
    case Inserting(req) => req.tenant == tenant && req.key == Some(key)
    case Refetching(req) => req.tenant == tenant && req.key == Some(key)
    case Submitting(req, _) => req.tenant == tenant && req.key == Some(key)
    case Marking(req, _) => req.tenant == tenant && req.key == Some(key)
    case Replied(req, _, _) => req.tenant == tenant && req.key == Some(key)
    case _ => false
  }

  // ---- every row keeps its creator (fault-free) ----

  ghost predicate HasCreator(threads: map<Tid, Thread>, o: OpId) {
    exists t :: t in threads && Created(threads[t]) == Some(o)
  }

  ghost predicate CreatorsExist(s: State) {
    forall o :: o in s.ops ==> HasCreator(s.threads, o)
  }

  /** The creator goes on as the creator of the same row, and stays once it has replied. */
  lemma CreatorKept(s: State, a: Action, t: Tid)
    requires Enabled(s, a) && Allowed(F0, a) && t in s.threads && Created(s.threads[t]).Some?
    ensures t in Apply(s, a).threads && Created(Apply(s, a).threads[t]) == Created(s.threads[t])
    ensures s.threads[t].Replied? ==> Apply(s, a).threads[t] == s.threads[t]
    ensures s.threads[t].Marking? ==> !Apply(s, a).threads[t].Submitting?
    ensures s.threads[t].Submitting? ==> Apply(s, a).threads[t] == s.threads[t] || (a == Enqueue(t))
  {
    hide Store.KeyTaken, Store.HoldsKey, Apply;
    Frame.TouchesThreads(s, a);
    if a == Enqueue(t) || a == MarkQueued(t) {
      hide Enabled;
      CreatorActs(s, a);
    } else if a.Commit? {
      hide Enabled;
      Frame.CommitThreads(s, a.t, a.notifier);
    } else if !Frame.NoThread(a) {
      assert a.t != t;
    }
  }

  lemma CreatorActs(s: State, a: Action)
    requires Enabled(s, a) && (a.Enqueue? || a.MarkQueued?)
    ensures var threads, threads' := s.threads, Apply(s, a).threads;
            a.t in threads && a.t in threads' && Created(threads'[a.t]) == Created(threads[a.t]) &&
            (if a.Enqueue? then threads[a.t].Submitting? && threads'[a.t].Marking?
             else threads[a.t].Marking? && threads'[a.t].Replied?)
  {
  }

  lemma InsertCreates(s: State, a: Action, o: OpId)
    requires Enabled(s, a) && o in Apply(s, a).ops && o !in s.ops
    ensures HasCreator(Apply(s, a).threads, o)
  {
    hide Apply, Enabled;
    Frame.TouchesTables(s, a);
    match a
    case Insert(t, id) => Frame.InsertRows(s, t, id); assert Created(Apply(s, a).threads[t]) == Some(o);
    case MarkQueued(t) => Frame.MarkRows(s, t);
    case Cancel(tenant, op) => Frame.CancelRows(s, tenant, op);
    case Start(t, attempt) => Frame.StartRows(s, t, attempt);
    case Commit(t, n) => Frame.CommitRows(s, t, n);
    case _ =>
  }

  lemma StepKeepsCreators(s: State, a: Action, s': State)
    requires CreatorsExist(s) && Step(F0, s, a, s')
    ensures CreatorsExist(s')
  {
    hide Apply, Enabled;
    forall o | o in s'.ops
      ensures HasCreator(s'.threads, o)
    {
      if o in s.ops {
        assert HasCreator(s.threads, o);
        var t :| t in s.threads && Created(s.threads[t]) == Some(o);
        CreatorKept(s, a, t);
      } else {
        InsertCreates(s, a, o);
      }
    }
  }

  lemma {:induction false} RunCreators(states: seq<State>, actions: seq<Action>, i: nat)
    requires IsRun(F0, states, actions) && i < |states|
    ensures CreatorsExist(states[i])
  {
    hide Apply, Enabled, CreatorsExist;
    if i == 0 {
      EmptyCreators(states[0]);
    } else {
      RunCreators(states, actions, i - 1);
      StepKeepsCreators(states[i - 1], actions[i - 1], states[i]);
    }
  }

  lemma EmptyCreators(s: State)
    requires Init(s)
    ensures CreatorsExist(s)
  {
  }

  // ---- one job per row ----

  /** Step k pushes the first job of operation o. */
  ghost predicate Pushes(states: seq<State>, actions: seq<Action>, k: nat, o: OpId) {
    k < |actions| && k < |states| && actions[k].Enqueue? && actions[k].t in states[k].threads &&
    states[k].threads[actions[k].t].Submitting? && states[k].threads[actions[k].t].op == o
  }

  ghost predicate NoneSubmitting(s: State, o: OpId) {
    o in s.ops && forall t :: t in s.threads && s.threads[t].Submitting? ==> s.threads[t].op != o
  }

  /** Only an insert makes a thread submit, and its identifier is new. */
  lemma SubmittingActor(s: State, a: Action)
    requires Enabled(s, a) && !Frame.NoThread(a) && !Frame.TwoThreads(a) && !a.Insert?
    ensures a.t in Apply(s, a).threads ==> !Apply(s, a).threads[a.t].Submitting?
  {
    hide Store.KeyTaken, Store.HoldsKey, Store.Started, Recorded, RetryJob, ReadyAt, Counter;
    match a
    case Submit(_, _) =>
    case Lookup(_, _) =>
    case Refetch(_, _) =>
    case Enqueue(_) =>
    case MarkQueued(_) =>
    case Pop(_) =>
    case Fetch(_) =>
    case Start(_, _) =>
    case Resolve(_) =>
    case Incr(_, _) =>
    case Drop(_) =>
    case _ => ReporterNotSubmitting(s, a);
  }

  lemma ReporterNotSubmitting(s: State, a: Action)
    requires Enabled(s, a) && FaultFreeLocal.ReportAction(a)
    ensures a.t in Apply(s, a).threads ==> !Apply(s, a).threads[a.t].Submitting?
  {
    hide Recorded, RetryJob, ReadyAt, Counter;
    match a
    case Finish(_, _) =>
    case Read(_) =>
    case Decr(_, _) =>
    case Clamp(_, _) =>
    case Schedule(_, _) =>
    case Record(_) =>
    case Emit(_) =>
  }

  lemma InsertSubmits(s: State, t: Tid, id: OpId)
    requires Enabled(s, Insert(t, id))
    ensures var th := Apply(s, Insert(t, id)).threads[t]; th.Submitting? ==> th.op == id && id !in s.ops
  {
  }

  lemma SubmittingFrom(s: State, a: Action, u: Tid)
    requires Enabled(s, a) && u in Apply(s, a).threads && Apply(s, a).threads[u].Submitting?
    ensures Apply(s, a).threads[u].op in s.ops ==> u in s.threads && s.threads[u] == Apply(s, a).threads[u]
  {
    hide Apply, Enabled;
    Frame.TouchesThreads(s, a);
    if a.Commit? {
      Frame.CommitThreads(s, a.t, a.notifier);
      assert u in s.threads && u != a.t;
    } else if Frame.TwoThreads(a) {
      Frame.DetachThreads(s, a);
    } else if !Frame.NoThread(a) && u == a.t {
      if a.Insert? { InsertSubmits(s, a.t, a.id); } else { SubmittingActor(s, a); }
    }
  }

  lemma NoneSubmittingStep(level: Level, s: State, a: Action, s': State, o: OpId)
    requires Inv(s) && Step(level, s, a, s') && NoneSubmitting(s, o)
    ensures NoneSubmitting(s', o)
  {
    hide Inv, Apply, Enabled;
    Lifecycle.ExactTransition(level, s, a, s', o);
    forall u | u in s'.threads && s'.threads[u].Submitting?
      ensures s'.threads[u].op != o
    {
      SubmittingFrom(s, a, u);
    }
  }

  lemma PushEndsSubmitting(states: seq<State>, actions: seq<Action>, level: Level, k: nat, o: OpId)
    requires IsRun(level, states, actions) && Pushes(states, actions, k, o)
    ensures NoneSubmitting(states[k + 1], o)
  {
    var s, s', t := states[k], states[k + 1], actions[k].t;
    Lifecycle.RunInv(level, states, actions, k);
    CarrierSteps.ThreadFacts(s, t);
    hide Inv;
    assert Step(level, s, actions[k], s');
    assert s'.ops == s.ops && s'.threads == s.threads[t := Marking(s.threads[t].req, o)];
  }

  lemma {:induction false} NoneSubmittingLater(states: seq<State>, actions: seq<Action>, level: Level, i: nat,
      j: nat, o: OpId)
    requires IsRun(level, states, actions) && i <= j < |states| && NoneSubmitting(states[i], o)
    ensures NoneSubmitting(states[j], o)
    decreases j
  {
    hide Inv, Apply, Enabled, NoneSubmitting;
    if i < j {
      NoneSubmittingLater(states, actions, level, i, j - 1, o);
      Lifecycle.RunInv(level, states, actions, j - 1);
      NoneSubmittingStep(level, states[j - 1], actions[j - 1], states[j], o);
    }
  }

  /** The first job of an operation is pushed at most once, at either level. */
  lemma PushedAtMostOnce(level: Level, states: seq<State>, actions: seq<Action>, k: nat, l: nat, o: OpId)
    requires IsRun(level, states, actions) && Pushes(states, actions, k, o) && Pushes(states, actions, l, o)
    ensures k == l
  {
    hide Inv, Apply, Enabled;
    if k < l {
      PushEndsSubmitting(states, actions, level, k, o);
      NoneSubmittingLater(states, actions, level, k + 1, l, o);
    } else if l < k {
      PushEndsSubmitting(states, actions, level, l, o);
      NoneSubmittingLater(states, actions, level, l + 1, k, o);
    }
  }

  predicate PastPush(th: Thread, o: OpId) {
    (th.Marking? && th.op == o) || (th.Replied? && th.op == o && !th.existed)
  }

  lemma PastPushCreator(s: State, a: Action, o: OpId)
    requires Enabled(s, a) && (FaultFreeLocal.CreateAction(a) || a.Insert? || a.MarkQueued?)
    requires a.t in Apply(s, a).threads && PastPush(Apply(s, a).threads[a.t], o)
    ensures a.t in s.threads &&
            (PastPush(s.threads[a.t], o) || (a.Enqueue? && s.threads[a.t].Submitting? && s.threads[a.t].op == o))
  {
    hide Store.KeyTaken, Store.HoldsKey, Store.Conflicts, Store.Enqueued;
    match a
    case Submit(_, _) =>
    case Lookup(_, _) =>
    case Insert(_, _) =>
    case Refetch(_, _) =>
    case Enqueue(_) =>
    case MarkQueued(_) =>
  }

  lemma WorkerNotPast(s: State, a: Action, o: OpId)
    requires Enabled(s, a)
    requires a.Pop? || a.Fetch? || a.Start? || a.Resolve? || a.Incr? || a.Drop?
    ensures a.t in Apply(s, a).threads ==> !PastPush(Apply(s, a).threads[a.t], o)
  {
    hide Store.Started, Counter;
    match a
    case Pop(_) =>
    case Fetch(_) =>
    case Start(_, _) =>
    case Resolve(_) =>
    case Incr(_, _) =>
    case Drop(_) =>
  }

  lemma PastPushActor(s: State, a: Action, o: OpId)
    requires Enabled(s, a) && !Frame.NoThread(a) && !Frame.TwoThreads(a)
    requires a.t in Apply(s, a).threads && PastPush(Apply(s, a).threads[a.t], o)
    ensures a.t in s.threads &&
            (PastPush(s.threads[a.t], o) || (a.Enqueue? && s.threads[a.t].Submitting? && s.threads[a.t].op == o))
  {
    hide Enabled, Apply, PastPush;
    if FaultFreeLocal.CreateAction(a) || a.Insert? || a.MarkQueued? {
      PastPushCreator(s, a, o);
    } else if FaultFreeLocal.ReportAction(a) {
      ReporterNotPast(s, a, o);
    } else {
      WorkerNotPast(s, a, o);
    }
  }

  lemma ReporterNotPast(s: State, a: Action, o: OpId)
    requires Enabled(s, a) && FaultFreeLocal.ReportAction(a)
    ensures a.t in Apply(s, a).threads ==> !PastPush(Apply(s, a).threads[a.t], o)
  {
    hide Recorded, RetryJob, ReadyAt, Counter;
    match a
    case Finish(_, _) =>
    case Read(_) =>
    case Decr(_, _) =>
    case Clamp(_, _) =>
    case Schedule(_, _) =>
    case Record(_) =>
    case Emit(_) =>
  }

  lemma PastPushFrom(s: State, a: Action, u: Tid, o: OpId)
    requires Enabled(s, a) && u in Apply(s, a).threads && PastPush(Apply(s, a).threads[u], o)
    ensures u in s.threads
    ensures PastPush(s.threads[u], o) || (a == Enqueue(u) && s.threads[u].Submitting? && s.threads[u].op == o)
  {
    hide Apply, Enabled;
    Frame.TouchesThreads(s, a);
    if a.Commit? {
      Frame.CommitThreads(s, a.t, a.notifier);
      assert u in s.threads && u != a.t;
    } else if Frame.TwoThreads(a) {
      Frame.DetachThreads(s, a);
    } else if !Frame.NoThread(a) && u == a.t {
      PastPushActor(s, a, o);
    }
  }

  /** A create that reports existed = false has pushed its job before. */
  lemma {:induction false} PushedBeforeReply(level: Level, states: seq<State>, actions: seq<Action>, i: nat,
      u: Tid, o: OpId)
    requires IsRun(level, states, actions) && i < |states| && u in states[i].threads &&
             PastPush(states[i].threads[u], o)
    ensures exists k :: 0 <= k < i && Pushes(states, actions, k, o)
  {
    hide Apply, Enabled;
    if i > 0 {
      assert Step(level, states[i - 1], actions[i - 1], states[i]);
      PastPushFrom(states[i - 1], actions[i - 1], u, o);
      if PastPush(states[i - 1].threads[u], o) {
        PushedBeforeReply(level, states, actions, i - 1, u, o);
      } else {
        assert Pushes(states, actions, i - 1, o);
      }
    }
  }

  // ---- put-if-absent ----

  predicate RepliedTo(s: State, t: Tid, tenant: Tenant, key: string) {
    t in s.threads && s.threads[t].Replied? && Asks(s.threads[t], tenant, key)
  }

  /** At either level: all replies for one (tenant, key) name the same row, which holds that key
      for that tenant, and at most one reply says it created it. */
  lemma RepliesAgree(level: Level, states: seq<State>, actions: seq<Action>, i: nat, t: Tid, u: Tid,
      tenant: Tenant, key: string)
    requires IsRun(level, states, actions) && i < |states|
    requires RepliedTo(states[i], t, tenant, key) && RepliedTo(states[i], u, tenant, key)
    ensures states[i].threads[t].op == states[i].threads[u].op
    ensures states[i].threads[t].op in states[i].ops
    ensures Store.HoldsKey(states[i].ops[states[i].threads[t].op], tenant, key)
    ensures !states[i].threads[t].existed && !states[i].threads[u].existed ==> t == u
  {
    Lifecycle.RunInv(level, states, actions, i);
    CarrierSteps.ThreadFacts(states[i], t);
    CarrierSteps.ThreadFacts(states[i], u);
  }

  /** Fault-free: when no handler for (tenant, key) is still running and one has replied, one
      row holds the key, exactly one reply says existed = false, and exactly one job was pushed
      for the row; every other reply says existed = true with the same identifier. */
  lemma PutIfAbsent(states: seq<State>, actions: seq<Action>, i: nat, tenant: Tenant, key: string, t: Tid)
    returns (creator: Tid, id: OpId, push: nat)
    requires IsRun(F0, states, actions) && i < |states| && RepliedTo(states[i], t, tenant, key)
    requires forall u :: u in states[i].threads && Asks(states[i].threads[u], tenant, key) ==>
             states[i].threads[u].Replied?
    ensures id in states[i].ops && Store.HoldsKey(states[i].ops[id], tenant, key)
    ensures forall o :: o in states[i].ops && Store.HoldsKey(states[i].ops[o], tenant, key) ==> o == id
    ensures RepliedTo(states[i], creator, tenant, key)
    ensures forall u :: RepliedTo(states[i], u, tenant, key) ==>
              states[i].threads[u].op == id && (states[i].threads[u].existed <==> u != creator)
    ensures push < i && Pushes(states, actions, push, id)
    ensures forall k: nat :: Pushes(states, actions, k, id) ==> k == push
  {
    var s := states[i];
    RepliesAgree(F0, states, actions, i, t, t, tenant, key);
    Lifecycle.RunInv(F0, states, actions, i);
    RunCreators(states, actions, i);
    id := s.threads[t].op;
    assert HasCreator(s.threads, id);
    creator :| creator in s.threads && Created(s.threads[creator]) == Some(id);
    CarrierSteps.ThreadFacts(s, creator);
    assert Asks(s.threads[creator], tenant, key);
    PushedBeforeReply(F0, states, actions, i, creator, id);
    push :| 0 <= push < i && Pushes(states, actions, push, id);
    forall k: nat | Pushes(states, actions, k, id)
      ensures k == push
    {
      PushedAtMostOnce(F0, states, actions, k, push, id);
    }
    OneRow(s, tenant, key, id);
    hide Inv, CreatorsExist, IsRun, IsPath;
    forall u | RepliedTo(s, u, tenant, key)
      ensures s.threads[u].op == id && (s.threads[u].existed <==> u != creator)
    {
      RepliesAgree(F0, states, actions, i, u, creator, tenant, key);
      OneCreator(s, u, creator);
    }
  }

  lemma OneRow(s: State, tenant: Tenant, key: string, id: OpId)
    requires Inv(s) && id in s.ops && Store.HoldsKey(s.ops[id], tenant, key)
    ensures forall o :: o in s.ops && Store.HoldsKey(s.ops[o], tenant, key) ==> o == id
  {
  }

  lemma OneCreator(s: State, u: Tid, creator: Tid)
    requires Inv(s) && u in s.threads && creator in s.threads
    requires s.threads[u].Replied? && Created(s.threads[creator]) == Some(s.threads[u].op)
    ensures !s.threads[u].existed ==> u == creator
  {
  }

  /** Equal keys of different tenants never meet. */
  lemma KeysPerTenant(level: Level, states: seq<State>, actions: seq<Action>, i: nat, t: Tid, u: Tid,
      tenant: Tenant, other: Tenant, key: string)
    requires IsRun(level, states, actions) && i < |states| && tenant != other
    requires RepliedTo(states[i], t, tenant, key) && RepliedTo(states[i], u, other, key)
    ensures states[i].threads[t].op != states[i].threads[u].op
  {
    RepliesAgree(level, states, actions, i, t, t, tenant, key);
    RepliesAgree(level, states, actions, i, u, u, other, key);
  }
}
