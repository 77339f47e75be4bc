/** Without new creates a fault-free system runs down: every action that changes anything but
    the clock lowers one number, and while an operation is open some such action is there. */
module Termination {
  import opened Model
  import opened JobQueue
  import opened Protocol
  import opened Carrier
  import opened FaultFree
  import opened FaultFreeLocal
  import opened Sums
  import CarrierSteps
  import Lifecycle
  import Store
  import Frame

  /** More than one whole trip from start to restart. */
  const TRIP: int := 20

  /** Attempts left, then whether a cancel can still change the row. */
  function RowWeight(row: Operation): nat {
    (if row.attemptCount < AttemptCap(row) then TRIP * (AttemptCap(row) - row.attemptCount) else 0) +
    (if IsTerminal(row.status) then 0 else 1)
  }

  const JOB_WEIGHT: int := 5
  const DELAYED_WEIGHT: int := 7

  function InsertWeight(req: CreateRequest): nat {
    var cap := if req.maxRetries < 1 then 1 else req.maxRetries;
    TRIP * cap + 14
  }

  function ThreadWeight(th: Thread): nat {
    match th
    case Idle => 0
    case Popped(_) => 4
    case Starting(_, _, _) => 3
    case Opened(_, _) => 17
    case Resolved(_, _, _) => 16
    case Working(_, _) => 15
    case Reporting(_, _, _, stage) =>
      (match stage
       case Sent => 14
       case Got(_) => 13
       case Freed(_, negative) => if negative then 12 else 11
       case Retry(_) => 9)
    case Looking(req) => InsertWeight(req) + 1
    case Inserting(req) => InsertWeight(req)
    case Refetching(_) => 1
    case Submitting(_, _) => 12
    case Marking(_, _) => 2
    case Replied(_, _, _) => 0
    case Metering(_, _) => 2
    case Announcing(_, _, _) => 1
  }

  ghost function RowWeights(ops: Ops): map<OpId, int> { map o | o in ops :: RowWeight(ops[o]) }

  ghost function ThreadWeights(threads: map<Tid, Thread>): map<Tid, int> {
    map t | t in threads :: ThreadWeight(threads[t])
  }

  ghost function Measure(s: State): int {
    Sum(RowWeights(s.ops)) + Sum(ThreadWeights(s.threads)) +
    JOB_WEIGHT * |s.main| + DELAYED_WEIGHT * |s.delayed| - |s.scanned|
  }

  function RowAt(ops: Ops, o: OpId): int { if o in ops then RowWeight(ops[o]) else 0 }

  function ThreadAt(threads: map<Tid, Thread>, t: Tid): int {
    if t in threads then ThreadWeight(threads[t]) else 0
  }

  lemma RowUpdate(ops: Ops, o: OpId, row: Operation)
    ensures Sum(RowWeights(ops[o := row])) == Sum(RowWeights(ops)) + RowWeight(row) - RowAt(ops, o)
  {
    assert RowWeights(ops[o := row]) == RowWeights(ops)[o := RowWeight(row)];
    SumUpdate(RowWeights(ops), o, RowWeight(row));
  }

  lemma ThreadUpdate(threads: map<Tid, Thread>, t: Tid, th: Thread)
    ensures Sum(ThreadWeights(threads[t := th])) == Sum(ThreadWeights(threads)) +
            ThreadWeight(th) - ThreadAt(threads, t)
  {
    assert ThreadWeights(threads[t := th]) == ThreadWeights(threads)[t := ThreadWeight(th)];
    SumUpdate(ThreadWeights(threads), t, ThreadWeight(th));
  }

  lemma ThreadRemove(threads: map<Tid, Thread>, t: Tid)
    ensures Sum(ThreadWeights(threads - {t})) == Sum(ThreadWeights(threads)) - ThreadAt(threads, t)
  {
    if t in threads {
      SumRemove(ThreadWeights(threads), t);
      assert ThreadWeights(threads) - {t} == ThreadWeights(threads - {t});
    } else {
      assert threads - {t} == threads;
    }
  }

  lemma EndedWeight(threads: map<Tid, Thread>, t: Tid)
    ensures Sum(ThreadWeights(Ended(threads, t))) == Sum(ThreadWeights(threads)) - ThreadAt(threads, t)
  {
    if t.Worker? { ThreadUpdate(threads, t, Idle); } else { ThreadRemove(threads, t); }
  }

  // ---- the measure is a natural number ----

  lemma {:induction false} DistinctFits(jobs: seq<Job>, keys: set<Job>)
    requires Distinct(jobs) && forall j :: j in jobs ==> j in keys
    ensures |jobs| <= |keys|
    decreases |jobs|
  {
    if jobs != [] {
      var rest := jobs[1..];
      forall j | j in rest
        ensures j in keys - {jobs[0]}
      {
        var i :| 0 <= i < |rest| && rest[i] == j;
        assert jobs[i + 1] == j;
      }
      DistinctFits(rest, keys - {jobs[0]});
    }
  }

  lemma MeasureNonNegative(s: State)
    requires ScanOk(s.delayed, s.scanned)
    ensures Measure(s) >= 0
  {
    SumNonNegative(RowWeights(s.ops));
    SumNonNegative(ThreadWeights(s.threads));
    DistinctFits(s.scanned, s.delayed.Keys);
    assert |s.delayed| == |s.delayed.Keys|;
  }

  // ---- decreases ----

  /** One thread changes phase, nothing else that is weighed changes. */
  lemma PhaseDown(s: State, s': State, t: Tid)
    requires s'.ops == s.ops && s'.main == s.main && s'.delayed == s.delayed && s'.scanned == s.scanned
    requires t in s.threads
    requires s'.threads == if t in s'.threads then s.threads[t := s'.threads[t]] else s.threads - {t}
    requires ThreadAt(s'.threads, t) < ThreadAt(s.threads, t)
    ensures Measure(s') < Measure(s)
  {
    if t in s'.threads { ThreadUpdate(s.threads, t, s'.threads[t]); } else { ThreadRemove(s.threads, t); }
  }

  predicate Phase(a: Action) {
    a.Lookup? || a.Refetch? || a.Fetch? || a.Resolve? || a.Incr? || a.Finish? || a.Read? || a.Decr? ||
    a.Clamp? || a.Record? || a.Emit?
  }

  lemma EarlyPhaseWeight(s: State, a: Action)
    requires Enabled(s, a) && (a.Lookup? || a.Refetch? || a.Fetch? || a.Resolve? || a.Incr?)
    ensures a.t in s.threads && ThreadAt(Apply(s, a).threads, a.t) < ThreadAt(s.threads, a.t)
  {
    hide Store.KeyTaken, Store.HoldsKey, Counter;
    match a
    case Lookup(_, _) =>
    case Refetch(_, _) =>
    case Fetch(_) =>
    case Resolve(_) =>
    case Incr(_, _) =>
  }

  lemma LatePhaseWeight(s: State, a: Action)
    requires Enabled(s, a) && (a.Finish? || a.Read? || a.Decr? || a.Clamp? || a.Record? || a.Emit?)
    ensures a.t in s.threads && ThreadAt(Apply(s, a).threads, a.t) < ThreadAt(s.threads, a.t)
  {
    hide Recorded, Counter;
    match a
    case Finish(_, _) =>
    case Read(_) =>
    case Decr(_, _) =>
    case Clamp(_, _) =>
    case Record(_) =>
    case Emit(_) =>
  }

  lemma PhaseStep(s: State, a: Action)
    requires Enabled(s, a) && Phase(a)
    ensures Measure(Apply(s, a)) < Measure(s)
  {
    hide Enabled, Apply, Measure;
    Frame.TouchesTables(s, a);
    Frame.TouchesRest(s, a);
    Frame.TouchesThreads(s, a);
    if a.Lookup? || a.Refetch? || a.Fetch? || a.Resolve? || a.Incr? {
      EarlyPhaseWeight(s, a);
    } else {
      LatePhaseWeight(s, a);
    }
    PhaseDown(s, Apply(s, a), a.t);
  }

  lemma InsertDown(s: State, t: Tid, id: OpId)
    requires Enabled(s, Insert(t, id))
    ensures Measure(ApplyInsert(s, t, id)) < Measure(s)
  {
    hide Sum, RowWeights, ThreadWeights, Store.Conflicts;
    var req := s.threads[t].req;
    var s' := ApplyInsert(s, t, id);
    ThreadUpdate(s.threads, t, s'.threads[t]);
    RowUpdate(s.ops, id, Store.NewRow(req, s.now));
    hide Enabled;
  }

  lemma EnqueueDown(s: State, t: Tid)
    requires Enabled(s, Enqueue(t))
    ensures Measure(ApplyEnqueue(s, t)) < Measure(s)
  {
    hide Sum, RowWeights, ThreadWeights, Store.KeyTaken, Store.HoldsKey;
    ThreadUpdate(s.threads, t, ApplyEnqueue(s, t).threads[t]);
  }

  lemma MarkDown(s: State, t: Tid)
    requires Enabled(s, MarkQueued(t))
    ensures Measure(Apply(s, MarkQueued(t))) < Measure(s)
  {
    hide Sum, RowWeights, ThreadWeights, Store.KeyTaken, Store.HoldsKey;
    var s' := Apply(s, MarkQueued(t));
    var o := s.threads[t].op;
    ThreadUpdate(s.threads, t, s'.threads[t]);
    if s'.ops != s.ops { RowUpdate(s.ops, o, s'.ops[o]); }
  }

  lemma CancelDown(s: State, tenant: Tenant, o: OpId)
    ensures Apply(s, Cancel(tenant, o)) == s || Measure(Apply(s, Cancel(tenant, o))) < Measure(s)
  {
    hide Sum, RowWeights, ThreadWeights, Store.KeyTaken, Store.HoldsKey;
    var s' := Apply(s, Cancel(tenant, o));
    if Store.Cancellable(s.ops, tenant, o) { RowUpdate(s.ops, o, s'.ops[o]); }
  }

  lemma PopDown(s: State, t: Tid)
    requires Enabled(s, Pop(t))
    ensures Measure(Apply(s, Pop(t))) < Measure(s)
  {
    hide Sum, RowWeights, ThreadWeights, Store.KeyTaken, Store.HoldsKey;
    ThreadUpdate(s.threads, t, Apply(s, Pop(t)).threads[t]);
  }

  /** A start may revive a cancelled row, but it spends an attempt. */
  lemma StartDown(s: State, t: Tid, a: AttemptId)
    requires Inv(s) && Enabled(s, Start(t, a))
    ensures Measure(ApplyStart(s, t, a)) < Measure(s)
  {
    hide Sum, RowWeights, ThreadWeights, Store.KeyTaken, Store.HoldsKey;
    hide Inv;
    CarrierSteps.ThreadFacts(s, t);
    var s' := ApplyStart(s, t, a);
    ThreadUpdate(s.threads, t, s'.threads[t]);
    RowUpdate(s.ops, s.threads[t].op, s'.ops[s.threads[t].op]);
  }

  lemma SuccessRows(ops: Ops, o: OpId, output: string, now: nat)
    ensures Sum(RowWeights(Store.FinishedSuccess(ops, o, output, now))) <= Sum(RowWeights(ops))
  {
    hide Sum, RowWeights;
    if Store.FinishedSuccess(ops, o, output, now) != ops {
      RowUpdate(ops, o, Store.FinishedSuccess(ops, o, output, now)[o]);
    }
  }

  lemma FailureRows(ops: Ops, o: OpId, next: Status, detail: string, now: nat)
    ensures Sum(RowWeights(Store.FinishedFailure(ops, o, next, detail, now))) <= Sum(RowWeights(ops))
  {
    hide Sum, RowWeights;
    if Store.FinishedFailure(ops, o, next, detail, now) != ops {
      RowUpdate(ops, o, Store.FinishedFailure(ops, o, next, detail, now)[o]);
    }
  }

  lemma CommitRows(s: State, t: Tid, n: Tid)
    requires Enabled(s, Commit(t, n))
    ensures Sum(RowWeights(ApplyCommit(s, t, n).ops)) <= Sum(RowWeights(s.ops))
  {
    hide Sum, RowWeights, AttemptCap, Store.FinishedSuccess, Store.FinishedFailure;
    var th := s.threads[t];
    match th.report
    case Success(output, _, _) => SuccessRows(s.ops, th.op, output, s.now);
    case Failure(category, detail) =>
      FailureRows(s.ops, th.op, Store.NextStatus(category, WillRetry(th.report, th.stage.seen)), detail, s.now);
  }

  lemma CommitThreads(s: State, t: Tid, n: Tid)
    requires Enabled(s, Commit(t, n))
    ensures Sum(ThreadWeights(ApplyCommit(s, t, n).threads)) < Sum(ThreadWeights(s.threads))
  {
    hide Sum, ThreadWeights, Store.FinishedSuccess, Store.FinishedFailure, Store.ClosedSuccess, Store.ClosedFailure;
    var s' := ApplyCommit(s, t, n);
    if WillRetry(s.threads[t].report, s.threads[t].stage.seen) {
      ThreadUpdate(s.threads, t, s'.threads[t]);
    } else {
      EndedWeight(s.threads, t);
      ThreadUpdate(Ended(s.threads, t), n, s'.threads[n]);
    }
  }

  lemma CommitDown(s: State, t: Tid, n: Tid)
    requires Enabled(s, Commit(t, n))
    ensures Measure(ApplyCommit(s, t, n)) < Measure(s)
  {
    hide Sum, RowWeights, ThreadWeights;
    CommitRows(s, t, n);
    CommitThreads(s, t, n);
  }

  lemma ScheduleDown(s: State, t: Tid, jitter: nat)
    requires Enabled(s, Schedule(t, jitter))
    ensures Measure(ApplySchedule(s, t, jitter)) < Measure(s)
  {
    hide Sum, RowWeights, ThreadWeights, RetryJob, ReadyAt, AttemptCap;
    EndedWeight(s.threads, t);
    var seen := s.threads[t].stage.seen;
    OneMore(s.delayed, RetryJob(s.threads[t].op, seen, s.now), ReadyAt(seen, jitter, s.now));
  }

  lemma OneMore(delayed: map<Job, int>, job: Job, score: int)
    ensures |delayed[job := score]| <= |delayed| + 1
  {
    assert delayed[job := score].Keys == delayed.Keys + {job};
  }

  lemma PromoteSizes(delayed: map<Job, int>, jobs: seq<Job>)
    requires Distinct(jobs) && Members(delayed, jobs)
    ensures |ZRemAll(delayed, jobs)| == |delayed| - |jobs|
    decreases |jobs|
  {
    if jobs == [] {
      assert ZRemAll(delayed, jobs) == delayed;
    } else {
      MoveOne(delayed, jobs);
      PromoteSizes(delayed - {jobs[0]}, jobs[1..]);
      assert (delayed - {jobs[0]}).Keys == delayed.Keys - {jobs[0]};
    }
  }

  lemma PromoteDown(s: State)
    requires s.scanned != [] && ScanOk(s.delayed, s.scanned)
    ensures Measure(Apply(s, Promote)) < Measure(s)
  {
    PromoteSizes(s.delayed, s.scanned);
  }

  lemma ScanDown(s: State, members: seq<Job>)
    requires Enabled(s, Scan(members))
    ensures if members == [] then Apply(s, Scan(members)) == s else Measure(Apply(s, Scan(members))) < Measure(s)
  {
  }

  /** Every fault-free action other than a clock tick or a new request changes nothing (an empty
      scan, a refused cancel) or lowers the measure. */
  lemma EveryActionRunsDown(s: State, a: Action, s': State)
    requires Inv(s) && Step(F0, s, a, s') && !a.Submit?
    ensures if a.Tick? then Measure(s') == Measure(s) else s' == s || Measure(s') < Measure(s)
  {
    hide Inv, Measure, Enabled;
    match a
    case Tick(_) => TickKeeps(s, a);
    case Insert(t, id) => InsertDown(s, t, id);
    case Enqueue(t) => EnqueueDown(s, t);
    case MarkQueued(t) => MarkDown(s, t);
    case Cancel(tenant, o) => CancelDown(s, tenant, o);
    case Pop(t) => PopDown(s, t);
    case Start(t, attempt) => StartDown(s, t, attempt);
    case Commit(t, n) => CommitDown(s, t, n);
    case Schedule(t, jitter) => ScheduleDown(s, t, jitter);
    case Scan(members) => ScanDown(s, members);
    case Promote =>
      CarrierSteps.ScanFacts(s);
      Scanned(s);
      PromoteDown(s);
    case _ => PhaseStep(s, a);
  }

  lemma TickKeeps(s: State, a: Action)
    requires Enabled(s, a) && a.Tick?
    ensures Measure(Apply(s, a)) == Measure(s)
  {
  }

  /** Actions of a path that change something besides the clock. */
  ghost function Effective(states: seq<State>, actions: seq<Action>, n: nat): nat
    requires n <= |actions| < |states|
  {
    if n == 0 then 0 else
      Effective(states, actions, n - 1) +
      if actions[n - 1].Tick? || states[n] == states[n - 1] then 0 else 1
  }

  /** A fault-free path without new requests makes at most Measure effective steps. */
  lemma {:induction false} BoundedWork(states: seq<State>, actions: seq<Action>, n: nat)
    requires IsPath(F0, states, actions) && Inv(states[0]) && n <= |actions|
    requires forall i :: 0 <= i < |actions| ==> !actions[i].Submit?
    ensures 0 <= Measure(states[n])
    ensures Effective(states, actions, n) + Measure(states[n]) <= Measure(states[0])
  {
    hide Inv, Measure, Apply, Enabled;
    if n > 0 {
      BoundedWork(states, actions, n - 1);
      Lifecycle.PathKeepsInv(F0, states, actions, n - 1);
      EveryActionRunsDown(states[n - 1], actions[n - 1], states[n]);
    }
    Lifecycle.PathKeepsInv(F0, states, actions, n);
    CarrierSteps.ScanFacts(states[n]);
    MeasureNonNegative(states[n]);
  }
}
