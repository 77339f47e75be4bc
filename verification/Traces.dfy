/** The handlers and the worker, run without interruption, are runs of the protocol: the methods'
    effect on the stores is the effect of a definite sequence of protocol actions. */
module Traces {
  import opened Model
  import opened JobQueue
  import opened Protocol
  import opened Flows
  import Redis
  import Store

  /** The actions can be taken one after the other and end in s'. */
  ghost predicate Leads(level: Level, s: State, trace: seq<Action>, s': State)
    decreases |trace|
  {
    if trace == [] then s' == s
    else Allowed(level, trace[0]) && Enabled(s, trace[0]) && Leads(level, Apply(s, trace[0]), trace[1..], s')
  }

  function WorldOf(s: State): World { World(s.ops, s.attempts, s.main, s.delayed, s.counters) }

  function With(s: State, w: World, threads: map<Tid, Thread>): State {
    s.(ops := w.ops, attempts := w.attempts, main := w.main, delayed := w.delayed, counters := w.counters,
        threads := threads)
  }

  lemma LeadsOne(level: Level, s: State, a: Action)
    requires Allowed(level, a) && Enabled(s, a)
    ensures Leads(level, s, [a], Apply(s, a))
  {
    hide Enabled, Apply;
    assert Leads(level, Apply(s, a), [], Apply(s, a));
    assert [a][1..] == [];
  }

  lemma {:induction false} LeadsThen(level: Level, s: State, p: seq<Action>, m: State, q: seq<Action>, s': State)
    requires Leads(level, s, p, m) && Leads(level, m, q, s')
    ensures Leads(level, s, p + q, s')
    decreases |p|
  {
    hide Enabled, Apply, Allowed;
    if p == [] {
      assert p + q == q;
    } else {
      LeadsThen(level, Apply(s, p[0]), p[1..], m, q, s');
      assert (p + q)[0] == p[0] && (p + q)[1..] == p[1..] + q;
    }
  }

  lemma LeadsMore(level: Level, s: State, p: seq<Action>, m: State, a: Action)
    requires Leads(level, s, p, m) && Allowed(level, a) && Enabled(m, a)
    ensures Leads(level, s, p + [a], Apply(m, a))
  {
    hide Enabled, Apply, Allowed;
    LeadsOne(level, m, a);
    LeadsThen(level, s, p, m, [a], Apply(m, a));
  }

  /** A trace is a path in the sense of Protocol. */
  lemma {:induction false} LeadsIsPath(level: Level, s: State, trace: seq<Action>, s': State)
    returns (states: seq<State>)
    requires Leads(level, s, trace, s')
    ensures IsPath(level, states, trace) && states[0] == s && states[|trace|] == s'
    decreases |trace|
  {
    hide Enabled, Apply, Allowed;
    if trace == [] {
      states := [s];
    } else {
      var rest := LeadsIsPath(level, Apply(s, trace[0]), trace[1..], s');
      states := [s] + rest;
      forall i | 0 <= i < |trace|
        ensures Step(level, states[i], trace[i], states[i + 1])
      {
        if i > 0 {
          assert Step(level, rest[i - 1], trace[1..][i - 1], rest[i]);
        }
      }
    }
  }

  // ---- createOperation ----

  function Asking(t: Tid, req: CreateRequest): seq<Action> {
    [Submit(t, req)] + if req.key.Some? then [Lookup(t, None)] else []
  }

  lemma SubmitOne(level: Level, s: State, t: Tid, req: CreateRequest)
    requires Fresh(s, t)
    ensures Leads(level, s, [Submit(t, req)], s.(threads := s.threads[t := if req.key.Some?
            then Looking(req) else Inserting(req)]))
  {
    LeadsOne(level, s, Submit(t, req));
  }

  lemma AskingLeads(level: Level, s: State, t: Tid, req: CreateRequest)
    requires Fresh(s, t) && !Store.Conflicts(s.ops, req)
    ensures Leads(level, s, Asking(t, req), s.(threads := s.threads[t := Inserting(req)]))
  {
    hide Leads, Store.KeyTaken;
    SubmitOne(level, s, t, req);
    if req.key.Some? {
      var m := s.(threads := s.threads[t := Looking(req)]);
      LeadsMore(level, s, [Submit(t, req)], m, Lookup(t, None));
      assert m.threads[t := Inserting(req)] == s.threads[t := Inserting(req)];
    } else {
      assert [Submit(t, req)] + [] == [Submit(t, req)];
    }
  }

  lemma InsertOne(level: Level, s: State, t: Tid, id: OpId)
    requires t in s.threads && s.threads[t].Inserting? && id !in s.ops && !Store.Conflicts(s.ops, s.threads[t].req)
    ensures var req := s.threads[t].req;
            Leads(level, s, [Insert(t, id)],
                  s.(ops := s.ops[id := Store.NewRow(req, s.now)], threads := s.threads[t := Submitting(req, id)]))
  {
    LeadsOne(level, s, Insert(t, id));
    hide Leads;
  }

  lemma EnqueueOne(level: Level, s: State, t: Tid)
    requires t in s.threads && s.threads[t].Submitting?
    ensures var req, id := s.threads[t].req, s.threads[t].op;
            Leads(level, s, [Enqueue(t)], s.(main := LPush(s.main, Job(id, req.tenant, req.opType, 0, s.now)),
                                             threads := s.threads[t := Marking(req, id)]))
  {
    LeadsOne(level, s, Enqueue(t));
    hide Leads;
  }

  lemma MarkOne(level: Level, s: State, t: Tid)
    requires t in s.threads && s.threads[t].Marking?
    ensures var req, id := s.threads[t].req, s.threads[t].op;
            Leads(level, s, [MarkQueued(t)], s.(ops := Store.Enqueued(s.ops, id),
                threads := s.threads[t := Replied(req, id, false)]))
  {
    LeadsOne(level, s, MarkQueued(t));
    hide Leads;
  }

  lemma DropOne(s: State, t: Tid)
    requires t in s.threads && !s.threads[t].Replied?
    ensures Leads(F1, s, [Drop(t)], s.(threads := Ended(s.threads, t)))
  {
    LeadsOne(F1, s, Drop(t));
    hide Leads;
  }

  function CreateActions(t: Tid, req: CreateRequest, id: OpId, enqueueOk: bool, markOk: bool): seq<Action> {
    Asking(t, req) + [Insert(t, id)] +
    if !enqueueOk then [Drop(t)] else [Enqueue(t)] + if markOk then [MarkQueued(t)] else [Drop(t)]
  }

  /** A create that finds no duplicate: failures of Redis or of the last UPDATE are dropped threads. */
  lemma CreateLeads(s: State, t: Tid, req: CreateRequest, id: OpId, enqueueOk: bool, markOk: bool)
    requires Fresh(s, t) && id !in s.ops && !Store.Conflicts(s.ops, req)
    ensures Leads(if enqueueOk && markOk then F0 else F1, s, CreateActions(t, req, id, enqueueOk, markOk),
                  With(s, Submitted(WorldOf(s), req, id, s.now, enqueueOk, markOk),
                       if enqueueOk && markOk then s.threads[t := Replied(req, id, false)] else s.threads))
  {
    hide Leads, Store.KeyTaken, Store.NewRow, LPush;
    var level := if enqueueOk && markOk then F0 else F1;
    AskingLeads(level, s, t, req);
    var p := Asking(t, req);
    var s1 := s.(threads := s.threads[t := Inserting(req)]);
    InsertOne(level, s1, t, id);
    var s2 := s.(ops := s.ops[id := Store.NewRow(req, s.now)], threads := s.threads[t := Submitting(req, id)]);
    assert s1.threads[t := Submitting(req, id)] == s2.threads;
    LeadsThen(level, s, p, s1, [Insert(t, id)], s2);
    p := p + [Insert(t, id)];
    if !enqueueOk {
      DropOne(s2, t);
      LeadsThen(F1, s, p, s2, [Drop(t)], s2.(threads := Ended(s2.threads, t)));
      assert Ended(s2.threads, t) == s.threads;
    } else {
      EnqueueOne(level, s2, t);
      var s3 := s2.(main := LPush(s.main, Job(id, req.tenant, req.opType, 0, s.now)),
                    threads := s.threads[t := Marking(req, id)]);
      assert s2.threads[t := Marking(req, id)] == s3.threads;
      LeadsThen(level, s, p, s2, [Enqueue(t)], s3);
      CreateEnds(level, s, p + [Enqueue(t)], s3, t, req, id, markOk);
      var last := if markOk then [MarkQueued(t)] else [Drop(t)];
      assert (p + [Enqueue(t)]) + last == p + ([Enqueue(t)] + last);
    }
  }

  lemma CreateEnds(level: Level, s: State, p: seq<Action>, m: State, t: Tid, req: CreateRequest, id: OpId, markOk: bool)
    requires Leads(level, s, p, m) && (level == F1 || markOk) && t.Handler? && t !in s.threads
    requires m.threads == s.threads[t := Marking(req, id)]
    ensures Leads(level, s, p + (if markOk then [MarkQueued(t)] else [Drop(t)]),
                  if markOk then m.(ops := Store.Enqueued(m.ops, id),
                                    threads := s.threads[t := Replied(req, id, false)])
                  else m.(threads := s.threads))
  {
    hide Leads;
    if markOk {
      MarkOne(level, m, t);
      var s4 := m.(ops := Store.Enqueued(m.ops, id), threads := s.threads[t := Replied(req, id, false)]);
      assert m.threads[t := Replied(req, id, false)] == s4.threads;
      LeadsThen(level, s, p, m, [MarkQueued(t)], s4);
    } else {
      DropOne(m, t);
      assert Ended(m.threads, t) == s.threads;
      LeadsThen(F1, s, p, m, [Drop(t)], m.(threads := s.threads));
    }
  }

  /** A create that finds its key only replies. */
  lemma RepeatLeads(s: State, t: Tid, req: CreateRequest, id: OpId)
    requires Fresh(s, t) && req.key.Some? && id in s.ops && Store.HoldsKey(s.ops[id], req.tenant, req.key.value)
    ensures Leads(F0, s, [Submit(t, req), Lookup(t, Some(id))], s.(threads := s.threads[t := Replied(req, id, true)]))
  {
    hide Leads, Store.KeyTaken;
    SubmitOne(F0, s, t, req);
    var m := s.(threads := s.threads[t := Looking(req)]);
    LeadsMore(F0, s, [Submit(t, req)], m, Lookup(t, Some(id)));
    assert m.threads[t := Replied(req, id, true)] == s.threads[t := Replied(req, id, true)];
    assert [Submit(t, req)] + [Lookup(t, Some(id))] == [Submit(t, req), Lookup(t, Some(id))];
  }

  // ---- startAttempt ----

  lemma StartOne(level: Level, s: State, t: Tid, attempt: AttemptId)
    requires t in s.threads && s.threads[t].Starting? && s.threads[t].op in s.ops && attempt !in s.attempts
    ensures var th := s.threads[t];
            Leads(level, s, [Start(t, attempt)],
                  s.(ops := Store.Started(s.ops, th.op, th.number, s.now),
                     attempts := s.attempts[attempt := Store.OpenedAttempt(th.op, th.number, th.worker, s.now)],
                     threads := s.threads[t := Opened(th.op, attempt)]))
  {
    LeadsOne(level, s, Start(t, attempt));
    hide Leads;
  }

  lemma ResolveOne(level: Level, s: State, t: Tid)
    requires t in s.threads && s.threads[t].Opened? && s.threads[t].op in s.ops
    ensures var th := s.threads[t];
            Leads(level, s, [Resolve(t)],
                  s.(threads := s.threads[t := Resolved(th.op, th.attempt, s.ops[th.op].tenant)]))
  {
    LeadsOne(level, s, Resolve(t));
    hide Leads;
  }

  lemma IncrOne(level: Level, s: State, t: Tid, ok: bool)
    requires t in s.threads && s.threads[t].Resolved? && (ok || level == F1)
    ensures var th := s.threads[t];
            Leads(level, s, [Incr(t, ok)],
                  s.(counters := if ok then Redis.Incremented(s.counters, th.tenant) else s.counters,
                     threads := if t.Worker? then s.threads[t := Working(th.op, th.attempt)] else s.threads - {t}))
  {
    LeadsOne(level, s, Incr(t, ok));
    hide Leads;
  }

  function BeginActions(t: Tid, attempt: AttemptId, incrOk: bool): seq<Action> {
    [Start(t, attempt)] + [Resolve(t)] + [Incr(t, incrOk)]
  }

  lemma BeginLeads(level: Level, s: State, t: Tid, attempt: AttemptId, incrOk: bool)
    requires t in s.threads && s.threads[t].Starting? && s.threads[t].op in s.ops && attempt !in s.attempts
    requires incrOk || level == F1
    ensures var th := s.threads[t];
            Leads(level, s, BeginActions(t, attempt, incrOk),
                  With(s, Begun(WorldOf(s), th.op, th.worker, th.number, attempt, s.now, incrOk),
                       if t.Worker? then s.threads[t := Working(th.op, attempt)] else s.threads - {t}))
  {
    hide Leads;
    var th := s.threads[t];
    StartOne(level, s, t, attempt);
    var s1 := s.(ops := Store.Started(s.ops, th.op, th.number, s.now),
                 attempts := s.attempts[attempt := Store.OpenedAttempt(th.op, th.number, th.worker, s.now)],
                 threads := s.threads[t := Opened(th.op, attempt)]);
    ResolveOne(level, s1, t);
    var tenant := s.ops[th.op].tenant;
    var s2 := s1.(threads := s.threads[t := Resolved(th.op, attempt, tenant)]);
    assert s1.threads[t := Resolved(th.op, attempt, tenant)] == s2.threads;
    LeadsThen(level, s, [Start(t, attempt)], s1, [Resolve(t)], s2);
    IncrOne(level, s2, t, incrOk);
    var s3 := With(s, Begun(WorldOf(s), th.op, th.worker, th.number, attempt, s.now, incrOk),
                   if t.Worker? then s.threads[t := Working(th.op, attempt)] else s.threads - {t});
    assert s2.threads[t := Working(th.op, attempt)] == s.threads[t := Working(th.op, attempt)];
    assert s2.threads - {t} == s.threads - {t};
    LeadsThen(level, s, [Start(t, attempt)] + [Resolve(t)], s2, [Incr(t, incrOk)], s3);
  }

  // ---- completeAttempt ----

  lemma ReadOne(level: Level, s: State, t: Tid)
    requires t in s.threads && s.threads[t].Reporting? && s.threads[t].stage.Sent? && s.threads[t].op in s.ops
    ensures Leads(level, s, [Read(t)],
            s.(threads := s.threads[t := s.threads[t].(stage := Got(s.ops[s.threads[t].op]))]))
  {
    LeadsOne(level, s, Read(t));
    hide Leads;
  }

  lemma DecrOne(level: Level, s: State, t: Tid, ok: bool)
    requires t in s.threads && s.threads[t].Reporting? && s.threads[t].stage.Got? && (ok || level == F1)
    ensures var th := s.threads[t];
            var val := Counter(s.counters, th.stage.seen.tenant) - 1;
            Leads(level, s, [Decr(t, ok)],
                  s.(counters := if ok then s.counters[th.stage.seen.tenant := val] else s.counters,
                     threads := s.threads[t := th.(stage := Freed(th.stage.seen, ok && val < 0))]))
  {
    LeadsOne(level, s, Decr(t, ok));
    hide Leads;
  }

  lemma ClampOne(level: Level, s: State, t: Tid, ok: bool)
    requires t in s.threads && s.threads[t].Reporting? && s.threads[t].stage.Freed? && s.threads[t].stage.negative
    requires ok || level == F1
    ensures var th := s.threads[t];
            Leads(level, s, [Clamp(t, ok)],
                  s.(counters := if ok then s.counters[th.stage.seen.tenant := 0] else s.counters,
                     threads := s.threads[t := th.(stage := Freed(th.stage.seen, false))]))
  {
    LeadsOne(level, s, Clamp(t, ok));
    hide Leads;
  }

  function FreeActions(t: Tid, decrOk: bool, setOk: bool, clamp: bool): seq<Action> {
    [Read(t)] + ([Decr(t, decrOk)] + if decrOk && clamp then [Clamp(t, setOk)] else [])
  }

  /** The counter falls, to zero at the least unless the clamp fails. */
  lemma FreeLeads(level: Level, s: State, t: Tid, decrOk: bool, setOk: bool)
    requires t in s.threads && s.threads[t].Reporting? && s.threads[t].stage.Sent? && s.threads[t].op in s.ops
    requires (decrOk && setOk) || level == F1
    ensures var th, seen := s.threads[t], s.ops[s.threads[t].op];
            Leads(level, s, FreeActions(t, decrOk, setOk, Counter(s.counters, seen.tenant) - 1 < 0),
                  s.(counters := Redis.Released(s.counters, seen.tenant, decrOk, setOk),
                     threads := s.threads[t := th.(stage := Freed(seen, false))]))
  {
    hide Leads;
    var th, seen := s.threads[t], s.ops[s.threads[t].op];
    var val := Counter(s.counters, seen.tenant) - 1;
    ReadOne(level, s, t);
    var s1 := s.(threads := s.threads[t := th.(stage := Got(seen))]);
    DecrOne(level, s1, t, decrOk);
    var s2 := s.(counters := if decrOk then s.counters[seen.tenant := val] else s.counters,
                 threads := s.threads[t := th.(stage := Freed(seen, decrOk && val < 0))]);
    assert s1.threads[t := s2.threads[t]] == s2.threads;
    if decrOk && val < 0 {
      ClampOne(level, s2, t, setOk);
      var s3 := s.(counters := Redis.Released(s.counters, seen.tenant, decrOk, setOk),
                   threads := s.threads[t := th.(stage := Freed(seen, false))]);
      assert s2.threads[t := s3.threads[t]] == s3.threads;
      assert s3.counters == if setOk then s2.counters[seen.tenant := 0] else s2.counters;
      LeadsThen(level, s1, [Decr(t, decrOk)], s2, [Clamp(t, setOk)], s3);
      LeadsThen(level, s, [Read(t)], s1, [Decr(t, decrOk)] + [Clamp(t, setOk)], s3);
    } else {
      assert [Decr(t, decrOk)] + [] == [Decr(t, decrOk)];
      LeadsThen(level, s, [Read(t)], s1, [Decr(t, decrOk)], s2);
    }
  }

  lemma CommitOne(level: Level, s: State, t: Tid, n: Tid)
    requires t in s.threads && s.threads[t].Reporting? && s.threads[t].stage.Freed? &&
             !s.threads[t].stage.negative && Fresh(s, n)
    ensures Leads(level, s, [Commit(t, n)], ApplyCommit(s, t, n))
  {
    LeadsOne(level, s, Commit(t, n));
    hide Leads, ApplyCommit;
  }

  lemma ScheduleOne(level: Level, s: State, t: Tid, jitter: nat)
    requires t in s.threads && s.threads[t].Reporting? && s.threads[t].stage.Retry? && jitter < 1000
    ensures Leads(level, s, [Schedule(t, jitter)], ApplySchedule(s, t, jitter))
  {
    LeadsOne(level, s, Schedule(t, jitter));
    hide Leads, ApplySchedule;
  }

  /** The goroutine a completion starts. */
  function Goroutine(tenant: Tenant, op: OpId, status: Status): Thread {
    if status == Succeeded then Metering(tenant, op) else Announcing(tenant, op, KindOf(status))
  }

  function After(w: World, threads: map<Tid, Thread>, t: Tid, n: Tid, op: OpId, report: Report): map<Tid, Thread>
    requires op in w.ops
  {
    match Announced(w, op, report)
    case Some(status) => Ended(threads, t)[n := Goroutine(w.ops[op].tenant, op, status)]
    case None => Ended(threads, t)
  }

  function CompleteActions(w: World, t: Tid, n: Tid, op: OpId, report: Report, jitter: nat, decrOk: bool,
      setOk: bool, scheduleOk: bool): seq<Action>
    requires op in w.ops
  {
    FreeActions(t, decrOk, setOk, Counter(w.counters, w.ops[op].tenant) - 1 < 0) +
    ([Commit(t, n)] +
     if !WillRetry(report, w.ops[op]) then [] else if scheduleOk then [Schedule(t, jitter)] else [Drop(t)])
  }

  lemma CompleteLeads(level: Level, s: State, t: Tid, n: Tid, jitter: nat, decrOk: bool, setOk: bool,
      scheduleOk: bool)
    requires t in s.threads && s.threads[t].Reporting? && s.threads[t].stage.Sent? && s.threads[t].op in s.ops
    requires Fresh(s, n) && jitter < 1000 && ((decrOk && setOk && scheduleOk) || level == F1)
    ensures var th, w := s.threads[t], WorldOf(s);
            Leads(level, s, CompleteActions(w, t, n, th.op, th.report, jitter, decrOk, setOk, scheduleOk),
                  With(s, Completed(w, th.op, th.attempt, th.report, jitter, s.now, decrOk, setOk, scheduleOk),
                       After(w, s.threads, t, n, th.op, th.report)))
  {
    hide Leads, Store.FinishedSuccess, Store.FinishedFailure, Store.ClosedSuccess, Store.ClosedFailure;
    hide ReadyAt, Redis.Released;
    var th, w := s.threads[t], WorldOf(s);
    var seen := s.ops[th.op];
    FreeLeads(level, s, t, decrOk, setOk);
    var free := FreeActions(t, decrOk, setOk, Counter(s.counters, seen.tenant) - 1 < 0);
    var s1 := s.(counters := Redis.Released(s.counters, seen.tenant, decrOk, setOk),
                 threads := s.threads[t := th.(stage := Freed(seen, false))]);
    assert Ended(s1.threads, t) == Ended(s.threads, t);
    var s' := With(s, Completed(w, th.op, th.attempt, th.report, jitter, s.now, decrOk, setOk, scheduleOk),
                   After(w, s.threads, t, n, th.op, th.report));
    if !WillRetry(th.report, seen) {
      OutcomeLeads(level, s1, s', t, n, seen);
      assert [Commit(t, n)] + [] == [Commit(t, n)];
      LeadsThen(level, s, free, s1, [Commit(t, n)], s');
    } else {
      RetryLeads(level, s1, s', t, n, jitter, scheduleOk, seen);
      LeadsThen(level, s, free, s1, [Commit(t, n)] + (if scheduleOk then [Schedule(t, jitter)] else [Drop(t)]), s');
    }
  }

  lemma OutcomeLeads(level: Level, s: State, s': State, t: Tid, n: Tid, seen: Operation)
    requires t in s.threads && s.threads[t].Reporting? && s.threads[t].stage == Freed(seen, false)
    requires Fresh(s, n) && !WillRetry(s.threads[t].report, seen)
    requires var th := s.threads[t];
             s' == match th.report
                   case Success(output, provider, latencyMs) =>
                     s.(ops := Store.FinishedSuccess(s.ops, th.op, output, s.now),
                        attempts := Store.ClosedSuccess(s.attempts, th.attempt, provider, latencyMs, s.now),
                        threads := Ended(s.threads, t)[n := Goroutine(seen.tenant, th.op, Succeeded)])
                   case Failure(category, detail) =>
                     var next := Store.NextStatus(category, false);
                     s.(ops := Store.FinishedFailure(s.ops, th.op, next, detail, s.now),
                        attempts := Store.ClosedFailure(s.attempts, th.attempt, category, detail, s.now),
                        threads := Ended(s.threads, t)[n := Goroutine(seen.tenant, th.op, next)])
    ensures Leads(level, s, [Commit(t, n)], s')
  {
    hide Leads, Store.FinishedSuccess, Store.FinishedFailure, Store.ClosedSuccess, Store.ClosedFailure, Ended;
    CommitOne(level, s, t, n);
    assert ApplyCommit(s, t, n) == s';
  }

  lemma RetryLeads(level: Level, s: State, s': State, t: Tid, n: Tid, jitter: nat, scheduleOk: bool, seen: Operation)
    requires t in s.threads && s.threads[t].Reporting? && s.threads[t].stage == Freed(seen, false)
    requires Fresh(s, n) && jitter < 1000 && (scheduleOk || level == F1) && WillRetry(s.threads[t].report, seen)
    requires var th := s.threads[t];
             var category, detail := th.report.category, th.report.detail;
             s' == s.(ops := Store.FinishedFailure(s.ops, th.op, Store.NextStatus(category, true), detail, s.now),
                      attempts := Store.ClosedFailure(s.attempts, th.attempt, category, detail, s.now),
                      delayed := if !scheduleOk then s.delayed
                                 else s.delayed[RetryJob(th.op, seen, s.now) := ReadyAt(seen, jitter, s.now)],
                      threads := Ended(s.threads, t))
    ensures Leads(level, s, [Commit(t, n)] + (if scheduleOk then [Schedule(t, jitter)] else [Drop(t)]), s')
  {
    hide Leads, Store.FinishedFailure, Store.ClosedFailure, ReadyAt;
    CommitOne(level, s, t, n);
    var s2 := ApplyCommit(s, t, n);
    assert Ended(s2.threads, t) == Ended(s.threads, t);
    if scheduleOk {
      ScheduleOne(level, s2, t, jitter);
      assert ApplySchedule(s2, t, jitter) == s';
      LeadsThen(level, s, [Commit(t, n)], s2, [Schedule(t, jitter)], s');
    } else {
      DropOne(s2, t);
      LeadsThen(F1, s, [Commit(t, n)], s2, [Drop(t)], s');
    }
  }

  // ---- sideeffects ----

  lemma RecordOne(level: Level, s: State, t: Tid)
    requires t in s.threads && s.threads[t].Metering?
    ensures var th := s.threads[t];
            Leads(level, s, [Record(t)],
                  s.(ledger := Recorded(s.ledger, th.tenant, th.op, 1, s.now),
                     threads := s.threads[t := Announcing(th.tenant, th.op, OperationSucceeded)]))
  {
    LeadsOne(level, s, Record(t));
    hide Leads;
  }

  lemma EmitOne(level: Level, s: State, t: Tid)
    requires t in s.threads && s.threads[t].Announcing?
    ensures var th := s.threads[t];
            Leads(level, s, [Emit(t)],
                  s.(events := s.events + [Event(th.tenant, th.op, th.kind)], threads := Ended(s.threads, t)))
  {
    LeadsOne(level, s, Emit(t));
    hide Leads;
  }

  /** What the Notifier does for a terminal status. */
  lemma NotifyLeads(level: Level, s: State, t: Tid, tenant: Tenant, op: OpId, status: Status)
    requires t.Handler? && t in s.threads && s.threads[t] == Goroutine(tenant, op, status)
    ensures if status == Succeeded then
              Leads(level, s, [Record(t)] + [Emit(t)],
                    s.(ledger := Recorded(s.ledger, tenant, op, 1, s.now),
                       events := s.events + [Event(tenant, op, OperationSucceeded)], threads := s.threads - {t}))
            else
              Leads(level, s, [Emit(t)],
                    s.(events := s.events + [Event(tenant, op, KindOf(status))], threads := s.threads - {t}))
  {
    hide Leads, Recorded;
    if status == Succeeded {
      RecordOne(level, s, t);
      var s1 := s.(ledger := Recorded(s.ledger, tenant, op, 1, s.now),
                   threads := s.threads[t := Announcing(tenant, op, OperationSucceeded)]);
      EmitOne(level, s1, t);
      var s2 := s1.(events := s.events + [Event(tenant, op, OperationSucceeded)], threads := s.threads - {t});
      assert s1.threads - {t} == s.threads - {t};
      LeadsThen(level, s, [Record(t)], s1, [Emit(t)], s2);
    } else {
      EmitOne(level, s, t);
    }
  }
}
