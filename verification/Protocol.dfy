/** The operation lifecycle as one transition system: database rows, Redis queues, the
    retry scheduler, the workers and every request handler in flight.  One action is one
    SQL statement or transaction, one Redis command or MULTI, or one local decision. */
module Protocol {
  import opened Model
  import opened JobQueue
  import Store
  import Backoff

  /** Worker processes and server-side threads (handlers, goroutines, abandoned requests). */
  datatype Tid = Worker(w: nat) | Handler(h: nat)

  /** What the provider call produced, hence what the worker reports. */
  datatype Report =
    | Success(output: string, provider: string, latencyMs: int)
    | Failure(category: Category, detail: string)

  /** Progress of completeAttempt on one report; `seen` is the row it read. */
  datatype Stage =
    | Sent
    | Got(seen: Operation)
    | Freed(seen: Operation, negative: bool) // counter decremented; negative: SET 0 is due
    | Retry(seen: Operation)                 // failure committed; ScheduleRetry is due

  datatype EventKind = OperationSucceeded | OperationFailed | OperationDeadLettered

  datatype Thread =
    // worker/app/main.py
    | Idle
    | Popped(job: Job)
    | Starting(op: OpId, number: int, worker: WorkerId) // start request sent, not executed
    | Opened(op: OpId, attempt: AttemptId)              // transaction committed
    | Resolved(op: OpId, attempt: AttemptId, tenant: Tenant)
    | Working(op: OpId, attempt: AttemptId)
    | Reporting(op: OpId, attempt: AttemptId, report: Report, stage: Stage)
    // createOperation
    | Looking(req: CreateRequest)
    | Inserting(req: CreateRequest)
    | Refetching(req: CreateRequest)
    | Submitting(req: CreateRequest, op: OpId)          // row inserted, job not yet pushed
    | Marking(req: CreateRequest, op: OpId)             // job pushed, row not yet QUEUED
    | Replied(req: CreateRequest, op: OpId, existed: bool)
    // sideeffects.Notifier goroutines
    | Metering(tenant: Tenant, op: OpId)
    | Announcing(tenant: Tenant, op: OpId, kind: EventKind)

  datatype Event = Event(tenant: Tenant, op: OpId, kind: EventKind)
  datatype UsageRow = UsageRow(tenant: Tenant, units: int, recordedAt: nat)

  datatype State = State(
    ops: Ops, attempts: Attempts,
    main: seq<Job>, delayed: map<Job, int>, counters: map<Tenant, int>,
    scanned: seq<Job>,                      // reply held by the scheduler; [] when idle
    threads: map<Tid, Thread>,
    ledger: map<OpId, UsageRow>, events: seq<Event>, now: nat)

  datatype Action =
    | Tick(to: nat)
    | Submit(t: Tid, req: CreateRequest)
    | Lookup(t: Tid, found: Option<OpId>)
    | Insert(t: Tid, id: OpId)
    | Refetch(t: Tid, id: OpId)
    | Enqueue(t: Tid)
    | MarkQueued(t: Tid)
    | Cancel(tenant: Tenant, op: OpId)
    | Pop(t: Tid)
    | Fetch(t: Tid)
    | Start(t: Tid, attempt: AttemptId)
    | Resolve(t: Tid)
    | Incr(t: Tid, ok: bool)
    | Finish(t: Tid, report: Report)
    | Read(t: Tid)
    | Decr(t: Tid, ok: bool)
    | Clamp(t: Tid, ok: bool)
    | Commit(t: Tid, notifier: Tid)
    | Schedule(t: Tid, jitter: nat)
    | Record(t: Tid)
    | Emit(t: Tid)
    | Scan(members: seq<Job>)
    | Promote
    // faults
    | Drop(t: Tid)                          // crash, dropped job, failed call, lost message
    | GiveUp(t: Tid, z: Tid)                // the caller times out, its request lives on
    | ReReport(t: Tid, z: Tid, detail: string) // success report timed out: also report failure
    | DropScan

  datatype Level = F0 | F1

  /** Actions that only happen when some call fails, times out or a process dies. */
  predicate Faulty(a: Action) {
    a.Drop? || a.GiveUp? || a.ReReport? || a.DropScan? ||
    (a.Incr? && !a.ok) || (a.Decr? && !a.ok) || (a.Clamp? && !a.ok)
  }

  predicate Fresh(s: State, t: Tid) { t.Handler? && t !in s.threads }

  predicate WillRetry(report: Report, seen: Operation) {
    report.Failure? && report.category == Transient && seen.attemptCount < seen.maxRetries
  }

  function KindOf(status: Status): EventKind {
    if status == DeadLettered then OperationDeadLettered else OperationFailed
  }

  function RetryJob(op: OpId, seen: Operation, now: nat): Job {
    Job(op, seen.tenant, seen.opType, seen.attemptCount, now)
  }

  function ReadyAt(seen: Operation, jitter: nat, now: nat): int {
    UnixSeconds(now + Backoff.BackoffDelay(seen.attemptCount, jitter))
  }

  ghost predicate Enabled(s: State, a: Action) {
    match a
    case Tick(to) => to >= s.now
    case Submit(t, req) => Fresh(s, t)
    case Lookup(t, found) =>
      t in s.threads && s.threads[t].Looking? && s.threads[t].req.key.Some? &&
      var req := s.threads[t].req;
      (match found
       case Some(o) => o in s.ops && Store.HoldsKey(s.ops[o], req.tenant, req.key.value)
       case None => !Store.KeyTaken(s.ops, req.tenant, req.key.value))
    case Insert(t, id) => t in s.threads && s.threads[t].Inserting? && id !in s.ops
    case Refetch(t, id) =>
      t in s.threads && s.threads[t].Refetching? && s.threads[t].req.key.Some? && id in s.ops &&
      Store.HoldsKey(s.ops[id], s.threads[t].req.tenant, s.threads[t].req.key.value)
    case Enqueue(t) => t in s.threads && s.threads[t].Submitting?
    case MarkQueued(t) => t in s.threads && s.threads[t].Marking?
    case Cancel(_, _) => true
    case Pop(t) => t in s.threads && s.threads[t].Idle? && s.main != []
    case Fetch(t) => t in s.threads && t.Worker? && s.threads[t].Popped?
    case Start(t, attempt) =>
      t in s.threads && s.threads[t].Starting? && s.threads[t].op in s.ops && attempt !in s.attempts
    case Resolve(t) => t in s.threads && s.threads[t].Opened? && s.threads[t].op in s.ops
    case Incr(t, _) => t in s.threads && s.threads[t].Resolved?
    case Finish(t, report) =>
      t in s.threads && s.threads[t].Working? &&
      (report.Failure? ==> report.category in {Transient, Permanent})
    case Read(t) =>
      t in s.threads && s.threads[t].Reporting? && s.threads[t].stage.Sent? && s.threads[t].op in s.ops
    case Decr(t, _) => t in s.threads && s.threads[t].Reporting? && s.threads[t].stage.Got?
    case Clamp(t, _) =>
      t in s.threads && s.threads[t].Reporting? && s.threads[t].stage.Freed? && s.threads[t].stage.negative
    case Commit(t, notifier) =>
      t in s.threads && s.threads[t].Reporting? && s.threads[t].stage.Freed? &&
      !s.threads[t].stage.negative && Fresh(s, notifier)
    case Schedule(t, jitter) =>
      t in s.threads && s.threads[t].Reporting? && s.threads[t].stage.Retry? && jitter < 1000
    case Record(t) => t in s.threads && s.threads[t].Metering?
    case Emit(t) => t in s.threads && s.threads[t].Announcing?
    case Scan(members) => s.scanned == [] && IsDueReply(s.delayed, s.now, members)
    case Promote => s.scanned != []
    case Drop(t) => t in s.threads && !s.threads[t].Replied?
    case GiveUp(t, z) =>
      t in s.threads && t.Worker? && Fresh(s, z) &&
      (s.threads[t].Starting? || s.threads[t].Opened? || s.threads[t].Resolved? ||
       (s.threads[t].Reporting? && s.threads[t].report.Failure?))
    case ReReport(t, z, _) =>
      t in s.threads && t.Worker? && Fresh(s, z) &&
      s.threads[t].Reporting? && s.threads[t].report.Success?
    case DropScan => s.scanned != []
  }

  /** A worker goes back to polling; any other thread ends. */
  function Ended(threads: map<Tid, Thread>, t: Tid): map<Tid, Thread> {
    if t.Worker? then threads[t := Idle] else threads - {t}
  }

  function ApplyInsert(s: State, t: Tid, id: OpId): State
    requires t in s.threads && s.threads[t].Inserting?
  {
    var req := s.threads[t].req;
    if Store.Conflicts(s.ops, req) then s.(threads := s.threads[t := Refetching(req)])
    else s.(ops := s.ops[id := Store.NewRow(req, s.now)], threads := s.threads[t := Submitting(req, id)])
  }

  function ApplyEnqueue(s: State, t: Tid): State
    requires t in s.threads && s.threads[t].Submitting?
  {
    var req, id := s.threads[t].req, s.threads[t].op;
    s.(main := LPush(s.main, Job(id, req.tenant, req.opType, 0, s.now)),
       threads := s.threads[t := Marking(req, id)])
  }

  function ApplyFetch(s: State, t: Tid): State
    requires t in s.threads && t.Worker? && s.threads[t].Popped?
  {
    var o := s.threads[t].job.op;
    if o !in s.ops || IsTerminal(s.ops[o].status) then s.(threads := s.threads[t := Idle])
    else s.(threads := s.threads[t := Starting(o, s.ops[o].attemptCount + 1, t.w)])
  }

  function ApplyStart(s: State, t: Tid, attempt: AttemptId): State
    requires t in s.threads && s.threads[t].Starting?
  {
    var th := s.threads[t];
    s.(ops := Store.Started(s.ops, th.op, th.number, s.now),
       attempts := s.attempts[attempt := Store.OpenedAttempt(th.op, th.number, th.worker, s.now)],
       threads := s.threads[t := Opened(th.op, attempt)])
  }

  function ApplyIncr(s: State, t: Tid, ok: bool): State
    requires t in s.threads && s.threads[t].Resolved?
  {
    var th := s.threads[t];
    s.(counters := if ok then s.counters[th.tenant := Counter(s.counters, th.tenant) + 1] else s.counters,
       threads := if t.Worker? then s.threads[t := Working(th.op, th.attempt)] else s.threads - {t})
  }

  function ApplyDecr(s: State, t: Tid, ok: bool): State
    requires t in s.threads && s.threads[t].Reporting? && s.threads[t].stage.Got?
  {
    var th := s.threads[t];
    var tenant := th.stage.seen.tenant;
    var val := Counter(s.counters, tenant) - 1;
    s.(counters := if ok then s.counters[tenant := val] else s.counters,
       threads := s.threads[t := th.(stage := Freed(th.stage.seen, ok && val < 0))])
  }

  function ApplyCommit(s: State, t: Tid, notifier: Tid): State
    requires t in s.threads && s.threads[t].Reporting? && s.threads[t].stage.Freed?
  {
    var th := s.threads[t];
    var seen := th.stage.seen;
    match th.report
    case Success(output, provider, latencyMs) =>
      s.(ops := Store.FinishedSuccess(s.ops, th.op, output, s.now),
         attempts := Store.ClosedSuccess(s.attempts, th.attempt, provider, latencyMs, s.now),
         threads := Ended(s.threads, t)[notifier := Metering(seen.tenant, th.op)])
    case Failure(category, detail) =>
      var next := Store.NextStatus(category, WillRetry(th.report, seen));
      s.(ops := Store.FinishedFailure(s.ops, th.op, next, detail, s.now),
         attempts := Store.ClosedFailure(s.attempts, th.attempt, category, detail, s.now),
         threads := if WillRetry(th.report, seen) then s.threads[t := th.(stage := Retry(seen))]
                    else Ended(s.threads, t)[notifier := Announcing(seen.tenant, th.op, KindOf(next))])
  }

  function ApplySchedule(s: State, t: Tid, jitter: nat): State
    requires t in s.threads && s.threads[t].Reporting? && s.threads[t].stage.Retry?
  {
    var th := s.threads[t];
    s.(delayed := s.delayed[RetryJob(th.op, th.stage.seen, s.now) := ReadyAt(th.stage.seen, jitter, s.now)],
       threads := Ended(s.threads, t))
  }

  /** INSERT ... ON CONFLICT (operation_id) DO NOTHING with one unit. */
  function Recorded(ledger: map<OpId, UsageRow>, tenant: Tenant, op: OpId, units: int, now: nat): map<OpId, UsageRow> {
    if op in ledger then ledger else ledger[op := UsageRow(tenant, units, now)]
  }

  function Apply(s: State, a: Action): State
    requires Enabled(s, a)
  {
    match a
    case Tick(to) => s.(now := to)
    case Submit(t, req) =>
      s.(threads := s.threads[t := if req.key.Some? then Looking(req) else Inserting(req)])
    case Lookup(t, found) =>
      var req := s.threads[t].req;
      s.(threads := s.threads[t := if found.Some? then Replied(req, found.value, true) else Inserting(req)])
    case Insert(t, id) => ApplyInsert(s, t, id)
    case Refetch(t, id) => s.(threads := s.threads[t := Replied(s.threads[t].req, id, true)])
    case Enqueue(t) => ApplyEnqueue(s, t)
    case MarkQueued(t) =>
      var req, id := s.threads[t].req, s.threads[t].op;
      s.(ops := Store.Enqueued(s.ops, id), threads := s.threads[t := Replied(req, id, false)])
    case Cancel(tenant, op) => s.(ops := Store.WithCancel(s.ops, tenant, op, s.now))
    case Pop(t) =>
      s.(main := s.main[..|s.main| - 1], threads := s.threads[t := Popped(s.main[|s.main| - 1])])
    case Fetch(t) => ApplyFetch(s, t)
    case Start(t, attempt) => ApplyStart(s, t, attempt)
    case Resolve(t) =>
      var th := s.threads[t];
      s.(threads := s.threads[t := Resolved(th.op, th.attempt, s.ops[th.op].tenant)])
    case Incr(t, ok) => ApplyIncr(s, t, ok)
    case Finish(t, report) =>
      s.(threads := s.threads[t := Reporting(s.threads[t].op, s.threads[t].attempt, report, Sent)])
    case Read(t) =>
      s.(threads := s.threads[t := s.threads[t].(stage := Got(s.ops[s.threads[t].op]))])
    case Decr(t, ok) => ApplyDecr(s, t, ok)
    case Clamp(t, ok) =>
      var seen := s.threads[t].stage.seen;
      s.(counters := if ok then s.counters[seen.tenant := 0] else s.counters,
         threads := s.threads[t := s.threads[t].(stage := Freed(seen, false))])
    case Commit(t, notifier) => ApplyCommit(s, t, notifier)
    case Schedule(t, jitter) => ApplySchedule(s, t, jitter)
    case Record(t) =>
      var th := s.threads[t];
      s.(ledger := Recorded(s.ledger, th.tenant, th.op, 1, s.now),
         threads := s.threads[t := Announcing(th.tenant, th.op, OperationSucceeded)])
    case Emit(t) =>
      var th := s.threads[t];
      s.(events := s.events + [Event(th.tenant, th.op, th.kind)], threads := Ended(s.threads, t))
    case Scan(members) => s.(scanned := members)
    case Promote =>
      s.(main := LPushAll(s.main, s.scanned), delayed := ZRemAll(s.delayed, s.scanned), scanned := [])
    case Drop(t) => s.(threads := Ended(s.threads, t))
    case GiveUp(t, z) => s.(threads := s.threads[t := Idle][z := s.threads[t]])
    case ReReport(t, z, detail) =>
      var th := s.threads[t];
      s.(threads := s.threads[t := Reporting(th.op, th.attempt, Failure(Transient, detail), Sent)][z := th])
    case DropScan => s.(scanned := [])
  }

  /** Empty tables and queues, every worker polling. */
  ghost predicate Init(s: State) {
    && s.ops == map[] && s.attempts == map[] && s.main == [] && s.delayed == map[]
    && s.counters == map[] && s.scanned == [] && s.ledger == map[] && s.events == []
    && forall t :: t in s.threads ==> t.Worker? && s.threads[t] == Idle
  }

  predicate Allowed(level: Level, a: Action) { level == F1 || !Faulty(a) }

  ghost predicate Step(level: Level, s: State, a: Action, s': State) {
    Allowed(level, a) && Enabled(s, a) && s' == Apply(s, a)
  }

  /** Consecutive states and the actions between them, from any state. */
  ghost predicate IsPath(level: Level, states: seq<State>, actions: seq<Action>) {
    && |states| == |actions| + 1
    && forall i :: 0 <= i < |actions| ==> Step(level, states[i], actions[i], states[i + 1])
  }

  ghost predicate IsRun(level: Level, states: seq<State>, actions: seq<Action>) {
    IsPath(level, states, actions) && Init(states[0])
  }
}
