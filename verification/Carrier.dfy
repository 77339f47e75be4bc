/** The invariant behind the lifecycle at both fault levels: every operation has at most one
    carrier, that is one place from which a further attempt of it can still come. */
module Carrier {
  import opened Model
  import opened JobQueue
  import opened Protocol
  import Store

  /** The operation a thread carries: it holds the job, has a start in flight, runs the
      attempt, or still owes (or is processing) a failure report.  Abandoned start handlers
      and abandoned success reports carry nothing: they cannot lead to another attempt. */
  function Carried(t: Tid, th: Thread): Option<OpId> {
    match th
    case Popped(job) => Some(job.op)
    case Starting(o, _, _) => Some(o)
    case Opened(o, _) => if t.Worker? then Some(o) else None
    case Resolved(o, _, _) => if t.Worker? then Some(o) else None
    case Working(o, _) => Some(o)
    case Reporting(o, _, report, _) => if t.Worker? || report.Failure? then Some(o) else None
    case Submitting(_, o) => Some(o)
    case _ => None
  }

  /** The operation a create handler inserted itself. */
  function Created(th: Thread): Option<OpId> {
    match th
    case Submitting(_, o) => Some(o)
    case Marking(_, o) => Some(o)
    case Replied(_, o, existed) => if existed then None else Some(o)
    case _ => None
  }

  // ---- uniqueness ----

  ghost predicate MainUnique(main: seq<Job>) {
    forall i, j :: 0 <= i < j < |main| ==> main[i].op != main[j].op
  }

  ghost predicate DelayedUnique(delayed: map<Job, int>) {
    forall j, k :: j in delayed && k in delayed && j != k ==> j.op != k.op
  }

  ghost predicate ThreadsUnique(threads: map<Tid, Thread>) {
    forall t, u :: t in threads && u in threads && t != u && Carried(t, threads[t]).Some? ==>
      Carried(t, threads[t]) != Carried(u, threads[u])
  }

  ghost predicate QueuesApart(main: seq<Job>, delayed: map<Job, int>) {
    forall i, j :: 0 <= i < |main| && j in delayed ==> main[i].op != j.op
  }

  ghost predicate MainApart(main: seq<Job>, threads: map<Tid, Thread>) {
    forall i, t :: 0 <= i < |main| && t in threads ==> Carried(t, threads[t]) != Some(main[i].op)
  }

  ghost predicate DelayedApart(delayed: map<Job, int>, threads: map<Tid, Thread>) {
    forall j, t :: j in delayed && t in threads ==> Carried(t, threads[t]) != Some(j.op)
  }

  ghost predicate Unique(s: State) {
    && MainUnique(s.main) && DelayedUnique(s.delayed) && ThreadsUnique(s.threads)
    && QueuesApart(s.main, s.delayed) && MainApart(s.main, s.threads) && DelayedApart(s.delayed, s.threads)
  }

  ghost predicate NotInMain(main: seq<Job>, o: OpId) { forall i :: 0 <= i < |main| ==> main[i].op != o }

  ghost predicate NotInDelayed(delayed: map<Job, int>, o: OpId) { forall j :: j in delayed ==> j.op != o }

  ghost predicate NotInThreads(threads: map<Tid, Thread>, t: Option<Tid>, o: OpId) {
    forall u :: u in threads && Some(u) != t ==> Carried(u, threads[u]) != Some(o)
  }

  /** Nothing but (possibly) thread t carries o. */
  ghost predicate FreeFor(s: State, t: Option<Tid>, o: OpId) {
    NotInMain(s.main, o) && NotInDelayed(s.delayed, o) && NotInThreads(s.threads, t, o)
  }

  // ---- what each place knows about the row ----

  predicate JobOk(ops: Ops, job: Job) {
    && job.op in ops
    && var row := ops[job.op];
    job.tenant == row.tenant && job.opType == row.opType && job.attempt == row.attemptCount
    && row.attemptCount < AttemptCap(row) && row.status != Running
  }

  predicate Startable(status: Status) { status in {Pending, Queued, Retrying, Cancelled} }

  predicate AttemptOk(ops: Ops, attempts: Attempts, carried: bool, o: OpId, a: AttemptId) {
    && o in ops && a in attempts && attempts[a].op == o
    && (carried ==> attempts[a].number == ops[o].attemptCount)
  }

  predicate SeenOk(ops: Ops, o: OpId, report: Report, seen: Operation) {
    && o in ops
    && var row := ops[o];
    seen.tenant == row.tenant && seen.opType == row.opType && seen.maxRetries == row.maxRetries
    && (report.Failure? ==> seen.attemptCount == row.attemptCount)
  }

  predicate KeyOk(ops: Ops, req: CreateRequest, o: OpId) {
    o in ops && ops[o].tenant == req.tenant && ops[o].key == req.key
  }

  predicate TenantOk(ops: Ops, tenant: Tenant, o: OpId) { o in ops && ops[o].tenant == tenant }

  predicate StageOk(ops: Ops, o: OpId, report: Report, stage: Stage) {
    match stage
    case Sent => true
    case Got(seen) => SeenOk(ops, o, report, seen)
    case Freed(seen, _) => SeenOk(ops, o, report, seen)
    case Retry(seen) =>
      SeenOk(ops, o, report, seen) && WillRetry(report, seen) && ops[o].status != Running
  }

  predicate ThreadOk(ops: Ops, attempts: Attempts, t: Tid, th: Thread) {
    match th
    case Idle => t.Worker?
    case Popped(job) => t.Worker? && JobOk(ops, job)
    case Starting(o, n, _) =>
      o in ops && Startable(ops[o].status) && n == ops[o].attemptCount + 1 &&
      ops[o].attemptCount < AttemptCap(ops[o])
    case Opened(o, a) => AttemptOk(ops, attempts, Carried(t, th).Some?, o, a)
    case Resolved(o, a, tenant) =>
      AttemptOk(ops, attempts, Carried(t, th).Some?, o, a) && TenantOk(ops, tenant, o)
    case Working(o, a) => t.Worker? && AttemptOk(ops, attempts, true, o, a)
    case Reporting(o, a, report, stage) =>
      AttemptOk(ops, attempts, Carried(t, th).Some?, o, a) && StageOk(ops, o, report, stage)
    case Looking(req) => t.Handler?
    case Inserting(req) => t.Handler?
    case Refetching(req) => t.Handler?
    case Submitting(req, o) =>
      t.Handler? && KeyOk(ops, req, o) && ops[o].opType == req.opType &&
      ops[o].status != Running && ops[o].attemptCount == 0
    case Marking(req, o) => t.Handler? && KeyOk(ops, req, o)
    case Replied(req, o, existed) => t.Handler? && KeyOk(ops, req, o) && (existed ==> req.key.Some?)
    case Metering(tenant, o) => t.Handler? && TenantOk(ops, tenant, o)
    case Announcing(tenant, o, _) => t.Handler? && TenantOk(ops, tenant, o)
  }

  ghost predicate JobsOk(ops: Ops, main: seq<Job>, delayed: map<Job, int>) {
    && (forall i :: 0 <= i < |main| ==> JobOk(ops, main[i]))
    && (forall j :: j in delayed ==> JobOk(ops, j))
  }

  ghost predicate ThreadsOk(ops: Ops, attempts: Attempts, threads: map<Tid, Thread>) {
    forall t :: t in threads ==> ThreadOk(ops, attempts, t, threads[t])
  }

  // ---- tables ----

  predicate HasAttempt(attempts: Attempts, o: OpId, n: int) {
    exists a :: a in attempts && attempts[a].op == o && attempts[a].number == n
  }

  ghost predicate HasAll(attempts: Attempts, o: OpId, count: int) {
    forall n :: 1 <= n <= count ==> HasAttempt(attempts, o, n)
  }

  /** The attempts of every operation are numbered 1..attempt_count, no gap, no repeat. */
  ghost predicate Numbered(ops: Ops, attempts: Attempts) {
    && (forall a :: a in attempts ==>
          attempts[a].op in ops && 1 <= attempts[a].number <= ops[attempts[a].op].attemptCount)
    && (forall a, b :: a in attempts && b in attempts && a != b && attempts[a].op == attempts[b].op ==>
          attempts[a].number != attempts[b].number)
    && (forall o :: o in ops ==> HasAll(attempts, o, ops[o].attemptCount))
  }

  ghost predicate Capped(ops: Ops) {
    forall o :: o in ops ==> 0 <= ops[o].attemptCount <= AttemptCap(ops[o])
  }

  ghost predicate KeysUnique(ops: Ops) {
    forall o, p :: o in ops && p in ops && o != p && ops[o].key.Some? && ops[o].tenant == ops[p].tenant ==>
      ops[o].key != ops[p].key
  }

  ghost predicate CreatorsUnique(threads: map<Tid, Thread>) {
    forall t, u :: t in threads && u in threads && t != u && Created(threads[t]).Some? ==>
      Created(threads[t]) != Created(threads[u])
  }

  ghost predicate ScanOk(delayed: map<Job, int>, scanned: seq<Job>) {
    Distinct(scanned) && SortedByScore(delayed, scanned)
  }

  ghost predicate Inv(s: State) {
    && Unique(s)
    && JobsOk(s.ops, s.main, s.delayed)
    && ThreadsOk(s.ops, s.attempts, s.threads)
    && Capped(s.ops)
    && Numbered(s.ops, s.attempts)
    && KeysUnique(s.ops)
    && CreatorsUnique(s.threads)
    && ScanOk(s.delayed, s.scanned)
  }

  // ---- primitive updates; every action is a short sequence of them ----

  lemma SetThreadUnique(main: seq<Job>, delayed: map<Job, int>, threads: map<Tid, Thread>, t: Tid, th: Thread)
    requires ThreadsUnique(threads) && MainApart(main, threads) && DelayedApart(delayed, threads)
    requires Carried(t, th).Some? ==>
               var o := Carried(t, th).value;
               NotInMain(main, o) && NotInDelayed(delayed, o) && NotInThreads(threads, Some(t), o)
    ensures ThreadsUnique(threads[t := th]) && MainApart(main, threads[t := th]) &&
            DelayedApart(delayed, threads[t := th])
  {
  }

  lemma SetThread(s: State, s': State, t: Tid, th: Thread)
    requires Inv(s)
    requires s' == s.(threads := s.threads[t := th])
    requires ThreadOk(s.ops, s.attempts, t, th)
    requires Carried(t, th).Some? ==> FreeFor(s, Some(t), Carried(t, th).value)
    requires Created(th).Some? ==>
               forall u :: u in s.threads && u != t ==> Created(s.threads[u]) != Created(th)
    ensures Inv(s')
  {
    SetThreadUnique(s.main, s.delayed, s.threads, t, th);
  }

  lemma EndThread(s: State, t: Tid)
    requires Inv(s) && t in s.threads
    ensures Inv(s.(threads := Ended(s.threads, t)))
    ensures Carried(t, s.threads[t]).Some? ==>
              FreeFor(s.(threads := Ended(s.threads, t)), None, Carried(t, s.threads[t]).value)
  {
  }

  /** Clock, counters, ledger and events are not read by the invariant. */
  lemma Unobserved(s: State, s': State)
    requires Inv(s)
    requires s' == s.(counters := s'.counters, ledger := s'.ledger, events := s'.events, now := s'.now)
    ensures Inv(s')
  {
  }

  /** The scheduler's reply: empty, or members of the delayed set in score order. */
  lemma SetScanned(s: State, s': State)
    requires Inv(s)
    requires s' == s.(scanned := s'.scanned)
    requires s'.scanned == [] || ScanOk(s.delayed, s'.scanned)
    ensures Inv(s')
    ensures ScanOk(s.delayed, s.scanned)
  {
  }

  predicate SameIdentity(row: Operation, row': Operation) {
    && row'.tenant == row.tenant && row'.key == row.key
    && row'.opType == row.opType && row'.maxRetries == row.maxRetries
  }

  /** Status changes that no carrier has to know about. */
  predicate Benign(row: Operation, row': Operation) {
    && row'.attemptCount == row.attemptCount
    && (|| row'.status == row.status
        || (row'.status == Cancelled && !IsTerminal(row.status))
        || (row.status == Pending && row'.status == Queued)
        || (row.status == Running && row'.status == Succeeded))
  }

  lemma ThreadBenign(ops: Ops, attempts: Attempts, o: OpId, row: Operation, t: Tid, th: Thread)
    requires o in ops && SameIdentity(ops[o], row) && Benign(ops[o], row)
    requires ThreadOk(ops, attempts, t, th)
    ensures ThreadOk(ops[o := row], attempts, t, th)
  {
  }

  lemma JobsOkUpdate(ops: Ops, main: seq<Job>, delayed: map<Job, int>, o: OpId, row: Operation)
    requires JobsOk(ops, main, delayed) && o in ops && SameIdentity(ops[o], row)
    requires Benign(ops[o], row) || (NotInMain(main, o) && NotInDelayed(delayed, o))
    ensures JobsOk(ops[o := row], main, delayed)
  {
    assert forall j :: JobOk(ops, j) && (j.op != o || Benign(ops[o], row)) ==> JobOk(ops[o := row], j);
  }

  lemma UpdateRow(s: State, s': State, o: OpId, row: Operation)
    requires Inv(s) && o in s.ops && SameIdentity(s.ops[o], row)
    requires s' == s.(ops := s.ops[o := row])
    requires row.attemptCount == s.ops[o].attemptCount
    requires Benign(s.ops[o], row) || FreeFor(s, None, o)
    ensures Inv(s')
  {
    hide JobsOk, JobOk, ThreadOk, NotInMain, NotInDelayed, NotInThreads, DelayedUnique, MainUnique, ThreadsUnique;
    JobsOkUpdate(s.ops, s.main, s.delayed, o, row);
    if Benign(s.ops[o], row) {
      forall t | t in s'.threads
        ensures ThreadOk(s'.ops, s'.attempts, t, s'.threads[t])
      {
        ThreadBenign(s.ops, s.attempts, o, row, t, s.threads[t]);
      }
    } else {
      ThreadsOkFrame(s.ops, s.attempts, s.threads, o, row);
    }
  }

  lemma UpdateAttempt(s: State, s': State, a: AttemptId, att: Attempt)
    requires Inv(s) && a in s.attempts
    requires att.op == s.attempts[a].op && att.number == s.attempts[a].number
    requires s' == s.(attempts := s.attempts[a := att])
    ensures Inv(s')
  {
    hide JobsOk, FreeFor, MainUnique, QueuesApart, MainApart, DelayedApart, DelayedUnique, ThreadsUnique;
    hide KeysUnique, CreatorsUnique, ScanOk;
    forall t | t in s'.threads
      ensures ThreadOk(s'.ops, s'.attempts, t, s'.threads[t])
    {
      assert ThreadOk(s.ops, s.attempts, t, s.threads[t]);
    }
    forall o | o in s'.ops
      ensures HasAll(s'.attempts, o, s'.ops[o].attemptCount)
    {
      HasAllUpdate(s.attempts, a, att, o, s'.ops[o].attemptCount);
    }
  }

  /** Rows keep proving the numbers they proved, whatever else is written. */
  lemma HasAllUpdate(attempts: Attempts, a: AttemptId, att: Attempt, o: OpId, count: int)
    requires HasAll(attempts, o, count)
    requires a in attempts ==> att.op == attempts[a].op && att.number == attempts[a].number
    ensures HasAll(attempts[a := att], o, count)
  {
    var attempts' := attempts[a := att];
    forall n | 1 <= n <= count
      ensures HasAttempt(attempts', o, n)
    {
      assert HasAttempt(attempts, o, n);
      var b :| b in attempts && attempts[b].op == o && attempts[b].number == n;
      assert attempts'[b].number == n;
    }
  }

  /** Rows of operations that nobody carries may change freely under the threads. */
  lemma ThreadsOkFrame(ops: Ops, attempts: Attempts, threads: map<Tid, Thread>, o: OpId, row: Operation)
    requires ThreadsOk(ops, attempts, threads) && NotInThreads(threads, None, o)
    requires o in ops ==> SameIdentity(ops[o], row)
    ensures ThreadsOk(ops[o := row], attempts, threads)
  {
    forall t | t in threads
      ensures ThreadOk(ops[o := row], attempts, t, threads[t])
    {
      assert ThreadOk(ops, attempts, t, threads[t]) && Carried(t, threads[t]) != Some(o);
    }
  }

  lemma ThreadsOkNewAttempt(ops: Ops, attempts: Attempts, threads: map<Tid, Thread>, a: AttemptId, att: Attempt)
    requires ThreadsOk(ops, attempts, threads) && a !in attempts
    ensures ThreadsOk(ops, attempts[a := att], threads)
  {
    forall t | t in threads
      ensures ThreadOk(ops, attempts[a := att], t, threads[t])
    {
      assert ThreadOk(ops, attempts, t, threads[t]);
    }
  }

  lemma NumberedOpen(ops: Ops, attempts: Attempts, o: OpId, row: Operation, a: AttemptId, att: Attempt)
    requires Numbered(ops, attempts) && o in ops && a !in attempts && ops[o].attemptCount >= 0
    requires row.attemptCount == ops[o].attemptCount + 1 == att.number && att.op == o
    ensures Numbered(ops[o := row], attempts[a := att])
  {
    forall p | p in ops
      ensures HasAll(attempts[a := att], p, ops[p].attemptCount)
    {
      HasAllUpdate(attempts, a, att, p, ops[p].attemptCount);
    }
    assert attempts[a := att][a].number == row.attemptCount;
    assert HasAttempt(attempts[a := att], o, row.attemptCount);
  }

  /** A start transaction on an operation nobody carries opens its next attempt. */
  lemma OpenAttempt(s: State, s': State, o: OpId, a: AttemptId, worker: WorkerId)
    requires Inv(s) && o in s.ops && a !in s.attempts && FreeFor(s, None, o)
    requires s.ops[o].attemptCount < AttemptCap(s.ops[o])
    requires s' == s.(ops := Store.Started(s.ops, o, s.ops[o].attemptCount + 1, s.now),
                      attempts := s.attempts[a := Store.OpenedAttempt(o, s.ops[o].attemptCount + 1, worker, s.now)])
    ensures Inv(s')
  {
    ThreadsOkFrame(s.ops, s.attempts, s.threads, o, s'.ops[o]);
    ThreadsOkNewAttempt(s'.ops, s.attempts, s.threads, a, s'.attempts[a]);
    NumberedOpen(s.ops, s.attempts, o, s'.ops[o], a, s'.attempts[a]);
  }

  lemma PushMain(s: State, s': State, job: Job)
    requires Inv(s) && JobOk(s.ops, job) && FreeFor(s, None, job.op)
    requires s' == s.(main := LPush(s.main, job))
    ensures Inv(s')
  {
    assert forall i :: 0 < i < |s'.main| ==> s'.main[i] == s.main[i - 1];
  }

  lemma PopMain(s: State, s': State)
    requires Inv(s) && s.main != []
    requires s' == s.(main := s.main[..|s.main| - 1])
    ensures Inv(s')
    ensures JobOk(s'.ops, s.main[|s.main| - 1]) && FreeFor(s', None, s.main[|s.main| - 1].op)
  {
  }

  lemma AddDelayed(s: State, s': State, job: Job, score: int)
    requires Inv(s) && JobOk(s.ops, job) && FreeFor(s, None, job.op)
    requires s' == s.(delayed := s.delayed[job := score])
    ensures Inv(s')
  {
    assert job !in s.scanned;
  }

  lemma RemoveDelayed(s: State, s': State, job: Job)
    requires Inv(s) && job in s.delayed && s.scanned == []
    requires s' == s.(delayed := s.delayed - {job})
    ensures Inv(s')
    ensures JobOk(s'.ops, job) && FreeFor(s', None, job.op)
  {
  }

  lemma NothingHoldsUnknown(s: State, o: OpId)
    requires Inv(s) && o !in s.ops
    ensures FreeFor(s, None, o)
    ensures forall t :: t in s.threads ==> Created(s.threads[t]) != Some(o)
  {
    forall t | t in s.threads
      ensures Carried(t, s.threads[t]) != Some(o) && Created(s.threads[t]) != Some(o)
    {
      assert ThreadOk(s.ops, s.attempts, t, s.threads[t]);
    }
  }

  lemma KeysUniqueInsert(ops: Ops, o: OpId, row: Operation)
    requires KeysUnique(ops) && o !in ops
    requires row.key.Some? ==> !Store.KeyTaken(ops, row.tenant, row.key.value)
    ensures KeysUnique(ops[o := row])
  {
    if row.key.Some? {
      assert forall p :: p in ops ==> !Store.HoldsKey(ops[p], row.tenant, row.key.value);
    }
  }

  lemma NumberedInsert(ops: Ops, attempts: Attempts, o: OpId, row: Operation)
    requires Numbered(ops, attempts) && Capped(ops) && o !in ops && row.attemptCount == 0
    ensures Numbered(ops[o := row], attempts) && Capped(ops[o := row])
  {
    hide HasAttempt;
  }

  lemma JobsOkInsert(ops: Ops, main: seq<Job>, delayed: map<Job, int>, o: OpId, row: Operation)
    requires JobsOk(ops, main, delayed) && o !in ops
    ensures JobsOk(ops[o := row], main, delayed)
  {
  }

  lemma InsertRow(s: State, s': State, o: OpId, row: Operation)
    requires Inv(s) && o !in s.ops && row.attemptCount == 0
    requires row.key.Some? ==> !Store.KeyTaken(s.ops, row.tenant, row.key.value)
    requires s' == s.(ops := s.ops[o := row])
    ensures Inv(s') && FreeFor(s', None, o)
    ensures forall t :: t in s.threads ==> Created(s.threads[t]) != Some(o)
  {
    hide MainUnique, DelayedUnique, ThreadsUnique, QueuesApart, MainApart, DelayedApart, JobsOk, ThreadsOk;
    hide Capped, Numbered, KeysUnique, CreatorsUnique, ScanOk, Store.KeyTaken, NotInMain, NotInDelayed, NotInThreads;
    NothingHoldsUnknown(s, o);
    ThreadsOkFrame(s.ops, s.attempts, s.threads, o, row);
    KeysUniqueInsert(s.ops, o, row);
    NumberedInsert(s.ops, s.attempts, o, row);
    JobsOkInsert(s.ops, s.main, s.delayed, o, row);
  }

  /** One LPUSH and one ZREM of the same delayed job. */
  lemma PromoteOne(s: State, s': State, job: Job)
    requires Inv(s) && s.scanned == [] && job in s.delayed
    requires s' == s.(main := LPush(s.main, job), delayed := s.delayed - {job})
    ensures Inv(s')
  {
    var s1 := s.(delayed := s.delayed - {job});
    RemoveDelayed(s, s1, job);
    PushMain(s1, s', job);
  }

  lemma {:induction false} PromoteAll(s: State, jobs: seq<Job>)
    requires Inv(s) && s.scanned == []
    requires Distinct(jobs) && Members(s.delayed, jobs)
    ensures Inv(s.(main := LPushAll(s.main, jobs), delayed := ZRemAll(s.delayed, jobs)))
    decreases |jobs|
  {
    if jobs == [] {
      assert ZRemAll(s.delayed, jobs) == s.delayed;
    } else {
      var s2 := s.(main := LPush(s.main, jobs[0]), delayed := s.delayed - {jobs[0]});
      MoveOne(s.delayed, jobs);
      PromoteOne(s, s2, jobs[0]);
      PromoteAll(s2, jobs[1..]);
    }
  }
}
