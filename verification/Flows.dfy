/** What each handler does to the stores when it runs without interruption, as functions of the
    stores' contents; failing calls are parameters. */
module Flows {
  import opened Model
  import opened JobQueue
  import opened Protocol
  import Redis
  import Store

  /** Contents of PostgreSQL and Redis as far as the operations service uses them. */
  datatype World = World(
    ops: Ops, attempts: Attempts, main: seq<Job>, delayed: map<Job, int>, counters: map<Tenant, int>)

  /** createOperation for a request without a duplicate. */
  function Submitted(w: World, req: CreateRequest, id: OpId, now: nat, enqueueOk: bool, markOk: bool): World {
    var w1 := w.(ops := w.ops[id := Store.NewRow(req, now)]);
    if !enqueueOk then w1 else
    var w2 := w1.(main := LPush(w.main, Job(id, req.tenant, req.opType, 0, now)));
    if !markOk then w2 else w2.(ops := Store.Enqueued(w2.ops, id))
  }

  /** startAttempt for a known operation. */
  function Begun(w: World, op: OpId, worker: WorkerId, number: int, attempt: AttemptId, now: nat, incrOk: bool): World
    requires op in w.ops
  {
    w.(ops := Store.Started(w.ops, op, number, now),
       attempts := w.attempts[attempt := Store.OpenedAttempt(op, number, worker, now)],
       counters := if incrOk then Redis.Incremented(w.counters, w.ops[op].tenant) else w.counters)
  }

  /** completeAttempt for a known operation. */
  function Completed(w: World, op: OpId, attempt: AttemptId, report: Report, jitter: nat, now: nat,
                     decrOk: bool, setOk: bool, scheduleOk: bool): World
    requires op in w.ops
  {
    var seen := w.ops[op];
    var freed := w.(counters := Redis.Released(w.counters, seen.tenant, decrOk, setOk));
    match report
    case Success(output, provider, latencyMs) =>
      freed.(ops := Store.FinishedSuccess(w.ops, op, output, now),
             attempts := Store.ClosedSuccess(w.attempts, attempt, provider, latencyMs, now))
    case Failure(category, detail) =>
      var retry := WillRetry(report, seen);
      freed.(ops := Store.FinishedFailure(w.ops, op, Store.NextStatus(category, retry), detail, now),
             attempts := Store.ClosedFailure(w.attempts, attempt, category, detail, now),
             delayed := if retry && scheduleOk then w.delayed[RetryJob(op, seen, now) := ReadyAt(seen, jitter, now)]
                        else w.delayed)
  }

  /** The terminal status whose side effects completeAttempt starts, if any. */
  function Announced(w: World, op: OpId, report: Report): Option<Status>
    requires op in w.ops
  {
    match report
    case Success(_, _, _) => Some(Succeeded)
    case Failure(category, _) =>
      if WillRetry(report, w.ops[op]) then None else Some(Store.NextStatus(category, false))
  }

  // ---- the worker ----

  /** What becomes of one HTTP request: executed and answered, never executed, or executed with
      the answer lost.  All but the first raise an exception in the caller. */
  datatype Fate = Answered | Unsent | Unanswered

  datatype Network = Network(fetchOk: bool, start: Fate, success: Fate, failure: Fate)

  const NO_FAULTS := Network(true, Answered, Answered, Answered)

  predicate Runnable(w: World, job: Job) {
    job.op in w.ops && !IsTerminal(w.ops[job.op].status)
  }

  function WorkerException(): Report { Failure(Transient, "worker exception") }

  function Opening(w: World, job: Job, worker: WorkerId, attempt: AttemptId, now: nat, fate: Fate): (w': World)
    requires job.op in w.ops
    ensures job.op in w'.ops
  {
    if fate == Unsent then w else Begun(w, job.op, worker, w.ops[job.op].attemptCount + 1, attempt, now, true)
  }

  function Reported(w: World, op: OpId, attempt: AttemptId, report: Report, jitter: nat, now: nat,
      fate: Fate): (w': World)
    requires op in w.ops
    ensures op in w'.ops
  {
    if fate == Unsent then w else Completed(w, op, attempt, report, jitter, now, true, true, true)
  }

  /** process_job: `report` is what the providers produce. */
  function Processed(w: World, job: Job, worker: WorkerId, report: Report, attempt: AttemptId,
                     jitter: nat, now: nat, net: Network): World {
    if !net.fetchOk || !Runnable(w, job) then w else
    var w1 := Opening(w, job, worker, attempt, now, net.start);
    if net.start != Answered then w1 else
    if report.Failure? then Reported(w1, job.op, attempt, report, jitter, now, net.failure) else
    var w2 := Reported(w1, job.op, attempt, report, jitter, now, net.success);
    if net.success == Answered then w2
    else Reported(w2, job.op, attempt, WorkerException(), jitter, now, net.failure)
  }

  /** An exception inside an except clause leaves process_job and ends the worker. */
  predicate Crashes(w: World, job: Job, report: Report, net: Network) {
    net.fetchOk && Runnable(w, job) && net.start == Answered && net.failure != Answered &&
    (report.Failure? || net.success != Answered)
  }

  /** One turn of the polling loop: whether the popped envelope parses, and what processing meets. */
  datatype Turn = Turn(parses: bool, report: Report, attempt: AttemptId, jitter: nat, now: nat, net: Network)

  /** The polling loop over these turns; None once the worker has died. */
  function Polled(w: World, worker: WorkerId, turns: seq<Turn>): (r: (World, bool)) {
    if turns == [] then (w, true) else
    var (w1, alive) := Polled(w, worker, turns[..|turns| - 1]);
    if !alive then (w1, false) else PolledOnce(w1, worker, turns[|turns| - 1])
  }

  function PolledOnce(w: World, worker: WorkerId, turn: Turn): (World, bool) {
    if w.main == [] then (w, true) else
    var job := w.main[|w.main| - 1];
    var w1 := w.(main := w.main[..|w.main| - 1]);
    if !turn.parses then (w1, true)
    else (Processed(w1, job, worker, turn.report, turn.attempt, turn.jitter, turn.now, turn.net),
          !Crashes(w1, job, turn.report, turn.net))
  }
}
