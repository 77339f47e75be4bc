/** services/operations/internal/handler and sideeffects: request handlers as methods that run
    their statements one after another on the repository and the queue. */
module Handlers {
  import opened Model
  import opened JobQueue
  import opened Protocol
  import opened Flows
  import Backoff
  import Dispatch
  import Listing
  import Postgres
  import Redis
  import Store
  import Usage

  const MAX_RETRIES: int := 3

  /** HTTP replies: the status class and what the body carries. */
  datatype Reply =
    | Unauthorized | BadRequest | NotFound | Conflict | InternalError | NoContent
    | Existing(op: OpId, row: Operation)   // 200
    | Accepted(op: OpId, row: Operation)   // 202
    | Found(row: Operation)
    | Page(rows: seq<Operation>, limit: nat)
    | AttemptStarted(attempt: AttemptId)
    | Now(status: Status)

  /** The JSON body of a create request; decoding may fail. */
  datatype CreateBody = CreateBody(opType: string, input: string)

  datatype CompleteBody = CompleteBody(attempt: AttemptId, report: Report)

  function EventName(kind: EventKind): string {
    match kind
    case OperationSucceeded => "operation.succeeded"
    case OperationFailed => "operation.failed"
    case OperationDeadLettered => "operation.dead_lettered"
  }

  /** The request to Service 3 that announces an event. */
  function NoticeOf(event: Event, data: Option<string>): Dispatch.Notice {
    Dispatch.Notice(event.tenant, event.op, EventName(event.kind), data)
  }

  /** sideeffects.Notifier together with the part of Service 3 it calls. */
  class Notifier {
    const usage: Usage.UsageRepository
    var notices: seq<Dispatch.Notice>

    constructor (usage: Usage.UsageRepository)
      ensures this.usage == usage && notices == []
    {
      this.usage := usage;
      notices := [];
    }

    method DispatchWebhook(notice: Dispatch.Notice)
      modifies this`notices
      ensures notices == old(notices) + [notice]
    {
      notices := notices + [notice];
    }

    method NotifySuccess(tenant: Tenant, op: OpId, output: string, now: nat)
      modifies this`notices, usage
      ensures usage.ledger == Recorded(old(usage.ledger), tenant, op, 1, now)
      ensures notices == old(notices) + [NoticeOf(Event(tenant, op, OperationSucceeded), Some(output))]
      ensures op in old(usage.ledger) ==> usage.ledger == old(usage.ledger)
      ensures op !in old(usage.ledger) ==> usage.ledger == old(usage.ledger)[op := UsageRow(tenant, 1, now)]
      ensures notices == old(notices) + [Dispatch.Notice(tenant, op, "operation.succeeded", Some(output))]
    {
      usage.RecordUsage(tenant, op, 1, now);
      DispatchWebhook(Dispatch.Notice(tenant, op, "operation.succeeded", Some(output)));
    }

    method NotifyTerminalFailure(tenant: Tenant, op: OpId, status: Status)
      modifies this`notices
      ensures notices == old(notices) + [NoticeOf(Event(tenant, op, KindOf(status)), None)]
      ensures status == Failed ==> notices == old(notices) + [Dispatch.Notice(tenant, op, "operation.failed", None)]
      ensures status == DeadLettered ==>
                notices == old(notices) + [Dispatch.Notice(tenant, op, "operation.dead_lettered", None)]
    {
      var name := "operation.failed";
      if status == DeadLettered { name := "operation.dead_lettered"; }
      DispatchWebhook(Dispatch.Notice(tenant, op, name, None));
    }
  }

  class Handler {
    const repo: Postgres.Repository
    const q: Redis.Queue

    constructor (repo: Postgres.Repository, q: Redis.Queue)
      ensures this.repo == repo && this.q == q
    {
      this.repo := repo;
      this.q := q;
    }

    ghost function Contents(): World
      reads repo, q
    {
      World(repo.ops, repo.attempts, q.main, q.delayed, q.counters)
    }

    /** `tid` is the tenant header, `body` the decoded body, `key` the Idempotency-Key header. */
    method CreateOperation(tid: Option<Tenant>, body: Option<CreateBody>, key: string, id: OpId, now: nat,
                           meanwhile: Ops, enqueueOk: bool, markOk: bool)
      returns (reply: Reply)
      requires repo.Valid() && Postgres.Carrier.KeysUnique(meanwhile)
      requires Postgres.Grows(repo.ops, meanwhile) && id !in meanwhile
      modifies repo`ops, q`main
      ensures repo.Valid()
      ensures tid.None? ==> reply == Unauthorized && Contents() == old(Contents())
      ensures tid.Some? && (body.None? || body.value.opType == "") ==>
                reply == BadRequest && Contents() == old(Contents())
      ensures tid.Some? && body.Some? && body.value.opType != "" ==>
                var req := Request(tid.value, body.value, key);
                if Store.Conflicts(meanwhile, req) then
                  reply.Existing? && reply.op in repo.ops && reply.row == repo.ops[reply.op] &&
                  Store.HoldsKey(reply.row, req.tenant, key) &&
                  (Contents() == old(Contents()) || Contents() == old(Contents()).(ops := meanwhile))
                else
                  Contents() == Submitted(old(Contents()).(ops := meanwhile), req, id, now, enqueueOk, markOk) &&
                  reply == if !enqueueOk || !markOk then InternalError
                           else Accepted(id, Store.NewRow(req, now).(status := Queued))
      ensures tid.Some? && body.Some? && body.value.opType != "" ==>
                (reply.Existing? <==>
                   key != "" &&
                   exists o :: o in meanwhile && meanwhile[o].tenant == tid.value && meanwhile[o].key == Some(key))
      ensures tid.Some? && body.Some? && body.value.opType != "" && !reply.Existing? ==>
                var stored := if key != "" then Some(key) else None;
                var row := Operation(tid.value, stored, body.value.opType, Pending, body.value.input, None, None, 0, 3,
                                     now, None, None);
                var job := Job(id, tid.value, body.value.opType, 0, now);
                if !enqueueOk then
                  reply == InternalError && repo.ops == meanwhile[id := row] && q.main == old(q.main)
                else if !markOk then
                  reply == InternalError && repo.ops == meanwhile[id := row] && q.main == [job] + old(q.main)
                else
                  var queued := row.(status := Queued);
                  reply == Accepted(id, queued) && repo.ops == meanwhile[id := queued] &&
                  q.main == [job] + old(q.main)
    {
      if tid.None? { return Unauthorized; }
      if body.None? || body.value.opType == "" { return BadRequest; }
      var req := Request(tid.value, body.value, key);
      var op, existed := repo.CreateOperation(req, id, now, meanwhile);
      if existed { return Existing(op, repo.ops[op]); }
      var row := repo.ops[op];
      if !enqueueOk { return InternalError; }
      q.Enqueue(Job(op, tid.value, row.opType, 0, now));
      if !markOk { return InternalError; }
      repo.TransitionToQueued(op);
      return Accepted(op, row.(status := Queued));
    }

    static function Request(tid: Tenant, body: CreateBody, key: string): CreateRequest {
      CreateRequest(tid, if key != "" then Some(key) else None, body.opType, body.input, MAX_RETRIES)
    }

    method GetOperation(tid: Tenant, id: OpId) returns (reply: Reply)
      ensures reply == if id in repo.ops && repo.ops[id].tenant == tid then Found(repo.ops[id]) else NotFound
    {
      var row := repo.GetOperation(tid, id);
      if row.None? { return NotFound; }
      return Found(row.value);
    }

    static function Limit(limit: int): nat { if limit <= 0 || limit > 100 then 25 else limit }

    /** PostgreSQL rejects a negative OFFSET; `rows` is its answer otherwise. */
    method ListOperations(tid: Tenant, status: Option<Status>, limit: int, offset: int, rows: seq<OpId>)
      returns (reply: Reply)
      requires offset >= 0 ==> Listing.IsPage(repo.ops, Listing.ListFilter(tid, status, Limit(limit), offset), rows)
      ensures offset < 0 ==> reply == InternalError
      ensures offset >= 0 ==>
                reply.Page? && |reply.rows| == |rows| && |reply.rows| <= 100 &&
                (forall i :: 0 <= i < |rows| ==> rows[i] in repo.ops && reply.rows[i] == repo.ops[rows[i]]) &&
                (forall row :: row in reply.rows ==> row.tenant == tid && (status.Some? ==> row.status == status.value))
      ensures offset >= 0 ==>
                var lim := if 1 <= limit <= 100 then limit else 25;
                var wanted := set id | id in repo.ops && repo.ops[id].tenant == tid &&
                                       (status == None || status == Some(repo.ops[id].status));
                reply.Page? && reply.limit == lim &&
                |reply.rows| == if offset >= |wanted| then 0
                                else if |wanted| - offset < lim then |wanted| - offset else lim
    {
      var lim := limit;
      if lim <= 0 || lim > 100 { lim := 25; }
      if offset < 0 { return InternalError; }
      var f := Listing.ListFilter(tid, status, lim, offset);
      Listing.PageFacts(repo.ops, f, rows);
      var out := repo.ListOperations(f, rows);
      assert Listing.Wanted(repo.ops, tid, status) ==
             set o | o in repo.ops && repo.ops[o].tenant == tid &&
                     (status == None || status == Some(repo.ops[o].status));
      return Page(out, lim);
    }

    method CancelOperation(tid: Tenant, id: OpId, now: nat) returns (reply: Reply)
      modifies repo`ops
      ensures reply == if Store.Cancellable(old(repo.ops), tid, id) then NoContent else Conflict
      ensures repo.ops == Store.WithCancel(old(repo.ops), tid, id, now)
      ensures reply == NoContent <==>
                id in old(repo.ops) && old(repo.ops)[id].tenant == tid &&
                old(repo.ops)[id].status !in {Succeeded, Failed, DeadLettered, Cancelled}
      ensures repo.ops == if reply == NoContent
                          then old(repo.ops)[id := old(repo.ops)[id].(status := Cancelled, completedAt := Some(now))]
                          else old(repo.ops)
    {
      var ok := repo.CancelOperation(tid, id, now);
      if !ok { return Conflict; }
      return NoContent;
    }

    method StartAttempt(op: OpId, worker: WorkerId, number: int, attempt: AttemptId, now: nat, incrOk: bool)
      returns (reply: Reply)
      requires attempt !in repo.attempts
      modifies repo, q`counters
      ensures op !in old(repo.ops) ==> reply == InternalError && Contents() == old(Contents())
      ensures op in old(repo.ops) ==>
                reply == AttemptStarted(attempt) &&
                Contents() == Begun(old(Contents()), op, worker, number, attempt, now, incrOk)
      ensures op in old(repo.ops) ==>
                var row := old(repo.ops)[op];
                var started := if row.startedAt.Some? then row.startedAt else Some(now);
                var att := Attempt(op, number, worker, now, None, None, None, None, None, None);
                repo.ops ==
                  old(repo.ops)[op := row.(status := Running, attemptCount := number, startedAt := started)] &&
                repo.attempts == old(repo.attempts)[attempt := att] &&
                q.counters == if !incrOk then old(q.counters)
                              else old(q.counters)[row.tenant := Counter(old(q.counters), row.tenant) + 1]
    {
      var ok := repo.StartAttempt(op, worker, number, attempt, now);
      if !ok { return InternalError; }
      var row := repo.GetOperationAnyTenant(op);
      if row.Some? && incrOk { q.IncrConcurrency(row.value.tenant); }
      return AttemptStarted(attempt);
    }

    /** What the announcement of an outcome carries. */
    static function DataOf(report: Report): Option<string> {
      if report.Success? then Some(report.output) else None
    }

    /** The goroutine it starts is returned as `notice`, to be run by the Notifier. */
    method CompleteAttempt(op: OpId, body: CompleteBody, jitter: nat, now: nat, decrOk: bool, setOk: bool,
        scheduleOk: bool)
      returns (reply: Reply, notice: Option<(Tenant, OpId, Status, Option<string>)>)
      modifies repo, q`counters, q`delayed
      ensures op !in old(repo.ops) ==> reply == NotFound && notice == None && Contents() == old(Contents())
      ensures op in old(repo.ops) ==>
                Contents() ==
                  Completed(old(Contents()), op, body.attempt, body.report, jitter, now, decrOk, setOk, scheduleOk) &&
                notice == (match Announced(old(Contents()), op, body.report)
                           case Some(status) => Some((old(repo.ops[op].tenant), op, status, DataOf(body.report)))
                           case None => None)
      ensures q.main == old(q.main)
      ensures op in old(repo.ops) ==>
                var tenant := old(repo.ops)[op].tenant;
                var val := Counter(old(q.counters), tenant) - 1;
                q.counters == if !decrOk then old(q.counters)
                              else old(q.counters)[tenant := if val < 0 && setOk then 0 else val]
      ensures op in old(repo.ops) && body.report.Success? ==>
                var row, report := old(repo.ops)[op], body.report;
                repo.ops == (if row.status != Running then old(repo.ops)
                             else old(repo.ops)[op := row.(status := Succeeded, output := Some(report.output),
                                                           errorMessage := None, completedAt := Some(now))]) &&
                repo.attempts == (if body.attempt !in old(repo.attempts) then old(repo.attempts)
                                  else old(repo.attempts)[body.attempt := old(repo.attempts)[body.attempt].(
                                         finishedAt := Some(now), success := Some(true),
                                         provider := Some(report.provider), latencyMs := Some(report.latencyMs))]) &&
                q.delayed == old(q.delayed) &&
                notice == Some((row.tenant, op, Succeeded, Some(report.output))) && reply == Now(Succeeded)
      ensures op in old(repo.ops) && body.report.Failure? ==>
                var row, report := old(repo.ops)[op], body.report;
                var retry := report.category == Transient && row.attemptCount < row.maxRetries;
                var next := if retry then Retrying else if report.category == Permanent then Failed else DeadLettered;
                var job := Job(op, row.tenant, row.opType, row.attemptCount, now);
                var readyAt := (now + Backoff.BackoffDelay(row.attemptCount, jitter)) / 1_000_000_000;
                var ended := if retry then row.completedAt else Some(now);
                repo.ops == (if row.status != Running then old(repo.ops)
                             else old(repo.ops)[op := row.(status := next, errorMessage := Some(report.detail),
                                                           completedAt := ended)]) &&
                repo.attempts == (if body.attempt !in old(repo.attempts) then old(repo.attempts)
                                  else old(repo.attempts)[body.attempt := old(repo.attempts)[body.attempt].(
                                         finishedAt := Some(now), success := Some(false),
                                         category := Some(report.category), detail := Some(report.detail))]) &&
                q.delayed == (if retry && scheduleOk then old(q.delayed)[job := readyAt] else old(q.delayed)) &&
                notice == (if retry then None else Some((row.tenant, op, next, None))) &&
                reply == if retry && !scheduleOk then InternalError else Now(next)
    {
      var found := repo.GetOperationAnyTenant(op);
      if found.None? { return NotFound, None; }
      var seen := found.value;
      var decremented := q.counters[seen.tenant := Counter(q.counters, seen.tenant) - 1];
      var _ := q.DecrConcurrency(seen.tenant, decrOk, setOk, decremented);
      match body.report
      case Success(output, provider, latencyMs) =>
        repo.CompleteAttemptSuccess(op, body.attempt, output, provider, latencyMs, now);
        return Now(Succeeded), Some((seen.tenant, op, Succeeded, Some(output)));
      case Failure(category, detail) =>
        var willRetry := category == Transient && seen.attemptCount < seen.maxRetries;
        var next := repo.CompleteAttemptFailure(op, body.attempt, category, detail, willRetry, now);
        if willRetry {
          var delay := Backoff.BackoffDelay(seen.attemptCount, jitter);
          if !scheduleOk { return InternalError, None; }
          q.ScheduleRetry(Job(op, seen.tenant, seen.opType, seen.attemptCount, now), delay, now);
          return Now(next), None;
        } else {
          return Now(next), Some((seen.tenant, op, next, None));
        }
    }
  }
}
