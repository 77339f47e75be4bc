/** The SQL statements of services/operations/internal/repository, one function per
    atomic row change.  The protocol and the Repository class both use them. */
module Store {
  import opened Model

  predicate HoldsKey(row: Operation, tenant: Tenant, key: string) {
    row.tenant == tenant && row.key == Some(key)
  }

  /** The unique index on (tenant_id, idempotency_key) already has an entry. */
  predicate KeyTaken(ops: Ops, tenant: Tenant, key: string) {
    exists o :: o in ops && HoldsKey(ops[o], tenant, key)
  }

  /** An INSERT of this request would violate the unique index (partial: NULL keys never do). */
  predicate Conflicts(ops: Ops, req: CreateRequest) {
    req.key.Some? && KeyTaken(ops, req.tenant, req.key.value)
  }

  function NewRow(req: CreateRequest, now: nat): Operation {
    Operation(req.tenant, req.key, req.opType, Pending, req.input, None, None,
              0, req.maxRetries, now, None, None)
  }

  // UPDATE ... SET status = QUEUED WHERE id = $2 AND status = PENDING
  function Enqueued(ops: Ops, id: OpId): Ops {
    if id in ops && ops[id].status == Pending then ops[id := ops[id].(status := Queued)] else ops
  }

  // UPDATE ... SET status = RUNNING, attempt_count, started_at WHERE id: no status guard
  function Started(ops: Ops, id: OpId, number: int, now: nat): Ops {
    if id !in ops then ops else
    var row := ops[id];
    ops[id := row.(status := Running, attemptCount := number,
                   startedAt := if row.startedAt.None? then Some(now) else row.startedAt)]
  }

  function OpenedAttempt(id: OpId, number: int, worker: WorkerId, now: nat): Attempt {
    Attempt(id, number, worker, now, None, None, None, None, None, None)
  }

  // guarded by status = RUNNING
  function FinishedSuccess(ops: Ops, id: OpId, output: string, now: nat): Ops {
    if id in ops && ops[id].status == Running then
      ops[id := ops[id].(status := Succeeded, output := Some(output),
                         completedAt := Some(now), errorMessage := None)]
    else ops
  }

  function ClosedSuccess(attempts: Attempts, a: AttemptId, provider: string, latencyMs: int, now: nat): Attempts {
    if a in attempts then
      attempts[a := attempts[a].(finishedAt := Some(now), success := Some(true),
                                 provider := Some(provider), latencyMs := Some(latencyMs))]
    else attempts
  }

  function NextStatus(category: Category, willRetry: bool): Status {
    if willRetry then Retrying else if category == Permanent then Failed else DeadLettered
  }

  // guarded by status = RUNNING
  function FinishedFailure(ops: Ops, id: OpId, next: Status, detail: string, now: nat): Ops {
    if id in ops && ops[id].status == Running then
      ops[id := ops[id].(status := next, errorMessage := Some(detail),
                         completedAt := if next in {Failed, DeadLettered} then Some(now) else ops[id].completedAt)]
    else ops
  }

  function ClosedFailure(attempts: Attempts, a: AttemptId, category: Category, detail: string, now: nat): Attempts {
    if a in attempts then
      attempts[a := attempts[a].(finishedAt := Some(now), success := Some(false),
                                 category := Some(category), detail := Some(detail))]
    else attempts
  }

  /** The WHERE clause of the cancel statement. */
  predicate Cancellable(ops: Ops, tenant: Tenant, id: OpId) {
    id in ops && ops[id].tenant == tenant && !IsTerminal(ops[id].status)
  }

  function WithCancel(ops: Ops, tenant: Tenant, id: OpId, now: nat): Ops {
    if Cancellable(ops, tenant, id) then
      ops[id := ops[id].(status := Cancelled, completedAt := Some(now))]
    else ops
  }
}
