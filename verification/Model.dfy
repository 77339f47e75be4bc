/** Rows and status values of the operations service (services/operations/internal/model). */
module Model {

  datatype Option<+T> = None | Some(value: T)

  // Identifiers are opaque: only equality and freshness are ever used.
  type Tenant = nat
  type OpId = nat
  type AttemptId = nat
  type WorkerId = nat

  datatype Status =
    | Pending | Queued | Running | Retrying
    | Succeeded | Failed | DeadLettered | Cancelled

  /** The lookup in the terminal-status table. */
  predicate IsTerminal(status: Status) {
    status in {Succeeded, Failed, DeadLettered, Cancelled}
  }

  datatype Category = Transient | Permanent | Unrecognized

  datatype Operation = Operation(
    tenant: Tenant, key: Option<string>, opType: string, status: Status,
    input: string, output: Option<string>, errorMessage: Option<string>,
    attemptCount: int, maxRetries: int,
    createdAt: nat, startedAt: Option<nat>, completedAt: Option<nat>)

  datatype Attempt = Attempt(
    op: OpId, number: int, worker: WorkerId, startedAt: nat, finishedAt: Option<nat>,
    success: Option<bool>, provider: Option<string>, latencyMs: Option<int>,
    category: Option<Category>, detail: Option<string>)

  /** A validated create request together with the tenant the gateway injected. */
  datatype CreateRequest = CreateRequest(
    tenant: Tenant, key: Option<string>, opType: string, input: string, maxRetries: int)

  /** The number of attempts an operation may use: the first one is never refused. */
  function AttemptCap(row: Operation): int {
    if row.maxRetries < 1 then 1 else row.maxRetries
  }

  type Ops = map<OpId, Operation>
  type Attempts = map<AttemptId, Attempt>
}
