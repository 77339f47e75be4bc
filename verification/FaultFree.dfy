/** What fault-free runs keep on top of the carrier invariant: outcomes match the attempt
    history, no operation is orphaned, billing and notification follow the outcome. */
module FaultFree {
  import opened Model
  import opened JobQueue
  import opened Protocol
  import opened Carrier

  predicate FailedAs(att: Attempt, category: Category) {
    att.success == Some(false) && att.category == Some(category)
  }

  ghost predicate LastTransient(attempts: Attempts, o: OpId, n: int) {
    forall a :: a in attempts && attempts[a].op == o && attempts[a].number == n ==> FailedAs(attempts[a], Transient)
  }

  /** Ready for another attempt, or cancelled meanwhile: all attempts so far failed transiently. */
  ghost predicate Clean(ops: Ops, attempts: Attempts, o: OpId) {
    o in ops && Startable(ops[o].status) && LastTransient(attempts, o, ops[o].attemptCount)
  }

  /** An attempt under way. */
  predicate Live(ops: Ops, attempts: Attempts, o: OpId, a: AttemptId) {
    o in ops && a in attempts && attempts[a].op == o && ops[o].status in {Running, Cancelled} &&
        attempts[a].success == None
  }

  predicate KindOk(ops: Ops, ledger: map<OpId, UsageRow>, o: OpId, kind: EventKind) {
    && o in ops
    && match kind
       case OperationSucceeded => ops[o].status in {Succeeded, Cancelled} && o in ledger
       case OperationFailed => ops[o].status in {Failed, Cancelled}
       case OperationDeadLettered => ops[o].status in {DeadLettered, Cancelled}
  }

  ghost predicate ThreadClean(ops: Ops, attempts: Attempts, ledger: map<OpId, UsageRow>, t: Tid, th: Thread) {
    match th
    case Popped(job) => Clean(ops, attempts, job.op)
    case Starting(o, _, _) => t.Worker? && Clean(ops, attempts, o)
    case Opened(o, a) => t.Worker? && Live(ops, attempts, o, a)
    case Resolved(o, a, _) => t.Worker? && Live(ops, attempts, o, a)
    case Working(o, a) => Live(ops, attempts, o, a)
    case Reporting(o, a, report, stage) =>
      t.Worker? && (report.Failure? ==> report.category in {Transient, Permanent}) &&
      (if stage.Retry? then Clean(ops, attempts, o) && ops[o].status in {Retrying, Cancelled}
       else Live(ops, attempts, o, a))
    case Submitting(_, o) => Clean(ops, attempts, o)
    case Metering(_, o) => o in ops && ops[o].status in {Succeeded, Cancelled}
    case Announcing(_, o, kind) => KindOk(ops, ledger, o, kind)
    case _ => true
  }

  ghost predicate ThreadsClean(ops: Ops, attempts: Attempts, ledger: map<OpId, UsageRow>, threads: map<Tid, Thread>) {
    forall t :: t in threads ==> ThreadClean(ops, attempts, ledger, t, threads[t])
  }

  ghost predicate JobsClean(ops: Ops, attempts: Attempts, main: seq<Job>, delayed: map<Job, int>) {
    && (forall i :: 0 <= i < |main| ==> Clean(ops, attempts, main[i].op))
    && (forall j :: j in delayed ==> Clean(ops, attempts, j.op))
  }

  /** The operation whose terminal side effects a goroutine is carrying out. */
  function Ending(th: Thread): Option<OpId> {
    match th
    case Metering(_, o) => Some(o)
    case Announcing(_, o, _) => Some(o)
    case _ => None
  }

  /** Once an outcome is on its way out, the operation has no carrier left. */
  ghost predicate OverFree(s: State) {
    && (forall t :: t in s.threads && Ending(s.threads[t]).Some? ==> FreeFor(s, None, Ending(s.threads[t]).value))
    && (forall i :: 0 <= i < |s.events| ==> FreeFor(s, None, s.events[i].op))
    && (forall o :: o in s.ledger ==> FreeFor(s, None, o))
  }

  ghost predicate EndOnce(ledger: map<OpId, UsageRow>, threads: map<Tid, Thread>, events: seq<Event>) {
    && (forall t, u :: t in threads && u in threads && t != u && Ending(threads[t]).Some? ==>
          Ending(threads[t]) != Ending(threads[u]))
    && (forall i, j :: 0 <= i < j < |events| ==> events[i].op != events[j].op)
    && (forall i, t :: 0 <= i < |events| && t in threads ==> Ending(threads[t]) != Some(events[i].op))
    && (forall t :: t in threads && threads[t].Metering? ==> threads[t].op !in ledger)
  }

  ghost predicate EventsOk(ops: Ops, ledger: map<OpId, UsageRow>, events: seq<Event>) {
    forall i :: 0 <= i < |events| ==>
      KindOk(ops, ledger, events[i].op, events[i].kind) && TenantOk(ops, events[i].tenant, events[i].op)
  }

  ghost predicate LedgerOk(ops: Ops, ledger: map<OpId, UsageRow>) {
    forall o :: o in ledger ==>
      TenantOk(ops, ledger[o].tenant, o) && ledger[o].units == 1 && ops[o].status in {Succeeded, Cancelled}
  }

  ghost predicate MeteringFor(threads: map<Tid, Thread>, o: OpId) {
    exists t :: t in threads && threads[t].Metering? && threads[t].op == o
  }

  /** Every success is billed or about to be. */
  ghost predicate Billed(ops: Ops, ledger: map<OpId, UsageRow>, threads: map<Tid, Thread>) {
    forall o :: o in ops && ops[o].status == Succeeded ==> o in ledger || MeteringFor(threads, o)
  }

  ghost predicate NoOrphan(s: State) {
    forall o :: o in s.ops && !IsTerminal(s.ops[o].status) ==> !FreeFor(s, None, o)
  }

  predicate LastOk(row: Operation, att: Attempt) {
    match row.status
    case Succeeded => att.success == Some(true)
    case Failed => FailedAs(att, Permanent)
    case DeadLettered => FailedAs(att, Transient) && row.attemptCount >= row.maxRetries
    case Retrying => FailedAs(att, Transient)
    case _ => true
  }

  ghost predicate History(ops: Ops, attempts: Attempts) {
    && (forall a :: a in attempts && attempts[a].op in ops ==>
          var row := ops[attempts[a].op];
          (attempts[a].number < row.attemptCount ==> FailedAs(attempts[a], Transient)) &&
          (attempts[a].number == row.attemptCount ==> LastOk(row, attempts[a])))
    && (forall o :: o in ops && ops[o].status in {Succeeded, Failed, DeadLettered, Retrying, Running} ==>
        ops[o].attemptCount >= 1)
  }

  ghost predicate Local(s: State) {
    && ThreadsClean(s.ops, s.attempts, s.ledger, s.threads)
    && JobsClean(s.ops, s.attempts, s.main, s.delayed)
    && History(s.ops, s.attempts)
  }

  ghost predicate Ends(s: State) {
    && EndOnce(s.ledger, s.threads, s.events)
    && EventsOk(s.ops, s.ledger, s.events)
    && LedgerOk(s.ops, s.ledger)
    && Billed(s.ops, s.ledger, s.threads)
  }

  ghost predicate Inv0(s: State) {
    Local(s) && OverFree(s) && Ends(s) && NoOrphan(s)
  }
}
