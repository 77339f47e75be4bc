/** services/operations/internal/repository: the tables of the operations service and the
    statements that change them in place. */
module Postgres {
  import opened Model
  import opened Store
  import Carrier
  import Listing

  /** Later states of the table: rows are never deleted and keep their tenant and key. */
  ghost predicate Grows(ops: Ops, ops': Ops) {
    forall o :: o in ops ==> o in ops' && ops'[o].tenant == ops[o].tenant && ops'[o].key == ops[o].key
  }

  lemma KeyStaysTaken(ops: Ops, ops': Ops, tenant: Tenant, key: string)
    requires Grows(ops, ops') && KeyTaken(ops, tenant, key)
    ensures KeyTaken(ops', tenant, key)
  {
    var o :| o in ops && HoldsKey(ops[o], tenant, key);
    assert HoldsKey(ops'[o], tenant, key);
  }

  /** The unique index survives an INSERT that it does not reject. */
  lemma InsertKeepsIndex(ops: Ops, id: OpId, req: CreateRequest, now: nat)
    requires Carrier.KeysUnique(ops) && id !in ops && !Conflicts(ops, req)
    ensures Carrier.KeysUnique(ops[id := NewRow(req, now)])
  {
    if req.key.Some? {
      forall o | o in ops && ops[o].key == req.key
        ensures ops[o].tenant != req.tenant
      {
        assert !HoldsKey(ops[o], req.tenant, req.key.value);
      }
    }
  }

  class Repository {
    var ops: Ops
    var attempts: Attempts

    ghost predicate Valid() reads this { Carrier.KeysUnique(ops) }

    constructor ()
      ensures Valid() && ops == map[] && attempts == map[]
    {
      ops, attempts := map[], map[];
    }

    method GetByIdempotencyKey(tenant: Tenant, key: string) returns (found: Option<OpId>)
      ensures found.Some? ==> found.value in ops && HoldsKey(ops[found.value], tenant, key)
      ensures found.None? ==> !KeyTaken(ops, tenant, key)
    {
      if id :| id in ops && HoldsKey(ops[id], tenant, key) {
        found := Some(id);
      } else {
        found := None;
      }
    }

    /** Other requests may change the table between the lookup and the INSERT: `meanwhile` is the
        table the INSERT meets.  `id` is the generated key. */
    method CreateOperation(req: CreateRequest, id: OpId, now: nat, meanwhile: Ops) returns (op: OpId, existed: bool)
      requires Valid() && Carrier.KeysUnique(meanwhile) && Grows(ops, meanwhile) && id !in meanwhile
      modifies this`ops
      ensures Valid() && op in ops && ops[op].tenant == req.tenant && ops[op].key == req.key
      ensures existed <==> Conflicts(meanwhile, req)
      ensures existed ==> ops == old(ops) || ops == meanwhile
      ensures !existed ==> op == id && ops == meanwhile[id := NewRow(req, now)]
      ensures !existed ==> ops[id] == Operation(req.tenant, req.key, req.opType, Pending, req.input, None, None,
                                                0, req.maxRetries, now, None, None)
    {
      if req.key.Some? {
        var existing := GetByIdempotencyKey(req.tenant, req.key.value);
        if existing.Some? {
          KeyStaysTaken(ops, meanwhile, req.tenant, req.key.value);
          return existing.value, true;
        }
      }
      ops := meanwhile;
      if o :| o in ops && req.key.Some? && HoldsKey(ops[o], req.tenant, req.key.value) {
        // unique violation: fetch the winner
        var existing := GetByIdempotencyKey(req.tenant, req.key.value);
        return existing.value, true;
      }
      InsertKeepsIndex(ops, id, req, now);
      ops := ops[id := NewRow(req, now)];
      return id, false;
    }

    method GetOperation(tenant: Tenant, id: OpId) returns (row: Option<Operation>)
      ensures row == Listing.Lookup(ops, tenant, id)
      ensures row == if id in ops && ops[id].tenant == tenant then Some(ops[id]) else None
    {
      if id in ops && ops[id].tenant == tenant { row := Some(ops[id]); } else { row := None; }
    }

    method GetOperationAnyTenant(id: OpId) returns (row: Option<Operation>)
      ensures row == if id in ops then Some(ops[id]) else None
    {
      if id in ops { row := Some(ops[id]); } else { row := None; }
    }

    /** `rows` is the page the database answers with; the loop scans it into records. */
    method ListOperations(f: Listing.ListFilter, rows: seq<OpId>) returns (out: seq<Operation>)
      requires Listing.IsPage(ops, f, rows)
      ensures |out| == |rows|
      ensures forall i :: 0 <= i < |out| ==>
                rows[i] in ops && out[i] == ops[rows[i]] && out[i].tenant == f.tenant &&
                (f.status.Some? ==> out[i].status == f.status.value)
      ensures forall i, j :: 0 <= i < j < |out| ==> out[j].createdAt <= out[i].createdAt
    {
      Listing.PageFacts(ops, f, rows);
      out := [];
      for i := 0 to |rows|
        invariant |out| == i
        invariant forall k :: 0 <= k < i ==> out[k] == ops[rows[k]]
      {
        out := out + [ops[rows[i]]];
      }
    }

    method TransitionToQueued(id: OpId)
      modifies this`ops
      ensures ops == Enqueued(old(ops), id)
    {
      if id in ops && ops[id].status == Pending {
        ops := ops[id := ops[id].(status := Queued)];
      }
    }

    /** One transaction; the foreign key rejects an attempt of an unknown operation. */
    method StartAttempt(id: OpId, worker: WorkerId, number: int, attempt: AttemptId, now: nat) returns (ok: bool)
      requires attempt !in attempts
      modifies this
      ensures ok == (id in old(ops))
      ensures ops == Started(old(ops), id, number, now)
      ensures attempts == if ok then old(attempts)[attempt := OpenedAttempt(id, number, worker, now)] else old(attempts)
      ensures ok ==>
                var row := old(ops)[id];
                ops[id] == row.(status := Running, attemptCount := number,
                                startedAt := if row.startedAt.Some? then row.startedAt else Some(now)) &&
                attempts[attempt] == Attempt(id, number, worker, now, None, None, None, None, None, None)
    {
      if id !in ops { return false; }
      var row := ops[id];
      row := row.(status := Running, attemptCount := number);
      if row.startedAt.None? { row := row.(startedAt := Some(now)); }
      ops := ops[id := row];
      attempts := attempts[attempt := OpenedAttempt(id, number, worker, now)];
      return true;
    }

    method CompleteAttemptSuccess(id: OpId, attempt: AttemptId, output: string, provider: string, latencyMs: int,
        now: nat)
      modifies this
      ensures ops == FinishedSuccess(old(ops), id, output, now)
      ensures attempts == ClosedSuccess(old(attempts), attempt, provider, latencyMs, now)
      ensures id in old(ops) && old(ops)[id].status == Running ==>
                ops[id] == old(ops)[id].(status := Succeeded, output := Some(output), completedAt := Some(now),
                                         errorMessage := None)
      ensures attempt in old(attempts) ==>
                attempts[attempt] == old(attempts)[attempt].(finishedAt := Some(now), success := Some(true),
                                                             provider := Some(provider), latencyMs := Some(latencyMs))
    {
      if attempt in attempts {
        var att := attempts[attempt];
        attempts := attempts[attempt := att.(finishedAt := Some(now), success := Some(true),
                                             provider := Some(provider), latencyMs := Some(latencyMs))];
      }
      if id in ops && ops[id].status == Running {
        ops := ops[id := ops[id].(status := Succeeded, output := Some(output),
                                  completedAt := Some(now), errorMessage := None)];
      }
    }

    method CompleteAttemptFailure(id: OpId, attempt: AttemptId, category: Category, detail: string,
        willRetry: bool, now: nat)
      returns (next: Status)
      modifies this
      ensures next == NextStatus(category, willRetry)
      ensures ops == FinishedFailure(old(ops), id, next, detail, now)
      ensures attempts == ClosedFailure(old(attempts), attempt, category, detail, now)
      ensures next == if willRetry then Retrying else if category == Permanent then Failed else DeadLettered
      ensures id in old(ops) && old(ops)[id].status == Running ==>
                ops[id] == old(ops)[id].(status := next, errorMessage := Some(detail),
                                         completedAt := if willRetry then old(ops)[id].completedAt else Some(now))
      ensures attempt in old(attempts) ==>
                attempts[attempt] == old(attempts)[attempt].(finishedAt := Some(now), success := Some(false),
                                                             category := Some(category), detail := Some(detail))
    {
      if attempt in attempts {
        var att := attempts[attempt];
        attempts := attempts[attempt := att.(finishedAt := Some(now), success := Some(false),
                                             category := Some(category), detail := Some(detail))];
      }
      if willRetry {
        next := Retrying;
      } else if category == Permanent {
        next := Failed;
      } else {
        next := DeadLettered;
      }
      if id in ops && ops[id].status == Running {
        var row := ops[id].(status := next, errorMessage := Some(detail));
        if next == Failed || next == DeadLettered { row := row.(completedAt := Some(now)); }
        ops := ops[id := row];
      }
    }

    method CancelOperation(tenant: Tenant, id: OpId, now: nat) returns (ok: bool)
      modifies this`ops
      ensures ok <==> Cancellable(old(ops), tenant, id)
      ensures ops == WithCancel(old(ops), tenant, id, now)
      ensures ok ==> ops[id] == old(ops)[id].(status := Cancelled, completedAt := Some(now))
    {
      ok := id in ops && ops[id].tenant == tenant && !IsTerminal(ops[id].status);
      if ok { ops := ops[id := ops[id].(status := Cancelled, completedAt := Some(now))]; }
    }
  }
}
