/** The usage ledger of services/usage-webhooks: one row per operation however often and in
    whatever order its records arrive, and a monthly bill that counts operations. */
module Usage {
  import opened Model
  import opened Protocol
  import opened FaultFree
  import FaultFreeRuns
  import Sums

  type Ledger = map<OpId, UsageRow>

  /** The rows the summary query aggregates. */
  function Charged(ledger: Ledger, tenant: Tenant, since: nat): map<OpId, int> {
    map o | o in ledger && ledger[o].tenant == tenant && ledger[o].recordedAt >= since :: ledger[o].units
  }

  ghost function UnitsConsumed(ledger: Ledger, tenant: Tenant, since: nat): int {
    Sums.Sum(Charged(ledger, tenant, since))
  }

  datatype Summary = Summary(totalOperations: nat, unitsConsumed: int, monthlyQuota: int, quotaRemaining: int)

  /** usage_events with the statements that touch it. */
  class UsageRepository {
    var ledger: Ledger

    constructor ()
      ensures ledger == map[]
    {
      ledger := map[];
    }

    method RecordUsage(tenant: Tenant, op: OpId, units: int, now: nat)
      modifies this
      ensures ledger == Recorded(old(ledger), tenant, op, units, now)
    {
      if op !in ledger {
        ledger := ledger[op := UsageRow(tenant, units, now)];
      }
    }

    /** `total` and `consumed` are the aggregates the database answers with. */
    method GetUsageSummary(tenant: Tenant, monthlyQuota: int, since: nat, total: nat, consumed: int)
      returns (summary: Summary)
      requires total == |Charged(ledger, tenant, since)| && consumed == UnitsConsumed(ledger, tenant, since)
      ensures summary.totalOperations == |Charged(ledger, tenant, since)|
      ensures summary.unitsConsumed == UnitsConsumed(ledger, tenant, since)
      ensures summary.monthlyQuota == monthlyQuota && summary.quotaRemaining >= 0
      ensures summary.quotaRemaining > 0 ==> summary.unitsConsumed + summary.quotaRemaining == monthlyQuota
      ensures summary.quotaRemaining == 0 <==> monthlyQuota <= summary.unitsConsumed
    {
      var remaining := monthlyQuota - consumed;
      if remaining < 0 { remaining := 0; }
      summary := Summary(total, consumed, monthlyQuota, remaining);
    }
  }

  // ---- records delivered any number of times, in any order ----

  datatype Record = Record(tenant: Tenant, op: OpId, at: nat)

  /** The ledger after these one-unit records have arrived in this order. */
  function Replay(records: seq<Record>): Ledger {
    if records == [] then map[] else
    var last := records[|records| - 1];
    Recorded(Replay(records[..|records| - 1]), last.tenant, last.op, 1, last.at)
  }

  ghost predicate FirstOf(records: seq<Record>, i: int)
    requires 0 <= i < |records|
  {
    forall k :: 0 <= k < i ==> records[k].op != records[i].op
  }

  /** The operations whose first record names this tenant and falls into the month. */
  ghost function OpsBilled(records: seq<Record>, tenant: Tenant, since: nat): set<OpId> {
    set i: nat | i < |records| && FirstOf(records, i) && records[i].tenant == tenant && records[i].at >= since ::
      records[i].op
  }

  /** The first record of an operation is the one that is kept. */
  lemma {:induction false} ReplayKeepsFirst(records: seq<Record>)
    ensures forall o :: o in Replay(records) <==> exists i :: 0 <= i < |records| && records[i].op == o
    ensures forall o :: o in Replay(records) ==>
              exists i :: 0 <= i < |records| && FirstOf(records, i) && records[i].op == o &&
                Replay(records)[o] == UsageRow(records[i].tenant, 1, records[i].at)
  {
    if records != [] {
      var n := |records| - 1;
      var before := records[..n];
      ReplayKeepsFirst(before);
      forall o | o in Replay(records)
        ensures exists i :: 0 <= i < |records| && FirstOf(records, i) && records[i].op == o &&
                  Replay(records)[o] == UsageRow(records[i].tenant, 1, records[i].at)
      {
        if o in Replay(before) {
          var i :| 0 <= i < n && FirstOf(before, i) && before[i].op == o &&
                   Replay(before)[o] == UsageRow(before[i].tenant, 1, before[i].at);
          assert FirstOf(records, i);
        } else {
          assert FirstOf(records, n);
        }
      }
    }
  }

  /** A map whose values are all one sums to its size. */
  lemma {:induction false} SumOnes(m: map<OpId, int>)
    requires forall o :: o in m ==> m[o] == 1
    ensures Sums.Sum(m) == |m|
    decreases |m|
  {
    if m != map[] {
      var o :| o in m;
      Sums.SumRemove(m, o);
      SumOnes(m - {o});
      assert m.Keys == (m - {o}).Keys + {o};
    }
  }

  /** The month's bill is the number of the tenant's distinct operations first recorded in it,
      whatever records arrive, in whatever order and however often. */
  lemma BillCountsOperations(records: seq<Record>, tenant: Tenant, since: nat)
    ensures UnitsConsumed(Replay(records), tenant, since) == |OpsBilled(records, tenant, since)|
  {
    ReplayKeepsFirst(records);
    var ledger := Replay(records);
    var charged := Charged(ledger, tenant, since);
    SumOnes(charged);
    forall o
      ensures o in charged <==> o in OpsBilled(records, tenant, since)
    {
      if i: nat :| i < |records| && FirstOf(records, i) && records[i].op == o {
        var k :| 0 <= k < |records| && FirstOf(records, k) && records[k].op == o &&
                 ledger[o] == UsageRow(records[k].tenant, 1, records[k].at);
        assert i == k;
      }
    }
    assert charged.Keys == OpsBilled(records, tenant, since);
  }

  /** An operation's records all name the tenant it belongs to, and all fall into the month. */
  ghost predicate Consistent(records: seq<Record>, owners: map<OpId, Tenant>, since: nat) {
    forall i :: 0 <= i < |records| ==>
      records[i].op in owners && records[i].tenant == owners[records[i].op] && records[i].at >= since
  }

  ghost function Mentioned(records: seq<Record>): set<OpId> { set i: nat | i < |records| :: records[i].op }

  lemma FirstExists(records: seq<Record>, o: OpId) returns (i: nat)
    requires o in Mentioned(records)
    ensures i < |records| && records[i].op == o && FirstOf(records, i)
  {
    i :| i < |records| && records[i].op == o;
    while !FirstOf(records, i)
      invariant i < |records| && records[i].op == o
      decreases i
    {
      var k :| 0 <= k < i && records[k].op == records[i].op;
      i := k;
    }
  }

  /** Within one month two deliveries that mention the same operations bill the same, however
      duplicated and shuffled their records are. */
  lemma DeliveryOrderIrrelevant(records: seq<Record>, again: seq<Record>, owners: map<OpId, Tenant>, tenant: Tenant,
                                since: nat)
    requires Consistent(records, owners, since) && Consistent(again, owners, since)
    requires Mentioned(records) == Mentioned(again)
    ensures UnitsConsumed(Replay(records), tenant, since) == UnitsConsumed(Replay(again), tenant, since)
  {
    BilledAreMentioned(records, owners, tenant, since);
    BilledAreMentioned(again, owners, tenant, since);
    BillCountsOperations(records, tenant, since);
    BillCountsOperations(again, tenant, since);
  }

  lemma BilledAreMentioned(records: seq<Record>, owners: map<OpId, Tenant>, tenant: Tenant, since: nat)
    requires Consistent(records, owners, since)
    ensures OpsBilled(records, tenant, since) == set o | o in Mentioned(records) && o in owners && owners[o] == tenant
  {
    forall o | o in Mentioned(records)
      ensures o in OpsBilled(records, tenant, since) <==> owners[o] == tenant
    {
      var i := FirstExists(records, o);
    }
  }

  // ---- in the protocol ----

  ghost function WithStatus(ops: Ops, tenant: Tenant, status: Status): set<OpId> {
    set o | o in ops && ops[o].tenant == tenant && ops[o].status == status
  }

  /** Fault-free, the bill is the number of the tenant's ledgered operations; once the system is
      quiescent that covers every success, and nothing but successes and cancelled operations. */
  lemma RunBill(states: seq<State>, actions: seq<Action>, i: nat, tenant: Tenant, since: nat)
    requires IsRun(F0, states, actions) && i < |states|
    ensures var s := states[i];
            UnitsConsumed(s.ledger, tenant, since) == |Charged(s.ledger, tenant, since)| &&
            Charged(s.ledger, tenant, since).Keys <=
              WithStatus(s.ops, tenant, Succeeded) + WithStatus(s.ops, tenant, Cancelled) &&
            (FaultFreeRuns.Quiescent(s) ==>
               WithStatus(s.ops, tenant, Succeeded) <= Charged(s.ledger, tenant, 0).Keys &&
               |WithStatus(s.ops, tenant, Succeeded)| <= UnitsConsumed(s.ledger, tenant, 0))
  {
    hide IsRun, MeteringFor;
    FaultFreeRuns.BillingAgrees(states, actions, i);
    var s := states[i];
    SumOnes(Charged(s.ledger, tenant, since));
    SumOnes(Charged(s.ledger, tenant, 0));
    if FaultFreeRuns.Quiescent(s) {
      forall o | o in WithStatus(s.ops, tenant, Succeeded)
        ensures o in Charged(s.ledger, tenant, 0)
      {
        FaultFreeRuns.QuiescentMeansTerminal(states, actions, i, o);
      }
      Sums.SubsetCard(WithStatus(s.ops, tenant, Succeeded), Charged(s.ledger, tenant, 0).Keys);
    }
  }
}
