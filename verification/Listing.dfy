/** What GetOperation and ListOperations may answer, as relations over the operations table. */
module Listing {
  import opened Model
  import Sums

  datatype ListFilter = ListFilter(tenant: Tenant, status: Option<Status>, limit: nat, offset: nat)

  /** SELECT ... WHERE id = $1 AND tenant_id = $2 */
  function Lookup(ops: Ops, tenant: Tenant, id: OpId): Option<Operation> {
    if id in ops && ops[id].tenant == tenant then Some(ops[id]) else None
  }

  /** A row is found exactly by its own tenant. */
  lemma LookupFinds(ops: Ops, tenant: Tenant, id: OpId, row: Operation)
    ensures Lookup(ops, tenant, id) == Some(row) <==> id in ops && ops[id] == row && row.tenant == tenant
  {
  }

  predicate Selected(ops: Ops, f: ListFilter, id: OpId) {
    id in ops && ops[id].tenant == f.tenant && (f.status.Some? ==> ops[id].status == f.status.value)
  }

  /** An order the database may choose for ORDER BY created_at DESC: ties in any order. */
  ghost predicate IsOrdering(ops: Ops, f: ListFilter, all: seq<OpId>) {
    && (forall i, j :: 0 <= i < j < |all| ==> all[i] != all[j])
    && (forall i :: 0 <= i < |all| ==> Selected(ops, f, all[i]))
    && (forall id :: Selected(ops, f, id) ==> id in all)
    && (forall i, j :: 0 <= i < j < |all| ==> ops[all[j]].createdAt <= ops[all[i]].createdAt)
  }

  function Slice(all: seq<OpId>, limit: nat, offset: nat): (page: seq<OpId>)
    ensures |page| == (if offset >= |all| then 0 else if |all| - offset < limit then |all| - offset else limit)
    ensures forall i :: 0 <= i < |page| ==> page[i] == all[offset + i]
  {
    if offset >= |all| then []
    else if |all| - offset < limit then all[offset..]
    else all[offset..offset + limit]
  }

  ghost predicate IsPage(ops: Ops, f: ListFilter, page: seq<OpId>) {
    exists all :: IsOrdering(ops, f, all) && page == Slice(all, f.limit, f.offset)
  }

  /** The rows of a tenant, all of them or those in one status. */
  ghost function Wanted(ops: Ops, tenant: Tenant, status: Option<Status>): set<OpId> {
    set id | id in ops && ops[id].tenant == tenant && (status == None || status == Some(ops[id].status))
  }

  /** An ordering lists exactly the rows of the tenant that are in the status asked for, or all of
      them when none is. */
  lemma OrderingLists(ops: Ops, f: ListFilter, all: seq<OpId>)
    requires IsOrdering(ops, f, all)
    ensures forall id :: id in all <==>
              id in ops && ops[id].tenant == f.tenant && (f.status == None || f.status == Some(ops[id].status))
  {
    forall id | id in all
      ensures Selected(ops, f, id)
    {
    }
  }

  lemma {:induction false} DistinctLength(all: seq<OpId>, ids: set<OpId>)
    requires forall i, j :: 0 <= i < j < |all| ==> all[i] != all[j]
    requires forall id :: id in all <==> id in ids
    ensures |all| == |ids|
  {
    if all == [] {
      assert ids == {};
    } else {
      var rest := all[1..];
      assert all == [all[0]] + rest;
      assert forall i :: 0 <= i < |rest| ==> rest[i] == all[i + 1];
      DistinctLength(rest, ids - {all[0]});
    }
  }

  /** A page holds distinct rows of the caller's tenant in the status asked for, newest first, and
      is full unless those rows run out. */
  lemma PageFacts(ops: Ops, f: ListFilter, page: seq<OpId>)
    requires IsPage(ops, f, page)
    ensures forall i :: 0 <= i < |page| ==>
              page[i] in ops && ops[page[i]].tenant == f.tenant &&
              (f.status.Some? ==> ops[page[i]].status == f.status.value)
    ensures forall i, j :: 0 <= i < j < |page| ==>
              page[i] != page[j] && page[i] in ops && page[j] in ops && ops[page[j]].createdAt <= ops[page[i]].createdAt
    ensures var total := |Wanted(ops, f.tenant, f.status)|;
            |page| == if f.offset >= total then 0 else if total - f.offset < f.limit then total - f.offset else f.limit
  {
    var all :| IsOrdering(ops, f, all) && page == Slice(all, f.limit, f.offset);
    OrderingLists(ops, f, all);
    DistinctLength(all, Wanted(ops, f.tenant, f.status));
  }

  /** Rows that come before `id` in every ordering, and rows that may come no later than it. */
  ghost function Newer(ops: Ops, rows: set<OpId>, id: OpId): set<OpId>
    requires id in ops && rows <= ops.Keys
  {
    set o | o in rows && ops[o].createdAt > ops[id].createdAt
  }

  ghost function NotOlder(ops: Ops, rows: set<OpId>, id: OpId): set<OpId>
    requires id in ops && rows <= ops.Keys
  {
    set o | o in rows && ops[o].createdAt >= ops[id].createdAt
  }

  lemma RankIn(ops: Ops, f: ListFilter, all: seq<OpId>, k: nat)
    requires IsOrdering(ops, f, all) && k < |all|
    ensures all[k] in ops
    ensures |Newer(ops, Wanted(ops, f.tenant, f.status), all[k])| <= k
    ensures k < |NotOlder(ops, Wanted(ops, f.tenant, f.status), all[k])|
  {
    OrderingLists(ops, f, all);
    var rows := Wanted(ops, f.tenant, f.status);
    assert all[k] in all;
    var before, upTo := set i: nat | i < k :: all[i], set i: nat | i < k + 1 :: all[i];
    DistinctLength(all[..k], before);
    DistinctLength(all[..k + 1], upTo);
    forall o | o in Newer(ops, rows, all[k])
      ensures o in before
    {
      assert o in all;
      var i :| 0 <= i < |all| && all[i] == o;
    }
    Sums.SubsetCard(Newer(ops, rows, all[k]), before);
    Sums.SubsetCard(upTo, NotOlder(ops, rows, all[k]));
  }

  /** Row i of a page has rank offset + i among the wanted rows, newest first. */
  lemma PageRank(ops: Ops, f: ListFilter, page: seq<OpId>, i: nat)
    requires IsPage(ops, f, page) && i < |page|
    ensures page[i] in ops
    ensures |Newer(ops, Wanted(ops, f.tenant, f.status), page[i])| <= f.offset + i
    ensures f.offset + i < |NotOlder(ops, Wanted(ops, f.tenant, f.status), page[i])|
  {
    var all :| IsOrdering(ops, f, all) && page == Slice(all, f.limit, f.offset);
    hide IsOrdering, Newer, NotOlder, Wanted;
    RankIn(ops, f, all, f.offset + i);
  }
}
