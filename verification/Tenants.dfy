/** Tenant isolation as a projection: what one tenant's part of the system does is itself a run
    of the system, whatever the other tenants do in between. */
module Tenants {
  import opened Model
  import opened JobQueue
  import opened Protocol
  import opened Carrier
  import opened FaultFree
  import CarrierSteps
  import FaultFreeLocal

  // ---- one tenant's part of the state ----

  ghost function OpsOf(ops: Ops, tenant: Tenant): Ops {
    map o | o in ops && ops[o].tenant == tenant :: ops[o]
  }

  ghost function AttemptsOf(ops: Ops, attempts: Attempts, tenant: Tenant): Attempts {
    map a | a in attempts && TenantOk(ops, tenant, attempts[a].op) :: attempts[a]
  }

  ghost function JobsOf(jobs: seq<Job>, tenant: Tenant): seq<Job> {
    if jobs == [] then []
    else if jobs[0].tenant == tenant then [jobs[0]] + JobsOf(jobs[1..], tenant)
    else JobsOf(jobs[1..], tenant)
  }

  ghost function DelayedOf(delayed: map<Job, int>, tenant: Tenant): map<Job, int> {
    map j | j in delayed && j.tenant == tenant :: delayed[j]
  }

  ghost function CountersOf(counters: map<Tenant, int>, tenant: Tenant): map<Tenant, int> {
    map u | u in counters && u == tenant :: counters[u]
  }

  function Owner(ops: Ops, th: Thread): Option<Tenant> {
    match th
    case Idle => None
    case Popped(job) => Some(job.tenant)
    case Starting(o, _, _) => if o in ops then Some(ops[o].tenant) else None
    case Opened(o, _) => if o in ops then Some(ops[o].tenant) else None
    case Resolved(o, _, _) => if o in ops then Some(ops[o].tenant) else None
    case Working(o, _) => if o in ops then Some(ops[o].tenant) else None
    case Reporting(o, _, _, _) => if o in ops then Some(ops[o].tenant) else None
    case Looking(req) => Some(req.tenant)
    case Inserting(req) => Some(req.tenant)
    case Refetching(req) => Some(req.tenant)
    case Submitting(req, _) => Some(req.tenant)
    case Marking(req, _) => Some(req.tenant)
    case Replied(req, _, _) => Some(req.tenant)
    case Metering(tenant, _) => Some(tenant)
    case Announcing(tenant, _, _) => Some(tenant)
  }

  /** Workers busy for others look idle; other tenants' handlers are absent. */
  ghost function ThreadsOf(ops: Ops, threads: map<Tid, Thread>, tenant: Tenant): map<Tid, Thread> {
    map t | t in threads && (t.Worker? || Owner(ops, threads[t]) == Some(tenant)) ::
      if Owner(ops, threads[t]) == Some(tenant) then threads[t] else Idle
  }

  ghost function LedgerOf(ledger: map<OpId, UsageRow>, tenant: Tenant): map<OpId, UsageRow> {
    map o | o in ledger && ledger[o].tenant == tenant :: ledger[o]
  }

  ghost function EventsOf(events: seq<Event>, tenant: Tenant): seq<Event> {
    if events == [] then []
    else if events[|events| - 1].tenant == tenant then
      EventsOf(events[..|events| - 1], tenant) + [events[|events| - 1]]
    else EventsOf(events[..|events| - 1], tenant)
  }

  ghost function Of(s: State, tenant: Tenant): State {
    State(OpsOf(s.ops, tenant), AttemptsOf(s.ops, s.attempts, tenant),
          JobsOf(s.main, tenant), DelayedOf(s.delayed, tenant), CountersOf(s.counters, tenant),
          JobsOf(s.scanned, tenant), ThreadsOf(s.ops, s.threads, tenant),
          LedgerOf(s.ledger, tenant), EventsOf(s.events, tenant), s.now)
  }

  /** The tenant's own action behind an action of the whole system, if it has a part in it. */
  ghost function Own(s: State, a: Action, tenant: Tenant): Option<Action>
    requires Enabled(s, a)
  {
    match a
    case Tick(_) => Some(a)
    case Submit(_, req) => if req.tenant == tenant then Some(a) else None
    case Cancel(u, _) => if u == tenant then Some(a) else None
    case Pop(t) => if s.main[|s.main| - 1].tenant == tenant then Some(a) else None
    case Scan(members) => Some(Scan(JobsOf(members, tenant)))
    case Promote => if JobsOf(s.scanned, tenant) == [] then None else Some(Promote)
    case DropScan => if JobsOf(s.scanned, tenant) == [] then None else Some(DropScan)
    case _ => if Owner(s.ops, s.threads[a.t]) == Some(tenant) then Some(a) else None
  }

  // ---- filters ----

  lemma {:induction false} JobsMember(jobs: seq<Job>, tenant: Tenant, j: Job)
    ensures j in JobsOf(jobs, tenant) <==> j in jobs && j.tenant == tenant
  {
    if jobs != [] {
      JobsMember(jobs[1..], tenant, j);
      assert jobs == [jobs[0]] + jobs[1..];
    }
  }

  lemma {:induction false} JobsConcat(a: seq<Job>, b: seq<Job>, tenant: Tenant)
    ensures JobsOf(a + b, tenant) == JobsOf(a, tenant) + JobsOf(b, tenant)
  {
    if a == [] {
      assert a + b == b;
    } else {
      JobsConcat(a[1..], b, tenant);
      assert (a + b)[1..] == a[1..] + b && (a + b)[0] == a[0];
    }
  }

  lemma JobsOne(job: Job, tenant: Tenant)
    ensures JobsOf([job], tenant) == if job.tenant == tenant then [job] else []
  {
    assert [job][1..] == [];
  }

  lemma JobsPop(main: seq<Job>, tenant: Tenant)
    requires main != []
    ensures var last := main[|main| - 1];
            JobsOf(main, tenant) ==
            JobsOf(main[..|main| - 1], tenant) + if last.tenant == tenant then [last] else []
  {
    assert main == main[..|main| - 1] + [main[|main| - 1]];
    JobsConcat(main[..|main| - 1], [main[|main| - 1]], tenant);
    JobsOne(main[|main| - 1], tenant);
  }

  lemma JobsPush(main: seq<Job>, job: Job, tenant: Tenant)
    ensures JobsOf(LPush(main, job), tenant) ==
            if job.tenant == tenant then LPush(JobsOf(main, tenant), job) else JobsOf(main, tenant)
  {
    JobsConcat([job], main, tenant);
    JobsOne(job, tenant);
  }

  lemma {:induction false} JobsPushAll(main: seq<Job>, jobs: seq<Job>, tenant: Tenant)
    ensures JobsOf(LPushAll(main, jobs), tenant) == LPushAll(JobsOf(main, tenant), JobsOf(jobs, tenant))
    decreases |jobs|
  {
    if jobs != [] {
      var rest := JobsOf(jobs[1..], tenant);
      JobsPushAll(LPush(main, jobs[0]), jobs[1..], tenant);
      JobsPush(main, jobs[0], tenant);
      if jobs[0].tenant == tenant {
        assert JobsOf(jobs, tenant) == [jobs[0]] + rest && ([jobs[0]] + rest)[1..] == rest;
      } else {
        assert JobsOf(jobs, tenant) == rest;
      }
    }
  }

  lemma DelayedRemove(delayed: map<Job, int>, jobs: seq<Job>, tenant: Tenant)
    ensures DelayedOf(ZRemAll(delayed, jobs), tenant) == ZRemAll(DelayedOf(delayed, tenant), JobsOf(jobs, tenant))
  {
    forall j ensures j in JobsOf(jobs, tenant) <==> j in jobs && j.tenant == tenant {
      JobsMember(jobs, tenant, j);
    }
  }

  lemma {:induction false} JobsAscending(delayed: map<Job, int>, jobs: seq<Job>, tenant: Tenant)
    requires Ascending(delayed, jobs)
    ensures Ascending(DelayedOf(delayed, tenant), JobsOf(jobs, tenant))
  {
    if jobs != [] {
      var rest := jobs[1..];
      assert forall i :: 0 <= i < |rest| ==> rest[i] == jobs[i + 1];
      JobsAscending(delayed, rest, tenant);
      var mine := JobsOf(rest, tenant);
      forall i | 0 <= i < |mine|
        ensures mine[i] in rest && mine[i] != jobs[0] && delayed[jobs[0]] <= delayed[mine[i]]
      {
        JobsMember(rest, tenant, mine[i]);
        var k :| 0 <= k < |rest| && rest[k] == mine[i];
        assert jobs[k + 1] == mine[i];
      }
    }
  }

  /** A reply for the whole delayed set, filtered, is a reply for the tenant's part. */
  lemma DueReplyOf(delayed: map<Job, int>, now: nat, members: seq<Job>, tenant: Tenant)
    requires IsDueReply(delayed, now, members)
    ensures IsDueReply(DelayedOf(delayed, tenant), now, JobsOf(members, tenant))
  {
    JobsAscending(delayed, members, tenant);
    forall j
      ensures j in JobsOf(members, tenant) <==> IsDue(DelayedOf(delayed, tenant), now, j)
    {
      JobsMember(members, tenant, j);
      assert j in members <==> IsDue(delayed, now, j);
    }
  }

  // ---- threads ----

  lemma SetMine(ops: Ops, threads: map<Tid, Thread>, t: Tid, th: Thread, tenant: Tenant)
    requires Owner(ops, th) == Some(tenant) || (t.Worker? && th.Idle?)
    ensures ThreadsOf(ops, threads[t := th], tenant) == ThreadsOf(ops, threads, tenant)[t := th]
  {
  }

  lemma SetForeign(ops: Ops, threads: map<Tid, Thread>, t: Tid, th: Thread, tenant: Tenant)
    requires Owner(ops, th) != Some(tenant)
    requires if t in threads then Owner(ops, threads[t]) != Some(tenant) else t.Handler?
    ensures ThreadsOf(ops, threads[t := th], tenant) == ThreadsOf(ops, threads, tenant)
  {
  }

  lemma EndMine(ops: Ops, threads: map<Tid, Thread>, t: Tid, tenant: Tenant)
    ensures ThreadsOf(ops, Ended(threads, t), tenant) == Ended(ThreadsOf(ops, threads, tenant), t)
  {
  }

  lemma EndForeign(ops: Ops, threads: map<Tid, Thread>, t: Tid, tenant: Tenant)
    requires t in threads && Owner(ops, threads[t]) != Some(tenant)
    ensures ThreadsOf(ops, Ended(threads, t), tenant) == ThreadsOf(ops, threads, tenant)
  {
  }

  /** Rows may change under the threads as long as tenants do not. */
  ghost predicate SameTenants(ops: Ops, ops': Ops) {
    forall o :: o in ops ==> o in ops' && ops'[o].tenant == ops[o].tenant
  }

  lemma ThreadsSame(s: State, ops': Ops, tenant: Tenant)
    requires Inv(s) && SameTenants(s.ops, ops')
    ensures ThreadsOf(ops', s.threads, tenant) == ThreadsOf(s.ops, s.threads, tenant)
  {
    forall t | t in s.threads
      ensures Owner(ops', s.threads[t]) == Owner(s.ops, s.threads[t])
    {
      CarrierSteps.ThreadFacts(s, t);
    }
  }

  lemma AttemptsSame(s: State, ops': Ops, tenant: Tenant)
    requires Inv(s) && SameTenants(s.ops, ops')
    ensures AttemptsOf(ops', s.attempts, tenant) == AttemptsOf(s.ops, s.attempts, tenant)
  {
    hide Inv, Numbered;
    forall a | a in s.attempts
      ensures TenantOk(ops', tenant, s.attempts[a].op) == TenantOk(s.ops, tenant, s.attempts[a].op)
    {
      AttemptKnown(s, a);
    }
  }

  lemma AttemptKnown(s: State, a: AttemptId)
    requires Inv(s) && a in s.attempts
    ensures s.attempts[a].op in s.ops
  {
    FaultFreeLocal.NumberedFacts(s);
    hide Inv;
  }
}
