/** services/operations/internal/queue: the main list, the delayed set and the concurrency
    counters, changed in place. */
module Redis {
  import opened Model
  import opened JobQueue

  function Incremented(counters: map<Tenant, int>, tenant: Tenant): map<Tenant, int> {
    counters[tenant := Counter(counters, tenant) + 1]
  }

  /** DECR followed by SET 0 when it went negative, where either call may fail. */
  function Released(counters: map<Tenant, int>, tenant: Tenant, decrOk: bool, setOk: bool): (r: map<Tenant, int>)
    ensures decrOk && setOk ==> tenant in r && 0 <= r[tenant]
    ensures decrOk && Counter(counters, tenant) > 0 ==> tenant in r && r[tenant] + 1 == Counter(counters, tenant)
  {
    var val := Counter(counters, tenant) - 1;
    if decrOk then counters[tenant := if val < 0 && setOk then 0 else val] else counters
  }

  class Queue {
    var main: seq<Job>
    var delayed: map<Job, int>
    var counters: map<Tenant, int>

    constructor ()
      ensures main == [] && delayed == map[] && counters == map[]
    {
      main, delayed, counters := [], map[], map[];
    }

    method Enqueue(job: Job)
      modifies this`main
      ensures main == LPush(old(main), job)
    {
      main := [job] + main;
    }

    method ScheduleRetry(job: Job, delay: int, now: nat)
      modifies this`delayed
      ensures delayed == old(delayed)[job := UnixSeconds(now + delay)]
    {
      delayed := delayed[job := UnixSeconds(now + delay)];
    }

    /** Other clients may run between the range read, answered with `members`, and the MULTI,
        which meets `main'` and `delayed'`. */
    method PromoteDueRetries(now: nat, members: seq<Job>, main': seq<Job>, delayed': map<Job, int>)
      returns (promoted: nat)
      requires IsDueReply(delayed, now, members)
      modifies this`main, this`delayed
      ensures promoted == |members|
      ensures members == [] ==> main == old(main) && delayed == old(delayed)
      ensures members != [] ==> main == LPushAll(main', members) && delayed == ZRemAll(delayed', members)
    {
      if |members| == 0 { return 0; }
      main, delayed := main', delayed';
      for i := 0 to |members|
        invariant LPushAll(main, members[i..]) == LPushAll(main', members)
        invariant delayed == delayed' - (set j | j in members[..i])
      {
        assert members[i..][0] == members[i] && members[i..][1..] == members[i + 1..];
        main := LPush(main, members[i]);
        delayed := delayed - {members[i]};
        assert members[..i + 1] == members[..i] + [members[i]];
      }
      assert members[..|members|] == members;
      return |members|;
    }

    /** BRPOP: the tail of the list, or nothing when the timeout elapses. */
    method BrPop() returns (item: Option<Job>)
      modifies this`main
      ensures old(main) == [] ==> item == None && main == []
      ensures old(main) != [] ==> item.Some? && old(main) == main + [item.value]
    {
      if main == [] { return None; }
      item := Some(main[|main| - 1]);
      main := main[..|main| - 1];
    }

    method IncrConcurrency(tenant: Tenant)
      modifies this`counters
      ensures counters == Incremented(old(counters), tenant)
    {
      counters := counters[tenant := Counter(counters, tenant) + 1];
    }

    /** Other clients may run between DECR and SET: `counters'` are the counters the SET meets.
        The error reported is that of the DECR; a failing SET goes unnoticed. */
    method DecrConcurrency(tenant: Tenant, decrOk: bool, setOk: bool, counters': map<Tenant, int>)
      returns (ok: bool)
      modifies this`counters
      ensures ok == decrOk
      ensures !decrOk ==> counters == old(counters)
      ensures decrOk ==>
                counters == var val := Counter(old(counters), tenant) - 1;
                            if val >= 0 then old(counters)[tenant := val]
                            else if setOk then counters'[tenant := 0] else counters'
      ensures counters' == old(counters)[tenant := Counter(old(counters), tenant) - 1] ==>
                counters == Released(old(counters), tenant, decrOk, setOk)
    {
      if !decrOk { return false; }
      var val := Counter(counters, tenant) - 1;
      counters := counters[tenant := val];
      if val < 0 {
        counters := counters';
        if setOk { counters := counters[tenant := 0]; }
      }
      return true;
    }
  }
}
