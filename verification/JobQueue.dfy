/** The Redis structures of services/operations/internal/queue as values: the main list
    (LPUSH at the head, BRPOP at the tail) and the delayed sorted set. */
module JobQueue {
  import opened Model

  const NANOS_PER_SECOND: int := 1_000_000_000

  datatype Job = Job(op: OpId, tenant: Tenant, opType: string, attempt: int, enqueuedAt: nat)

  function UnixSeconds(nanos: int): int { nanos / NANOS_PER_SECOND }

  function LPush(main: seq<Job>, job: Job): seq<Job> { [job] + main }

  /** The LPUSH commands of one MULTI, applied in order. */
  function LPushAll(main: seq<Job>, jobs: seq<Job>): (r: seq<Job>)
    ensures |r| == |main| + |jobs|
    decreases |jobs|
  {
    if jobs == [] then main else LPushAll(LPush(main, jobs[0]), jobs[1..])
  }

  function Reverse(jobs: seq<Job>): (r: seq<Job>)
    ensures |r| == |jobs|
    ensures forall i :: 0 <= i < |jobs| ==> r[i] == jobs[|jobs| - 1 - i]
  {
    if jobs == [] then [] else Reverse(jobs[1..]) + [jobs[0]]
  }

  /** A pushed batch sits at the head in reverse order, so BRPOP meets it in batch order. */
  lemma {:induction false} LPushAllReverses(main: seq<Job>, jobs: seq<Job>)
    ensures LPushAll(main, jobs) == Reverse(jobs) + main
    decreases |jobs|
  {
    if jobs != [] {
      LPushAllReverses(LPush(main, jobs[0]), jobs[1..]);
      assert Reverse(jobs[1..]) + ([jobs[0]] + main) == Reverse(jobs) + main;
    } else {
      assert Reverse(jobs) + main == main;
    }
  }

  /** The ZREM commands of one MULTI. */
  function ZRemAll(delayed: map<Job, int>, jobs: seq<Job>): map<Job, int> {
    delayed - (set j | j in jobs)
  }

  ghost predicate Distinct(jobs: seq<Job>) {
    forall i, j :: 0 <= i < j < |jobs| ==> jobs[i] != jobs[j]
  }

  ghost predicate Members(delayed: map<Job, int>, jobs: seq<Job>) {
    forall j :: j in jobs ==> j in delayed
  }

  lemma MoveOne(delayed: map<Job, int>, jobs: seq<Job>)
    requires jobs != [] && Distinct(jobs) && Members(delayed, jobs)
    ensures jobs[0] in delayed && Distinct(jobs[1..]) && Members(delayed - {jobs[0]}, jobs[1..])
    ensures ZRemAll(delayed - {jobs[0]}, jobs[1..]) == ZRemAll(delayed, jobs)
  {
    var rest := jobs[1..];
    forall j | j in rest
      ensures j in jobs && j != jobs[0]
    {
      var i :| 0 <= i < |rest| && rest[i] == j;
      assert jobs[i + 1] == j;
    }
    assert jobs == [jobs[0]] + rest;
  }

  ghost predicate SortedByScore(delayed: map<Job, int>, jobs: seq<Job>) {
    && Members(delayed, jobs)
    && forall i, j :: 0 <= i < j < |jobs| ==> delayed[jobs[i]] <= delayed[jobs[j]]
  }

  predicate IsDue(delayed: map<Job, int>, now: nat, job: Job) {
    job in delayed && 0 <= delayed[job] <= UnixSeconds(now)
  }

  /** In nanoseconds: a score is the whole second that contains the moment a job is ready, and the job
      is due from the beginning of that second on. */
  lemma DueIff(delayed: map<Job, int>, now: nat, job: Job)
    ensures IsDue(delayed, now, job) <==>
              job in delayed && 0 <= delayed[job] && delayed[job] * 1_000_000_000 <= now
  {
  }

  lemma ScoreIsReadySecond(readyAt: int)
    ensures UnixSeconds(readyAt) * 1_000_000_000 <= readyAt < (UnixSeconds(readyAt) + 1) * 1_000_000_000
  {
  }

  /** A reply of ZRANGEBYSCORE delayed 0 now: exactly the due members, ascending. */
  ghost predicate IsDueReply(delayed: map<Job, int>, now: nat, jobs: seq<Job>) {
    && Distinct(jobs)
    && SortedByScore(delayed, jobs)
    && forall j :: j in jobs <==> IsDue(delayed, now, j)
  }

  function Counter(counters: map<Tenant, int>, t: Tenant): int {
    if t in counters then counters[t] else 0
  }

  // ---- a reply to ZRANGEBYSCORE always exists ----

  ghost predicate Ascending(delayed: map<Job, int>, jobs: seq<Job>) {
    Distinct(jobs) && SortedByScore(delayed, jobs)
  }

  lemma LeastScore(delayed: map<Job, int>, s: set<Job>) returns (least: Job)
    requires s != {} && forall j :: j in s ==> j in delayed
    ensures least in s && forall j :: j in s ==> delayed[least] <= delayed[j]
  {
    least :| least in s;
    var rest := s - {least};
    if rest != {} {
      var other := LeastScore(delayed, rest);
      if delayed[other] < delayed[least] { least := other; }
    }
    forall j | j in s
      ensures delayed[least] <= delayed[j]
    {
      assert j in rest || s == rest + {j};
    }
  }

  /** Any finite part of the delayed set can be listed in ascending score order. */
  lemma {:induction false} ListAscending(delayed: map<Job, int>, s: set<Job>) returns (jobs: seq<Job>)
    requires forall j :: j in s ==> j in delayed
    ensures Ascending(delayed, jobs) && forall j :: j in jobs <==> j in s
    decreases |s|
  {
    if s == {} {
      jobs := [];
    } else {
      var least := LeastScore(delayed, s);
      var rest := ListAscending(delayed, s - {least});
      jobs := [least] + rest;
      forall i | 1 <= i < |jobs|
        ensures jobs[i] in s && jobs[i] != least
      {
        assert jobs[i] == rest[i - 1] && rest[i - 1] in rest;
      }
    }
  }

  lemma DueReplyExists(delayed: map<Job, int>, now: nat) returns (jobs: seq<Job>)
    ensures IsDueReply(delayed, now, jobs)
  {
    var due := set j | j in delayed && IsDue(delayed, now, j);
    jobs := ListAscending(delayed, due);
  }
}
