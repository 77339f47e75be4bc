/** The two Redis structures over whole runs: the main list is first in, first out; jobs move from
    the delayed set exactly once, in ready-at order and never a full second early. */
module Promotion {
  import opened Model
  import opened JobQueue
  import opened Protocol
  import opened Carrier
  import CarrierSteps
  import Lifecycle
  import Backoff
  import Frame

  // ---- first in, first out ----

  /** The order in which BRPOP will hand out the main list. */
  function Fifo(main: seq<Job>): seq<Job> { Reverse(main) }

  function CreateJob(s: State, t: Tid): Job
    requires t in s.threads && s.threads[t].Submitting?
  {
    Job(s.threads[t].op, s.threads[t].req.tenant, s.threads[t].req.opType, 0, s.now)
  }

  ghost function Pushed(s: State, a: Action): seq<Job>
    requires Enabled(s, a)
  {
    match a
    case Enqueue(t) => [CreateJob(s, t)]
    case Promote => s.scanned
    case _ => []
  }

  ghost function Taken(s: State, a: Action): seq<Job>
    requires Enabled(s, a)
  {
    match a
    case Pop(_) => [s.main[|s.main| - 1]]
    case _ => []
  }

  lemma FifoPushAll(main: seq<Job>, jobs: seq<Job>)
    ensures Fifo(LPushAll(main, jobs)) == Fifo(main) + jobs
  {
    LPushAllReverses(main, jobs);
  }

  lemma EnqueueMain(s: State, t: Tid)
    requires Enabled(s, Enqueue(t))
    ensures Apply(s, Enqueue(t)).main == LPush(s.main, CreateJob(s, t))
    ensures Fifo(Apply(s, Enqueue(t)).main) == Fifo(s.main) + [CreateJob(s, t)]
  {
  }

  lemma PopMain(s: State, t: Tid)
    requires Enabled(s, Pop(t))
    ensures s.main != [] && s.main == Apply(s, Pop(t)).main + [s.main[|s.main| - 1]]
  {
  }

  lemma FifoOut(main: seq<Job>, last: Job)
    ensures Fifo(main + [last]) == [last] + Fifo(main)
  {
  }

  lemma PromoteMain(s: State)
    requires Enabled(s, Promote)
    ensures Apply(s, Promote).main == LPushAll(s.main, s.scanned)
    ensures Apply(s, Promote).delayed == ZRemAll(s.delayed, s.scanned)
  {
  }

  lemma FifoStep(s: State, a: Action)
    requires Enabled(s, a)
    ensures Taken(s, a) + Fifo(Apply(s, a).main) == Fifo(s.main) + Pushed(s, a)
  {
    hide Apply, Enabled, Fifo, LPushAll;
    Frame.TouchesTables(s, a);
    match a
    case Enqueue(t) => EnqueueMain(s, t);
    case Promote =>
      PromoteMain(s);
      FifoPushAll(s.main, s.scanned);
    case Pop(t) =>
      PopMain(s, t);
      FifoOut(Apply(s, a).main, s.main[|s.main| - 1]);
    case _ =>
  }

  ghost function AllPushed(level: Level, states: seq<State>, actions: seq<Action>, n: nat): seq<Job>
    requires IsPath(level, states, actions) && n <= |actions|
  {
    if n == 0 then []
    else
      assert Step(level, states[n - 1], actions[n - 1], states[n]);
      AllPushed(level, states, actions, n - 1) + Pushed(states[n - 1], actions[n - 1])
  }

  ghost function AllTaken(level: Level, states: seq<State>, actions: seq<Action>, n: nat): seq<Job>
    requires IsPath(level, states, actions) && n <= |actions|
  {
    if n == 0 then []
    else
      assert Step(level, states[n - 1], actions[n - 1], states[n]);
      AllTaken(level, states, actions, n - 1) + Taken(states[n - 1], actions[n - 1])
  }

  /** What has been popped so far, followed by what waits, is what was ever pushed, in push order. */
  lemma {:induction false} PoppedInPushOrder(level: Level, states: seq<State>, actions: seq<Action>, n: nat)
    requires IsRun(level, states, actions) && n <= |actions|
    ensures AllPushed(level, states, actions, n) == AllTaken(level, states, actions, n) + Fifo(states[n].main)
  {
    hide Enabled, Apply, Taken, Pushed, Fifo;
    if n == 0 {
      NothingYet(states[0]);
    } else {
      PoppedInPushOrder(level, states, actions, n - 1);
      assert Step(level, states[n - 1], actions[n - 1], states[n]);
      FifoStep(states[n - 1], actions[n - 1]);
      var taken, more := AllTaken(level, states, actions, n - 1), Taken(states[n - 1], actions[n - 1]);
      assert taken + (more + Fifo(states[n].main)) == (taken + more) + Fifo(states[n].main);
    }
  }

  lemma NothingYet(s: State)
    requires Init(s)
    ensures Fifo(s.main) == []
  {
  }

  lemma {:induction false} PushedGrows(level: Level, states: seq<State>, actions: seq<Action>, k: nat, n: nat)
    requires IsPath(level, states, actions) && k <= n <= |actions|
    ensures AllPushed(level, states, actions, k) <= AllPushed(level, states, actions, n)
    decreases n
  {
    hide Enabled, Apply;
    if k < n { PushedGrows(level, states, actions, k, n - 1); }
  }

  /** A promoted batch is consumed as one block, after everything pushed before it, in ascending
      ready-at order: once job j of the batch is out, every job before it in the batch came out
      earlier and was due no later. */
  lemma PromotedConsumedInOrder(level: Level, states: seq<State>, actions: seq<Action>, k: nat, n: nat, i: nat, j: nat)
    requires IsRun(level, states, actions) && k < n <= |actions| && actions[k] == Promote
    requires i <= j < |states[k].scanned|
    requires |AllPushed(level, states, actions, k)| + j < |AllTaken(level, states, actions, n)|
    ensures var taken, batch := AllTaken(level, states, actions, n), states[k].scanned;
            var before := |AllPushed(level, states, actions, k)|;
            taken[before + i] == batch[i] && taken[before + j] == batch[j] &&
            batch[i] in states[k].delayed && batch[j] in states[k].delayed &&
            states[k].delayed[batch[i]] <= states[k].delayed[batch[j]]
  {
    hide Inv, Step, Fifo, Init, AllPushed, AllTaken;
    BatchOut(level, states, actions, k, n, i);
    BatchOut(level, states, actions, k, n, j);
    Lifecycle.RunInv(level, states, actions, k);
    BatchAscending(states[k], i, j);
  }

  lemma BatchOut(level: Level, states: seq<State>, actions: seq<Action>, k: nat, n: nat, i: nat)
    requires IsRun(level, states, actions) && k < n <= |actions| && actions[k] == Promote
    requires i < |states[k].scanned|
    requires |AllPushed(level, states, actions, k)| + i < |AllTaken(level, states, actions, n)|
    ensures AllTaken(level, states, actions, n)[|AllPushed(level, states, actions, k)| + i] == states[k].scanned[i]
  {
    hide Inv, Step, Fifo, Init, AllPushed, AllTaken;
    PoppedInPushOrder(level, states, actions, n);
    PushedGrows(level, states, actions, k + 1, n);
    BatchAt(level, states, actions, k, i);
  }

  lemma BatchAscending(s: State, i: nat, j: nat)
    requires Inv(s) && i <= j < |s.scanned|
    ensures s.scanned[i] in s.delayed && s.scanned[j] in s.delayed
    ensures s.delayed[s.scanned[i]] <= s.delayed[s.scanned[j]]
  {
    CarrierSteps.ScanFacts(s);
    hide Inv;
  }

  lemma BatchAt(level: Level, states: seq<State>, actions: seq<Action>, k: nat, i: nat)
    requires IsPath(level, states, actions) && k < |actions| && actions[k] == Promote && i < |states[k].scanned|
    ensures var all := AllPushed(level, states, actions, k + 1);
            |AllPushed(level, states, actions, k)| + i < |all| &&
            all[|AllPushed(level, states, actions, k)| + i] == states[k].scanned[i]
  {
    assert Step(level, states[k], actions[k], states[k + 1]);
    hide Enabled, Apply;
  }

  // ---- conservation ----

  /** Every copy of a job in the two structures. */
  ghost function Held(s: State): multiset<Job> { multiset(s.main) + multiset(s.delayed.Keys) }

  ghost function Introduced(s: State, a: Action): multiset<Job>
    requires Enabled(s, a)
  {
    match a
    case Enqueue(t) => multiset{CreateJob(s, t)}
    case Schedule(t, _) => multiset{RetryJob(s.threads[t].op, s.threads[t].stage.seen, s.now)}
    case _ => multiset{}
  }

  lemma {:induction false} PromoteConserves(main: seq<Job>, delayed: map<Job, int>, jobs: seq<Job>)
    requires Distinct(jobs) && Members(delayed, jobs)
    ensures multiset(LPushAll(main, jobs)) + multiset(ZRemAll(delayed, jobs).Keys) ==
            multiset(main) + multiset(delayed.Keys)
    decreases |jobs|
  {
    if jobs == [] {
      assert ZRemAll(delayed, jobs) == delayed;
    } else {
      MoveOne(delayed, jobs);
      PromoteConserves(LPush(main, jobs[0]), delayed - {jobs[0]}, jobs[1..]);
      assert (delayed - {jobs[0]}).Keys == delayed.Keys - {jobs[0]};
    }
  }

  lemma ScheduleAdds(s: State, t: Tid, jitter: nat)
    requires Inv(s) && Enabled(s, Schedule(t, jitter))
    ensures RetryJob(s.threads[t].op, s.threads[t].stage.seen, s.now) !in s.delayed
  {
    hide Inv, ReadyAt;
    CarrierSteps.ThreadFacts(s, t);
    assert NotInDelayed(s.delayed, s.threads[t].op);
  }

  lemma ScheduleKeys(s: State, t: Tid, jitter: nat)
    requires Enabled(s, Schedule(t, jitter))
    ensures Apply(s, Schedule(t, jitter)).delayed.Keys ==
            s.delayed.Keys + {RetryJob(s.threads[t].op, s.threads[t].stage.seen, s.now)}
  {
    hide ReadyAt;
  }

  ghost predicate Conserved(s: State, a: Action) {
    Enabled(s, a) && Held(Apply(s, a)) + multiset(Taken(s, a)) == Held(s) + Introduced(s, a)
  }

  lemma EnqueueConserved(s: State, t: Tid)
    requires Enabled(s, Enqueue(t))
    ensures Conserved(s, Enqueue(t))
  {
    EnqueueMain(s, t);
    Frame.TouchesTables(s, Enqueue(t));
    hide Apply, Fifo;
    var job := CreateJob(s, t);
    assert multiset([job] + s.main) == multiset{job} + multiset(s.main);
  }

  lemma PopConserved(s: State, t: Tid)
    requires Enabled(s, Pop(t))
    ensures Conserved(s, Pop(t))
  {
    PopMain(s, t);
    Frame.TouchesTables(s, Pop(t));
    hide Apply;
  }

  lemma AddOne(main: seq<Job>, delayed: map<Job, int>, delayed': map<Job, int>, job: Job)
    requires job !in delayed && delayed'.Keys == delayed.Keys + {job}
    ensures multiset(main) + multiset(delayed'.Keys) == multiset(main) + multiset(delayed.Keys) + multiset{job}
  {
  }

  lemma ScheduleMain(s: State, t: Tid, jitter: nat)
    requires Enabled(s, Schedule(t, jitter))
    ensures Apply(s, Schedule(t, jitter)).main == s.main
  {
    Frame.TouchesTables(s, Schedule(t, jitter));
    hide Apply, Enabled;
  }

  lemma ScheduleConserved(s: State, t: Tid, jitter: nat)
    requires Inv(s) && Enabled(s, Schedule(t, jitter))
    ensures Conserved(s, Schedule(t, jitter))
  {
    hide Inv;
    ScheduleAdds(s, t, jitter);
    ScheduleKeys(s, t, jitter);
    ScheduleMain(s, t, jitter);
    var job := RetryJob(s.threads[t].op, s.threads[t].stage.seen, s.now);
    assert Introduced(s, Schedule(t, jitter)) == multiset{job};
    assert Taken(s, Schedule(t, jitter)) == [];
    hide Apply, Enabled, Introduced, Taken, RetryJob;
    AddOne(s.main, s.delayed, Apply(s, Schedule(t, jitter)).delayed, job);
  }

  lemma PromoteConserved(s: State)
    requires Inv(s) && Enabled(s, Promote)
    ensures Conserved(s, Promote)
  {
    PromoteMain(s);
    CarrierSteps.ScanFacts(s);
    PromoteConserves(s.main, s.delayed, s.scanned);
    hide Apply, Inv, LPushAll, ZRemAll;
  }

  predicate Moves(a: Action) { a.Enqueue? || a.Pop? || a.Schedule? || a.Promote? }

  lemma QuietConserved(s: State, a: Action)
    requires Enabled(s, a) && !Moves(a)
    ensures Conserved(s, a)
  {
    hide Apply, Enabled;
    Frame.TouchesTables(s, a);
    hide Frame.Untouched, LPushAll;
    assert Taken(s, a) == [] && Introduced(s, a) == multiset{} && multiset(Taken(s, a)) == multiset{};
  }

  /** No step loses or duplicates a job: only enqueue and schedule add one, only a pop takes one. */
  lemma JobsConserved(level: Level, s: State, a: Action, s': State)
    requires Inv(s) && Step(level, s, a, s')
    ensures Held(s') + multiset(Taken(s, a)) == Held(s) + Introduced(s, a)
  {
    assert Conserved(s, a) by {
      hide Inv, Apply, Enabled, Conserved;
      match a
      case Enqueue(t) => EnqueueConserved(s, t);
      case Pop(t) => PopConserved(s, t);
      case Schedule(t, jitter) => ScheduleConserved(s, t, jitter);
      case Promote => PromoteConserved(s);
      case _ => QuietConserved(s, a);
    }
    hide Inv, Apply, Enabled, Held, Introduced, Taken;
  }

  // ---- the read and the transaction of one promotion ----

  predicate Scheduler(a: Action) { a.Scan? || a.Promote? || a.DropScan? }

  /** No scheduler action strictly between the read at q and step p. */
  predicate Undisturbed(actions: seq<Action>, q: nat, p: nat) {
    q < p <= |actions| && forall k :: q < k < p ==> !Scheduler(actions[k])
  }

  lemma OthersKeepDelayed(level: Level, s: State, a: Action, s': State, j: Job)
    requires Inv(s) && Step(level, s, a, s') && !Scheduler(a) && j in s.delayed
    ensures j in s'.delayed && s'.delayed[j] == s.delayed[j] && s'.scanned == s.scanned
  {
    hide Inv;
    Frame.TouchesTables(s, a);
    Frame.TouchesRest(s, a);
    if a.Schedule? {
      ScheduleAdds(s, a.t, a.jitter);
    } else {
      hide Apply, Enabled;
    }
  }

  lemma OthersKeepScanned(level: Level, s: State, a: Action, s': State)
    requires Step(level, s, a, s') && !Scheduler(a)
    ensures s'.scanned == s.scanned
  {
    Frame.TouchesRest(s, a);
    hide Apply, Enabled;
  }

  lemma {:induction false} ScanHolds(level: Level, states: seq<State>, actions: seq<Action>, q: nat, p: nat)
    requires IsRun(level, states, actions) && p < |states| && Undisturbed(actions, q, p) && actions[q].Scan?
    ensures states[p].scanned == actions[q].members
    ensures forall j :: j in states[q].delayed ==>
              j in states[p].delayed &&
              states[p].delayed[j] == states[q].delayed[j]
    decreases p
  {
    hide Inv, Init, Enabled, Apply;
    assert Step(level, states[p - 1], actions[p - 1], states[p]);
    if p == q + 1 {
      ScanEffect(states[q], actions[q]);
    } else {
      ScanHolds(level, states, actions, q, p - 1);
      Lifecycle.RunInv(level, states, actions, p - 1);
      OthersKeepScanned(level, states[p - 1], actions[p - 1], states[p]);
      forall j | j in states[q].delayed
        ensures j in states[p].delayed && states[p].delayed[j] == states[q].delayed[j]
      {
        OthersKeepDelayed(level, states[p - 1], actions[p - 1], states[p], j);
      }
    }
  }

  lemma ScanEffect(s: State, a: Action)
    requires Enabled(s, a) && a.Scan?
    ensures Apply(s, a).scanned == a.members && Apply(s, a).delayed == s.delayed
    ensures IsDueReply(s.delayed, s.now, a.members)
  {
  }

  lemma PromoteEffect(s: State)
    requires Enabled(s, Promote)
    ensures Apply(s, Promote).delayed == ZRemAll(s.delayed, s.scanned)
    ensures Fifo(Apply(s, Promote).main) == Fifo(s.main) + s.scanned
  {
    PromoteMain(s);
    FifoPushAll(s.main, s.scanned);
  }

  /** Whatever else happens between its read and its transaction, a promotion moves exactly the
      jobs that were due at the read, to the back of the consumption order, and leaves every other
      delayed job where it is. */
  lemma PromotionMovesExactlyTheDue(level: Level, states: seq<State>, actions: seq<Action>, q: nat, p: nat)
    requires IsRun(level, states, actions) && p < |actions| && Undisturbed(actions, q, p)
    requires actions[q].Scan? && actions[p] == Promote
    ensures var due := actions[q].members;
            Distinct(due) &&
            (forall j :: j in due <==> IsDue(states[q].delayed, states[q].now, j)) &&
            (forall j :: j in due ==> j in states[p].delayed && states[p].delayed[j] == states[q].delayed[j]) &&
            states[p + 1].delayed == states[p].delayed - (set j | j in due) &&
            Fifo(states[p + 1].main) == Fifo(states[p].main) + due
  {
    hide Inv, Init, Enabled, Apply, Fifo;
    assert Step(level, states[q], actions[q], states[q + 1]);
    assert Step(level, states[p], actions[p], states[p + 1]);
    ScanEffect(states[q], actions[q]);
    ScanHolds(level, states, actions, q, p);
    PromoteEffect(states[p]);
  }

  // ---- not early ----

  /** Step i put job j into the delayed set with this score. */
  ghost predicate ScheduledAt(states: seq<State>, actions: seq<Action>, i: nat, j: Job, score: int) {
    && i < |actions| && i < |states| && actions[i].Schedule?
    && var t := actions[i].t;
    && t in states[i].threads && states[i].threads[t].Reporting? && states[i].threads[t].stage.Retry?
    && j == RetryJob(states[i].threads[t].op, states[i].threads[t].stage.seen, states[i].now)
    && score == UnixSeconds(states[i].now + Backoff.BackoffDelay(j.attempt, actions[i].jitter))
  }

  ghost predicate AllScheduled(states: seq<State>, actions: seq<Action>, n: nat)
    requires n < |states|
  {
    forall j :: j in states[n].delayed ==>
      exists i :: 0 <= i < n && ScheduledAt(states, actions, i, j, states[n].delayed[j])
  }

  ghost predicate ScannedDue(s: State) {
    forall j :: j in s.scanned ==> IsDue(s.delayed, s.now, j)
  }

  lemma ScheduleEffect(states: seq<State>, actions: seq<Action>, i: nat)
    requires i < |actions| && i < |states| && actions[i].Schedule? && Enabled(states[i], actions[i])
    ensures var t := actions[i].t;
            var j := RetryJob(states[i].threads[t].op, states[i].threads[t].stage.seen, states[i].now);
            var s' := Apply(states[i], actions[i]);
            j in s'.delayed && s'.delayed == states[i].delayed[j := s'.delayed[j]] &&
            ScheduledAt(states, actions, i, j, s'.delayed[j])
  {
    hide Backoff.BackoffDelay;
  }

  lemma {:induction false} DelayedWereScheduled(level: Level, states: seq<State>, actions: seq<Action>, n: nat)
    requires IsRun(level, states, actions) && n < |states|
    ensures AllScheduled(states, actions, n)
  {
    hide Enabled, Apply, ScheduledAt;
    if n > 0 {
      DelayedWereScheduled(level, states, actions, n - 1);
      assert Step(level, states[n - 1], actions[n - 1], states[n]);
      Frame.TouchesTables(states[n - 1], actions[n - 1]);
      if actions[n - 1].Schedule? {
        ScheduleEffect(states, actions, n - 1);
      } else if actions[n - 1].Promote? {
        PromoteEffect(states[n - 1]);
      }
    }
  }

  lemma ScannedDueStep(level: Level, s: State, a: Action, s': State)
    requires Inv(s) && ScannedDue(s) && Step(level, s, a, s')
    ensures ScannedDue(s')
  {
    hide Inv, Enabled, Apply;
    assert s.now <= s'.now by { ClockUp(s, a); }
    if a.Scan? {
      ScanEffect(s, a);
      assert s'.now == s.now by { Frame.TouchesRest(s, a); }
    } else if Scheduler(a) {
      assert s'.scanned == [] by { SchedulerClears(s, a); }
    } else {
      OthersKeepScanned(level, s, a, s');
      forall j | j in s'.scanned
        ensures IsDue(s'.delayed, s'.now, j)
      {
        assert IsDue(s.delayed, s.now, j);
        OthersKeepDelayed(level, s, a, s', j);
      }
    }
  }

  lemma SchedulerClears(s: State, a: Action)
    requires Enabled(s, a) && (a.Promote? || a.DropScan?)
    ensures Apply(s, a).scanned == []
  {
  }

  lemma ClockUp(s: State, a: Action)
    requires Enabled(s, a)
    ensures s.now <= Apply(s, a).now
  {
    Frame.TouchesRest(s, a);
    if !a.Tick? { hide Enabled, Apply; }
  }

  lemma {:induction false} RunScannedDue(level: Level, states: seq<State>, actions: seq<Action>, n: nat)
    requires IsRun(level, states, actions) && n < |states|
    ensures ScannedDue(states[n])
  {
    hide Inv, Enabled, Apply;
    if n > 0 {
      RunScannedDue(level, states, actions, n - 1);
      Lifecycle.RunInv(level, states, actions, n - 1);
      ScannedDueStep(level, states[n - 1], actions[n - 1], states[n]);
    }
  }

  /** Every promoted job was scheduled by an earlier step, and less than one second of its backoff
      can be missing when it is promoted. */
  lemma PromotedNotEarly(level: Level, states: seq<State>, actions: seq<Action>, p: nat, j: Job) returns (i: nat)
    requires IsRun(level, states, actions) && p < |actions| && actions[p] == Promote && j in states[p].scanned
    ensures i < p && j in states[p].delayed && ScheduledAt(states, actions, i, j, states[p].delayed[j])
    ensures states[p].now > states[i].now + Backoff.BackoffDelay(j.attempt, actions[i].jitter) - NANOS_PER_SECOND
  {
    hide Inv, Init, Enabled, Apply;
    RunScannedDue(level, states, actions, p);
    DelayedWereScheduled(level, states, actions, p);
    i :| 0 <= i < p && ScheduledAt(states, actions, i, j, states[p].delayed[j]);
    hide Backoff.BackoffDelay;
  }

  /** Nor late: once the backoff is over, a delayed job with a score the scheduler reads is in every
      reply it gets. */
  lemma ReadyIsRead(states: seq<State>, actions: seq<Action>, i: nat, n: nat, j: Job)
    requires n < |states| && n < |actions| && actions[n].Scan? && Enabled(states[n], actions[n])
    requires j in states[n].delayed && ScheduledAt(states, actions, i, j, states[n].delayed[j])
    requires states[n].delayed[j] >= 0
    requires states[n].now >= states[i].now + Backoff.BackoffDelay(j.attempt, actions[i].jitter)
    ensures j in actions[n].members
  {
    ScanEffect(states[n], actions[n]);
    hide Enabled, Apply, Backoff.BackoffDelay;
    ScoreIsReadySecond(states[i].now + Backoff.BackoffDelay(j.attempt, actions[i].jitter));
    DueIff(states[n].delayed, states[n].now, j);
  }

  /** Every backoff the protocol asks for has an exponent from 1 to max_retries - 1; with at most
      33 retries none wraps, and with the service's 3 the delay is between 4 and 9.6 seconds. */
  lemma ScheduledDelay(level: Level, states: seq<State>, actions: seq<Action>, k: nat)
    requires IsRun(level, states, actions) && k < |actions| && actions[k].Schedule?
    ensures actions[k].t in states[k].threads && states[k].threads[actions[k].t].Reporting? &&
            states[k].threads[actions[k].t].stage.Retry?
    ensures var seen := states[k].threads[actions[k].t].stage.seen;
            var delay := Backoff.BackoffDelay(seen.attemptCount, actions[k].jitter);
            1 <= seen.attemptCount < seen.maxRetries &&
            (seen.maxRetries <= 33 ==>
               Backoff.IdealDelay(seen.attemptCount) <= delay &&
               5 * delay < 6 * Backoff.IdealDelay(seen.attemptCount)) &&
            (seen.maxRetries == 3 ==> 4 * Backoff.SECOND <= delay && 5 * delay < 48 * Backoff.SECOND)
  {
    hide Inv, Init, Apply, Backoff.BackoffDelay;
    assert Step(level, states[k], actions[k], states[k + 1]);
    ScheduleThread(states[k], actions[k].t, actions[k].jitter);
    RetryWilling(level, states, actions, k, actions[k].t);
    Lifecycle.RetryDecisionCurrent(level, states, actions, k, actions[k].t);
    var seen := states[k].threads[actions[k].t].stage.seen;
    if seen.maxRetries <= 33 { Backoff.DelayWindow(seen.attemptCount, actions[k].jitter); }
    assert Backoff.Pow2(1) == 2 && Backoff.Pow2(2) == 4;
  }

  lemma ScheduleThread(s: State, t: Tid, jitter: nat)
    requires Enabled(s, Schedule(t, jitter))
    ensures t in s.threads && s.threads[t].Reporting? && s.threads[t].stage.Retry? && jitter < 1000
  {
  }

  lemma RetryWilling(level: Level, states: seq<State>, actions: seq<Action>, k: nat, t: Tid)
    requires IsRun(level, states, actions) && k < |states| && t in states[k].threads
    requires states[k].threads[t].Reporting? && states[k].threads[t].stage.Retry?
    ensures states[k].threads[t].report.Failure?
    ensures states[k].threads[t].op in states[k].ops
    ensures var th := states[k].threads[t];
            WillRetry(th.report, th.stage.seen) &&
            th.stage.seen.maxRetries == states[k].ops[th.op].maxRetries
  {
    Lifecycle.RunInv(level, states, actions, k);
    CarrierSteps.ThreadFacts(states[k], t);
  }
}
