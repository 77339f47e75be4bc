/** When a delayed job can be promoted at all: the scheduler reads scores from 0 on, and a backoff
    that wraps negative can put a job below that. */
module Stranding {
  import opened Model
  import opened JobQueue
  import opened Protocol
  import opened Carrier
  import opened Traces
  import Backoff
  import Lifecycle
  import Promotion
  import WorkerTraces

  /** Delayed below the range the scheduler reads, and not in its hands. */
  predicate Stranded(s: State, j: Job) { j in s.delayed && s.delayed[j] < 0 && j !in s.scanned }

  lemma ScanLeaves(s: State, members: seq<Job>, j: Job)
    requires Enabled(s, Scan(members)) && Stranded(s, j)
    ensures Stranded(Apply(s, Scan(members)), j)
  {
    Promotion.ScanEffect(s, Scan(members));
    hide Enabled, Apply;
    assert !IsDue(s.delayed, s.now, j);
  }

  lemma PromoteLeaves(s: State, j: Job)
    requires Enabled(s, Promote) && Stranded(s, j)
    ensures Stranded(Apply(s, Promote), j)
  {
    Promotion.PromoteEffect(s);
    Promotion.SchedulerClears(s, Promote);
    hide Enabled, Apply, Promotion.Fifo;
  }

  lemma StrandedStep(level: Level, s: State, a: Action, s': State, j: Job)
    requires Inv(s) && Step(level, s, a, s') && Stranded(s, j)
    ensures Stranded(s', j)
  {
    hide Inv, Enabled, Apply;
    match a
    case Scan(members) => ScanLeaves(s, members, j);
    case Promote => PromoteLeaves(s, j);
    case DropScan => DropScanEffect(s);
    case _ => Promotion.OthersKeepDelayed(level, s, a, s', j);
  }

  lemma DropScanEffect(s: State)
    requires Enabled(s, DropScan)
    ensures Apply(s, DropScan).scanned == [] && Apply(s, DropScan).delayed == s.delayed
  {
  }

  lemma {:induction false} StrandedPath(level: Level, states: seq<State>, actions: seq<Action>, i: nat, j: Job)
    requires IsPath(level, states, actions) && Inv(states[0]) && i < |states| && Stranded(states[0], j)
    ensures Stranded(states[i], j)
  {
    hide Inv, Enabled, Apply, Stranded;
    if i > 0 {
      StrandedPath(level, states, actions, i - 1, j);
      Lifecycle.PathKeepsInv(level, states, actions, i - 1);
      StrandedStep(level, states[i - 1], actions[i - 1], states[i], j);
    }
  }

  /** In no continuation does the job leave the delayed set. */
  ghost predicate NeverPromoted(level: Level, s: State, j: Job) {
    forall states: seq<State>, actions: seq<Action> | IsPath(level, states, actions) && states[0] == s ::
      j in states[|actions|].delayed
  }

  lemma ScanOne(level: Level, s: State, members: seq<Job>)
    requires s.scanned == [] && IsDueReply(s.delayed, s.now, members)
    ensures Leads(level, s, [Scan(members)], s.(scanned := members))
  {
    hide IsDueReply;
    LeadsOne(level, s, Scan(members));
  }

  lemma PromoteOne(level: Level, s: State)
    requires s.scanned != []
    ensures Leads(level, s, [Promote], s.(main := LPushAll(s.main, s.scanned),
                                          delayed := ZRemAll(s.delayed, s.scanned), scanned := []))
  {
    LeadsOne(level, s, Promote);
  }

  /** The scheduler takes up a due job: first it finishes the promotion it may be in. */
  lemma DuePromoted(level: Level, s: State, j: Job) returns (trace: seq<Action>, s': State)
    requires IsDue(s.delayed, s.now, j)
    ensures Leads(level, s, trace, s') && j !in s'.delayed
  {
    hide Leads, LPushAll;
    trace, s' := [], s;
    WorkerTraces.LeadsNone(level, s);
    if s.scanned != [] {
      PromoteOne(level, s);
      s' := s.(main := LPushAll(s.main, s.scanned), delayed := ZRemAll(s.delayed, s.scanned), scanned := []);
      trace := [Promote];
    }
    if j in s'.delayed {
      var members := DueReplyExists(s'.delayed, s'.now);
      assert IsDue(s'.delayed, s'.now, j);
      ScanOne(level, s', members);
      var s1 := s'.(scanned := members);
      LeadsThen(level, s, trace, s', [Scan(members)], s1);
      PromoteOne(level, s1);
      s' := s1.(main := LPushAll(s1.main, s1.scanned), delayed := ZRemAll(s1.delayed, s1.scanned), scanned := []);
      LeadsThen(level, s, trace + [Scan(members)], s1, [Promote], s');
      trace := trace + [Scan(members)] + [Promote];
    }
  }

  /** A delayed job is stranded for good if and only if its score is negative. */
  lemma StrandedIffScoreNegative(level: Level, states: seq<State>, actions: seq<Action>, i: nat, j: Job)
    requires IsRun(level, states, actions) && i < |states| && j in states[i].delayed
    ensures NeverPromoted(level, states[i], j) <==> states[i].delayed[j] < 0
  {
    hide Inv, Init, Enabled, Apply, Leads;
    var s := states[i];
    if s.delayed[j] < 0 {
      Lifecycle.RunInv(level, states, actions, i);
      Promotion.RunScannedDue(level, states, actions, i);
      assert Stranded(s, j);
      forall later: seq<State>, acts: seq<Action> | IsPath(level, later, acts) && later[0] == s
        ensures j in later[|acts|].delayed
      {
        StrandedPath(level, later, acts, |acts|, j);
      }
    } else {
      var to := s.now + s.delayed[j] * NANOS_PER_SECOND;
      WorkerTraces.TickOne(level, s, to);
      var s1 := s.(now := to);
      assert UnixSeconds(to) >= s.delayed[j];
      var trace, s' := DuePromoted(level, s1, j);
      LeadsThen(level, s, [Tick(to)], s1, trace, s');
      var later := LeadsIsPath(level, s, [Tick(to)] + trace, s');
    }
  }

  /** Only an attempt number whose backoff wraps negative can strand its job. */
  lemma StrandedOnlyIfWrapped(level: Level, states: seq<State>, actions: seq<Action>, i: nat, j: Job)
    requires IsRun(level, states, actions) && i < |states| && j in states[i].delayed && states[i].delayed[j] < 0
    ensures Backoff.WrapsNegative(j.attempt)
  {
    hide Init, Apply;
    Promotion.DelayedWereScheduled(level, states, actions, i);
    var k :| 0 <= k < i && Promotion.ScheduledAt(states, actions, k, j, states[i].delayed[j]);
    assert Step(level, states[k], actions[k], states[k + 1]);
    Promotion.ScheduleThread(states[k], actions[k].t, actions[k].jitter);
    hide Backoff.BackoffDelay, Enabled;
    Backoff.DelayOfEveryAttempt(j.attempt, actions[k].jitter);
  }

  /** Such attempt numbers do: until the end of 2049 the retry after attempt 34 is scheduled with a
      negative score. */
  lemma AttemptThirtyFourStrands(now: nat, jitter: nat)
    requires now < 2_524_608_000 * NANOS_PER_SECOND && jitter < 1000
    ensures UnixSeconds(now + Backoff.BackoffDelay(34, jitter)) < 0
  {
    Backoff.WrapsAt33();
    Backoff.NextDoubles(33);
    var d := Backoff.UncappedDelay(34);
    assert d == -2_533_749_779_419_103_232;
    Backoff.JitterBound(-d, jitter);
    assert d * jitter == -((-d) * jitter);
  }
}
