/** While an operation is open a fault-free system can move: now, or once the clock passes the
    score of a delayed job. */
module Progress {
  import opened Model
  import opened JobQueue
  import opened Protocol
  import opened Carrier
  import opened FaultFree
  import CarrierSteps
  import FaultFreeRuns
  import Lifecycle
  import Termination
  import Cancellation
  import Backoff
  import Frame

  /** Neither a tick nor anything a client starts: no new request, new row or cancel. */
  predicate Quiet(a: Action) { !a.Tick? && !a.Submit? && !a.Insert? && !a.Cancel? }

  /** A quiet action that lowers the measure. */
  ghost predicate CanMove(s: State) {
    exists a: Action :: Quiet(a) && Allowed(F0, a) && Enabled(s, a) &&
      Termination.Measure(Apply(s, a)) < Termination.Measure(s)
  }

  lemma Moves(s: State, a: Action)
    requires Inv(s) && Allowed(F0, a) && Enabled(s, a) && Quiet(a) && !a.Scan?
    ensures CanMove(s)
  {
    hide Inv, Termination.Measure, Enabled, Apply;
    NotIdle(s, a);
  }

  /** None of these actions is a stutter. */
  lemma NotIdle(s: State, a: Action)
    requires Inv(s) && Allowed(F0, a) && Enabled(s, a) && Quiet(a) && !a.Scan?
    ensures Termination.Measure(Apply(s, a)) < Termination.Measure(s)
  {
    hide Inv, Termination.Measure;
    match a
    case Enqueue(t) => Termination.EnqueueDown(s, t);
    case MarkQueued(t) => Termination.MarkDown(s, t);
    case Pop(t) => Termination.PopDown(s, t);
    case Start(t, attempt) => Termination.StartDown(s, t, attempt);
    case Commit(t, n) => Termination.CommitDown(s, t, n);
    case Schedule(t, jitter) => Termination.ScheduleDown(s, t, jitter);
    case Promote =>
      CarrierSteps.ScanFacts(s);
      Termination.PromoteDown(s);
    case _ => Termination.PhaseStep(s, a); hide Enabled, Apply;
  }

  lemma FreshHandler(s: State) returns (n: Tid)
    ensures Fresh(s, n)
  {
    var used := set t | t in s.threads && t.Handler? :: t.h;
    var h := Cancellation.FreshNat(used);
    n := Handler(h);
    assert n in s.threads ==> h in used;
  }

  /** A worker that is not polling, and a handler about to push its job, always have a next step. */
  lemma ThreadMoves(s: State, t: Tid)
    requires Inv(s) && Local(s) && t in s.threads && !s.threads[t].Idle? && (t.Worker? || s.threads[t].Submitting?)
    ensures CanMove(s)
  {
    hide Inv, Local, CanMove;
    CarrierSteps.ThreadFacts(s, t);
    var a := NextOf(s, t);
    Moves(s, a);
  }

  lemma NextOf(s: State, t: Tid) returns (a: Action)
    requires t in s.threads && ThreadOk(s.ops, s.attempts, t, s.threads[t])
    requires !s.threads[t].Idle? && (t.Worker? || s.threads[t].Submitting?)
    ensures Enabled(s, a) && Allowed(F0, a) && Quiet(a) && !a.Scan?
  {
    match s.threads[t]
    case Popped(_) => a := Fetch(t);
    case Starting(o, _, _) =>
      var id := Cancellation.FreshAttempt(s.attempts);
      a := Start(t, id);
    case Opened(_, _) => a := Resolve(t);
    case Resolved(_, _, _) => a := Incr(t, true);
    case Working(_, _) => a := Finish(t, Failure(Transient, ""));
    case Reporting(_, _, _, stage) =>
      if stage.Sent? {
        a := Read(t);
      } else if stage.Got? {
        a := Decr(t, true);
      } else if stage.Retry? {
        a := Schedule(t, 0);
      } else if stage.negative {
        a := Clamp(t, true);
      } else {
        var n := FreshHandler(s);
        a := Commit(t, n);
      }
    case Submitting(_, _) => a := Enqueue(t);
  }

  // ---- scores stay in the range the scheduler looks at ----

  /** Redis is asked for scores from 0 on; the handler's limit of 3 retries is far below 33. */
  predicate InRange(row: Operation) { row.maxRetries <= 33 }

  ghost predicate ScoresOk(s: State) {
    forall j :: j in s.delayed ==> j.op in s.ops && (InRange(s.ops[j.op]) ==> s.delayed[j] >= 0)
  }

  lemma ScheduleScore(s: State, t: Tid, jitter: nat)
    requires Inv(s) && ScoresOk(s) && Enabled(s, Schedule(t, jitter))
    ensures ScoresOk(ApplySchedule(s, t, jitter))
  {
    hide Inv;
    CarrierSteps.ThreadFacts(s, t);
    RetryCount(s, t);
    var seen := s.threads[t].stage.seen;
    if InRange(seen) {
      Backoff.NoWrapUpTo32(seen.attemptCount);
      Backoff.DelayWindow(seen.attemptCount, jitter);
    }
    hide Backoff.BackoffDelay;
  }

  lemma RetryCount(s: State, t: Tid)
    requires Inv(s) && t in s.threads && s.threads[t].Reporting? && s.threads[t].stage.Retry?
    ensures 0 <= s.threads[t].stage.seen.attemptCount < s.threads[t].stage.seen.maxRetries
    ensures s.threads[t].op in s.ops && s.ops[s.threads[t].op].maxRetries == s.threads[t].stage.seen.maxRetries
  {
    CarrierSteps.ThreadFacts(s, t);
  }

  lemma ScoresKept(s: State, s': State)
    requires ScoresOk(s) && forall j :: j in s'.delayed ==> j in s.delayed && s'.delayed[j] == s.delayed[j]
    requires forall o :: o in s.ops ==> o in s'.ops && s'.ops[o].maxRetries == s.ops[o].maxRetries
    ensures ScoresOk(s')
  {
  }

  lemma PromoteShrinks(s: State)
    requires Enabled(s, Promote)
    ensures forall j :: j in Apply(s, Promote).delayed ==>
              j in s.delayed &&
              Apply(s, Promote).delayed[j] == s.delayed[j]
  {
  }

  lemma StepKeepsScores(level: Level, s: State, a: Action, s': State)
    requires Inv(s) && ScoresOk(s) && Step(level, s, a, s')
    ensures ScoresOk(s')
  {
    hide Inv, ScoresOk;
    if a.Schedule? {
      ScheduleScore(s, a.t, a.jitter);
    } else {
      hide Enabled, Apply;
      Frame.TouchesTables(s, a);
      if a.Promote? { PromoteShrinks(s); }
      forall o | o in s.ops
        ensures o in s'.ops && s'.ops[o].maxRetries == s.ops[o].maxRetries
      {
        Lifecycle.ExactTransition(level, s, a, s', o);
      }
      ScoresKept(s, s');
    }
  }

  lemma {:induction false} RunScores(level: Level, states: seq<State>, actions: seq<Action>, i: nat)
    requires IsRun(level, states, actions) && i < |states|
    ensures ScoresOk(states[i])
  {
    hide Inv, Enabled, Apply;
    if i > 0 {
      RunScores(level, states, actions, i - 1);
      Lifecycle.RunInv(level, states, actions, i - 1);
      StepKeepsScores(level, states[i - 1], actions[i - 1], states[i]);
    }
  }

  // ---- progress ----

  lemma DelayedMoves(s: State, j: Job)
    requires Inv(s) && j in s.delayed && s.delayed[j] >= 0
    ensures exists to: nat :: to >= s.now && CanMove(Apply(s, Tick(to)))
  {
    hide Inv, CanMove, Termination.Measure;
    var to := if s.delayed[j] * NANOS_PER_SECOND > s.now then s.delayed[j] * NANOS_PER_SECOND else s.now;
    var s1 := Apply(s, Tick(to));
    Unobserved(s, s1);
    if s1.scanned != [] {
      Moves(s1, Promote);
    } else {
      var members := DueReplyExists(s1.delayed, s1.now);
      assert IsDue(s1.delayed, s1.now, j);
      assert j in members;
      hide IsDueReply;
      Termination.ScanDown(s1, members);
      ScanMoves(s1, members);
    }
    assert to >= s.now && CanMove(Apply(s, Tick(to)));
  }

  lemma ScanMoves(s: State, members: seq<Job>)
    requires Enabled(s, Scan(members))
    requires Termination.Measure(Apply(s, Scan(members))) < Termination.Measure(s)
    ensures CanMove(s)
  {
  }

  lemma QueueMoves(s: State, w: nat)
    requires Inv(s) && Local(s) && Worker(w) in s.threads && s.main != []
    ensures CanMove(s)
  {
    hide Inv, Local, CanMove;
    if s.threads[Worker(w)].Idle? { Moves(s, Pop(Worker(w))); } else { ThreadMoves(s, Worker(w)); }
  }

  lemma CarrierMoves(s: State, u: Tid, o: OpId)
    requires Inv(s) && Local(s) && u in s.threads && Carried(u, s.threads[u]) == Some(o)
    ensures CanMove(s)
  {
    hide Inv, Local, CanMove;
    FaultFreeRuns.LocalFacts(s, u);
    CarrierSteps.ThreadFacts(s, u);
    ThreadMoves(s, u);
  }

  /** No delayed job of o has a score below the range the scheduler reads. */
  ghost predicate ScoreReadable(s: State, o: OpId) {
    forall j :: j in s.delayed && j.op == o ==> s.delayed[j] >= 0
  }

  /** With at least one worker, an open operation means something can move now or later, unless its
      own delayed job has a negative score; with at most 33 retries it cannot have one. */
  lemma OpenMeansProgress(states: seq<State>, actions: seq<Action>, i: nat, o: OpId, w: nat)
    requires IsRun(F0, states, actions) && i < |states| && Worker(w) in states[i].threads
    requires o in states[i].ops && !IsTerminal(states[i].ops[o].status)
    requires InRange(states[i].ops[o]) || ScoreReadable(states[i], o)
    ensures CanMove(states[i]) || exists to: nat :: to >= states[i].now && CanMove(Apply(states[i], Tick(to)))
  {
    FaultFreeRuns.RunInv0(states, actions, i);
    RunScores(F0, states, actions, i);
    var s := states[i];
    assert !FreeFor(s, None, o);
    hide Inv, CanMove, Local, OverFree, Ends;
    if !NotInMain(s.main, o) {
      QueueMoves(s, w);
    } else if !NotInDelayed(s.delayed, o) {
      var j :| j in s.delayed && j.op == o;
      DelayedMoves(s, j);
    } else {
      var u :| u in s.threads && Carried(u, s.threads[u]) == Some(o);
      CarrierMoves(s, u, o);
    }
  }
}
