/** Left without new requests and cancels, the fault-free system can always finish everything. */
module Completion {
  import opened Model
  import opened Protocol
  import Carrier
  import CarrierSteps
  import Frame
  import Lifecycle
  import Progress
  import Termination

  /** No row asks for more retries than the backoff can express. */
  ghost predicate RowsInRange(ops: Ops) { forall o :: o in ops ==> Progress.InRange(ops[o]) }

  predicate Undriving(a: Action) { a.Tick? || Progress.Quiet(a) }

  lemma RowsStayInRange(s: State, a: Action)
    requires Enabled(s, a) && Undriving(a) && RowsInRange(s.ops)
    ensures RowsInRange(Apply(s, a).ops)
  {
    hide Enabled, Apply;
    Frame.TouchesTables(s, a);
    match a
    case MarkQueued(t) => Frame.MarkRows(s, t);
    case Start(t, attempt) => Frame.StartRows(s, t, attempt);
    case Commit(t, n) => Frame.CommitRows(s, t, n);
    case _ =>
  }

  // ---- workers stay ----

  lemma ClientStays(s: State, a: Action)
    requires a.Submit? || a.Lookup? || a.Insert? || a.Refetch? || a.Enqueue? || a.MarkQueued? || a.Drop?
    requires Enabled(s, a) && a.t.Worker?
    ensures a.t in Apply(s, a).threads
  {
    match a
    case Submit(_, _) =>
    case Lookup(_, _) =>
    case Insert(_, _) =>
    case Refetch(_, _) =>
    case Enqueue(_) =>
    case MarkQueued(_) =>
    case Drop(_) =>
  }

  lemma AttemptStays(s: State, a: Action)
    requires a.Pop? || a.Fetch? || a.Start? || a.Resolve? || a.Incr? || a.Finish?
    requires Enabled(s, a) && a.t.Worker?
    ensures a.t in Apply(s, a).threads
  {
    match a
    case Pop(_) =>
    case Fetch(_) =>
    case Start(_, _) =>
    case Resolve(_) =>
    case Incr(_, _) =>
    case Finish(_, _) =>
  }

  lemma ReportStays(s: State, a: Action)
    requires a.Read? || a.Decr? || a.Clamp? || a.Schedule? || a.Record? || a.Emit?
    requires Enabled(s, a) && a.t.Worker?
    ensures a.t in Apply(s, a).threads
  {
    match a
    case Read(_) =>
    case Decr(_, _) =>
    case Clamp(_, _) =>
    case Schedule(_, _) =>
    case Record(_) =>
    case Emit(_) =>
  }

  lemma ActorStays(s: State, a: Action)
    requires Enabled(s, a) && !Frame.NoThread(a) && !Frame.TwoThreads(a) && a.t.Worker?
    ensures a.t in Apply(s, a).threads
  {
    hide Enabled, Apply;
    if a.Submit? || a.Lookup? || a.Insert? || a.Refetch? || a.Enqueue? || a.MarkQueued? || a.Drop? {
      ClientStays(s, a);
    } else if a.Pop? || a.Fetch? || a.Start? || a.Resolve? || a.Incr? || a.Finish? {
      AttemptStays(s, a);
    } else {
      ReportStays(s, a);
    }
  }

  lemma WorkerStays(s: State, a: Action, w: nat)
    requires Enabled(s, a) && Worker(w) in s.threads
    ensures Worker(w) in Apply(s, a).threads
  {
    hide Enabled, Apply;
    Frame.TouchesThreads(s, a);
    if a.Commit? {
      Frame.CommitThreads(s, a.t, a.notifier);
    } else if Frame.TwoThreads(a) {
      Frame.DetachThreads(s, a);
    } else if !Frame.NoThread(a) && a.t == Worker(w) {
      ActorStays(s, a);
    }
  }

  // ---- completion ----

  /** No new requests, new rows or cancels from position `from` on. */
  ghost predicate Undriven(actions: seq<Action>, from: nat) {
    forall i :: from <= i < |actions| ==> Undriving(actions[i])
  }

  ghost predicate AllTerminal(s: State) { forall o :: o in s.ops ==> IsTerminal(s.ops[o].status) }

  /** A run that can be left alone: it has a worker, and rows in range. */
  ghost predicate Attended(states: seq<State>, actions: seq<Action>, w: nat) {
    && IsRun(F0, states, actions)
    && Worker(w) in states[|actions|].threads && RowsInRange(states[|actions|].ops)
  }

  lemma OneStep(states: seq<State>, actions: seq<Action>, a: Action, w: nat)
    returns (states': seq<State>, actions': seq<Action>)
    requires Attended(states, actions, w) && Undriving(a) && Allowed(F0, a) && Enabled(states[|actions|], a)
    ensures Attended(states', actions', w) && states <= states' && actions' == actions + [a]
    ensures states'[|actions'|] == Apply(states[|actions|], a)
  {
    hide Init, Enabled, Apply;
    var s := states[|actions|];
    WorkerStays(s, a, w);
    RowsStayInRange(s, a);
    Lifecycle.ExtendPath(F0, states, actions, a, Apply(s, a));
    states', actions' := states + [Apply(s, a)], actions + [a];
  }

  /** One action that lowers the measure, after a tick if need be. */
  lemma OneMove(states: seq<State>, actions: seq<Action>, w: nat)
    returns (states': seq<State>, actions': seq<Action>)
    requires Attended(states, actions, w) && !AllTerminal(states[|actions|])
    ensures Attended(states', actions', w) && states <= states' && actions <= actions' && Undriven(actions', |actions|)
    ensures Termination.Measure(states'[|actions'|]) < Termination.Measure(states[|actions|])
  {
    hide Init, Enabled, Apply, Termination.Measure;
    var s := states[|actions|];
    var o :| o in s.ops && !IsTerminal(s.ops[o].status);
    Progress.OpenMeansProgress(states, actions, |actions|, o, w);
    states', actions' := states, actions;
    if !Progress.CanMove(s) {
      var to := MoveLater(s);
      Termination.TickKeeps(s, Tick(to));
      states', actions' := OneStep(states, actions, Tick(to), w);
    }
    var m := states'[|actions'|];
    assert Progress.CanMove(m);
    var a: Action :| Progress.Quiet(a) && Allowed(F0, a) && Enabled(m, a) &&
      Termination.Measure(Apply(m, a)) < Termination.Measure(m);
    states', actions' := OneStep(states', actions', a, w);
  }

  lemma MoveLater(s: State) returns (to: nat)
    requires exists to: nat :: to >= s.now && Progress.CanMove(Apply(s, Tick(to)))
    ensures Enabled(s, Tick(to)) && Progress.CanMove(Apply(s, Tick(to)))
  {
    hide Progress.CanMove;
    to :| to >= s.now && Progress.CanMove(Apply(s, Tick(to)));
  }

  /** From every reachable fault-free state with a worker and rows in range, some continuation
      without new requests, new rows and cancels ends with every operation terminal. */
  lemma {:induction false} AllCanFinish(states: seq<State>, actions: seq<Action>, w: nat)
    returns (states': seq<State>, actions': seq<Action>)
    requires Attended(states, actions, w)
    ensures IsRun(F0, states', actions') && states <= states' && actions <= actions' && Undriven(actions', |actions|)
    ensures AllTerminal(states'[|actions'|])
    decreases Termination.Measure(states[|actions|])
  {
    hide Init, Step, Termination.Measure, AllTerminal;
    if AllTerminal(states[|actions|]) {
      states', actions' := states, actions;
    } else {
      var mid, acts := OneMove(states, actions, w);
      MeasureNatural(states, actions);
      states', actions' := AllCanFinish(mid, acts, w);
    }
  }

  lemma MeasureNatural(states: seq<State>, actions: seq<Action>)
    requires IsRun(F0, states, actions)
    ensures Termination.Measure(states[|actions|]) >= 0
  {
    hide Init, Step, Termination.Measure, Carrier.Inv;
    Lifecycle.RunInv(F0, states, actions, |actions|);
    CarrierSteps.ScanFacts(states[|actions|]);
    Termination.MeasureNonNegative(states[|actions|]);
  }

  // ---- whichever way it goes ----

  /** No action but a new request, a new row or a cancel can change anything, now or later. */
  ghost predicate Exhausted(s: State) {
    forall to: nat, a: Action ::
      to >= s.now && Progress.Quiet(a) && Allowed(F0, a) && Enabled(Apply(s, Tick(to)), a) ==>
        Apply(Apply(s, Tick(to)), a) == Apply(s, Tick(to))
  }

  lemma ExhaustedStuck(s: State, to: nat)
    requires Exhausted(s) && to >= s.now
    ensures !Progress.CanMove(Apply(s, Tick(to)))
  {
    hide Termination.Measure, Apply, Enabled;
  }

  lemma ExhaustedNow(s: State)
    requires Exhausted(s)
    ensures !Progress.CanMove(s)
  {
    assert Apply(s, Tick(s.now)) == s;
    hide Exhausted;
    ExhaustedStuck(s, s.now);
  }

  lemma SuffixIsPath(states: seq<State>, actions: seq<Action>, from: nat)
    requires IsPath(F0, states, actions) && from <= |actions|
    ensures IsPath(F0, states[from..], actions[from..])
  {
    hide Step;
    forall i | 0 <= i < |actions| - from
      ensures Step(F0, states[from..][i], actions[from..][i], states[from..][i + 1])
    {
      assert Step(F0, states[from + i], actions[from + i], states[from + i + 1]);
    }
  }

  /** Whatever order the actions of a fault-free run take: after the last request at most Measure
      more actions change anything, and once none can, every operation is terminal, save those
      asking for more than 33 retries whose delayed job has a negative score. */
  lemma EveryRunFinishes(states: seq<State>, actions: seq<Action>, from: nat, w: nat)
    requires IsRun(F0, states, actions) && from <= |actions|
    requires forall i :: from <= i < |actions| ==> !actions[i].Submit?
    requires Worker(w) in states[|actions|].threads
    ensures Termination.Effective(states[from..], actions[from..], |actions| - from) <=
            Termination.Measure(states[from])
    ensures var s := states[|actions|];
            Exhausted(s) ==>
              forall o :: o in s.ops && !IsTerminal(s.ops[o].status) ==>
                !Progress.InRange(s.ops[o]) && !Progress.ScoreReadable(s, o)
  {
    hide Init, Step, Exhausted, Progress.CanMove, Progress.ScoreReadable, Progress.InRange;
    hide Termination.Measure, Termination.Effective, Carrier.Inv;
    SuffixIsPath(states, actions, from);
    Lifecycle.RunInv(F0, states, actions, from);
    Termination.BoundedWork(states[from..], actions[from..], |actions| - from);
    var s := states[|actions|];
    if Exhausted(s) {
      ExhaustedNow(s);
      forall o | o in s.ops && !IsTerminal(s.ops[o].status)
        ensures !Progress.InRange(s.ops[o]) && !Progress.ScoreReadable(s, o)
      {
        if Progress.InRange(s.ops[o]) || Progress.ScoreReadable(s, o) {
          Progress.OpenMeansProgress(states, actions, |actions|, o, w);
          var to :| to >= s.now && Progress.CanMove(Apply(s, Tick(to)));
          ExhaustedStuck(s, to);
        }
      }
    }
  }
}
