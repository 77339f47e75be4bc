/** process_job and the polling loop as runs of the protocol, failing calls included. */
module WorkerTraces {
  import opened Model
  import opened JobQueue
  import opened Protocol
  import opened Flows
  import opened Traces
  import Carrier
  import Lifecycle
  import Progress
  import Workers

  predicate KnownCategory(report: Report) { report.Failure? ==> report.category in {Transient, Permanent} }

  lemma FetchOne(level: Level, s: State, t: Tid)
    requires t in s.threads && t.Worker? && s.threads[t].Popped?
    ensures var job := s.threads[t].job;
            Leads(level, s, [Fetch(t)],
                  s.(threads := s.threads[t :=
                       if Runnable(WorldOf(s), job) then Starting(job.op, s.ops[job.op].attemptCount + 1, t.w)
                       else Idle]))
  {
    LeadsOne(level, s, Fetch(t));
    hide Leads;
  }

  lemma FinishOne(level: Level, s: State, t: Tid, report: Report)
    requires t in s.threads && s.threads[t].Working? && KnownCategory(report)
    ensures var th := s.threads[t];
            Leads(level, s, [Finish(t, report)],
                  s.(threads := s.threads[t := Reporting(th.op, th.attempt, report, Stage.Sent)]))
  {
    LeadsOne(level, s, Finish(t, report));
    hide Leads;
  }

  lemma GiveUpOne(s: State, t: Tid, z: Tid)
    requires t in s.threads && t.Worker? && s.threads[t].Starting? && Fresh(s, z)
    ensures Leads(F1, s, [GiveUp(t, z)], s.(threads := s.threads[t := Idle][z := s.threads[t]]))
  {
    LeadsOne(F1, s, GiveUp(t, z));
    hide Leads;
  }

  lemma ReReportOne(s: State, t: Tid, z: Tid, detail: string)
    requires t in s.threads && t.Worker? && s.threads[t].Reporting? && s.threads[t].report.Success? && Fresh(s, z)
    ensures var th := s.threads[t];
            var again := Reporting(th.op, th.attempt, Failure(Transient, detail), Stage.Sent);
            Leads(F1, s, [ReReport(t, z, detail)], s.(threads := s.threads[t := again][z := th]))
  {
    LeadsOne(F1, s, ReReport(t, z, detail));
    hide Leads;
  }

  /** s' differs from s in the stores, as w says, and in threads other than s's own; t is back to polling. */
  ghost predicate Returns(s: State, s': State, t: Tid, w: World) {
    t in s'.threads && s'.threads[t] == Idle && s' == With(s, w, s'.threads)
  }

  /** One report sent by a worker: executed (answered or not) or lost. */
  lemma ReportLeads(level: Level, s: State, t: Tid, jitter: nat, fate: Fate) returns (trace: seq<Action>, s': State)
    requires t in s.threads && t.Worker? && s.threads[t].Reporting? && s.threads[t].stage.Sent? &&
             s.threads[t].op in s.ops
    requires jitter < 1000 && (fate != Unsent || level == F1)
    ensures var th := s.threads[t];
            Leads(level, s, trace, s') &&
            Returns(s, s', t, Reported(WorldOf(s), th.op, th.attempt, th.report, jitter, s.now, fate))
  {
    hide Leads;
    var th := s.threads[t];
    if fate == Unsent {
      trace := [Drop(t)];
      s' := s.(threads := Ended(s.threads, t));
      DropOne(s, t);
    } else {
      var n := Progress.FreshHandler(s);
      CompleteLeads(level, s, t, n, jitter, true, true, true);
      trace := CompleteActions(WorldOf(s), t, n, th.op, th.report, jitter, true, true, true);
      hide Completed;
      s' := With(s, Completed(WorldOf(s), th.op, th.attempt, th.report, jitter, s.now, true, true, true),
                 After(WorldOf(s), s.threads, t, n, th.op, th.report));
    }
  }

  /** The success report that the worker stops waiting for. */
  lemma LateLeads(s: State, t: Tid, jitter: nat, fate: Fate) returns (trace: seq<Action>, s': State)
    requires t in s.threads && t.Worker? && s.threads[t].Reporting? && s.threads[t].stage.Sent? &&
             s.threads[t].op in s.ops
    requires jitter < 1000 && s.threads[t].report.Success? && fate != Answered
    ensures var th := s.threads[t];
            Leads(F1, s, trace, s') &&
            t in s'.threads && s'.threads[t] == Reporting(th.op, th.attempt, WorkerException(), Stage.Sent) &&
            s' == With(s, Reported(WorldOf(s), th.op, th.attempt, th.report, jitter, s.now, fate), s'.threads)
  {
    hide Leads;
    var th := s.threads[t];
    var z := Progress.FreshHandler(s);
    ReReportOne(s, t, z, WorkerException().detail);
    var s1 := s.(threads := s.threads[t := Reporting(th.op, th.attempt, WorkerException(), Stage.Sent)][z := th]);
    if fate == Unsent {
      DropOne(s1, z);
      s' := s1.(threads := Ended(s1.threads, z));
      trace := [ReReport(t, z, WorkerException().detail)] + [Drop(z)];
      LeadsThen(F1, s, [ReReport(t, z, WorkerException().detail)], s1, [Drop(z)], s');
    } else {
      var n := Progress.FreshHandler(s1);
      CompleteLeads(F1, s1, z, n, jitter, true, true, true);
      var rest := CompleteActions(WorldOf(s1), z, n, th.op, th.report, jitter, true, true, true);
      hide Completed;
      s' := With(s1, Completed(WorldOf(s1), th.op, th.attempt, th.report, jitter, s.now, true, true, true),
                 After(WorldOf(s1), s1.threads, z, n, th.op, th.report));
      trace := [ReReport(t, z, WorkerException().detail)] + rest;
      LeadsThen(F1, s, [ReReport(t, z, WorkerException().detail)], s1, rest, s');
    }
  }

  /** From the provider's result to the end of process_job. */
  lemma ResultLeads(level: Level, s: State, t: Tid, report: Report, jitter: nat, net: Network)
    returns (trace: seq<Action>, s': State)
    requires t in s.threads && t.Worker? && s.threads[t].Working? && s.threads[t].op in s.ops
    requires jitter < 1000 && KnownCategory(report) && (net == NO_FAULTS || level == F1)
    ensures var th := s.threads[t];
            var w := WorldOf(s);
            var fate := if report.Failure? then net.failure else net.success;
            var sent := Reported(w, th.op, th.attempt, report, jitter, s.now, fate);
            Leads(level, s, trace, s') &&
            Returns(s, s', t, if report.Failure? || net.success == Answered then sent
                              else Reported(sent, th.op, th.attempt, WorkerException(), jitter, s.now, net.failure))
  {
    hide Leads, Reported;
    var th := s.threads[t];
    FinishOne(level, s, t, report);
    var s1 := s.(threads := s.threads[t := Reporting(th.op, th.attempt, report, Stage.Sent)]);
    if report.Failure? || net.success == Answered {
      var fate := if report.Failure? then net.failure else net.success;
      var rest;
      rest, s' := ReportLeads(level, s1, t, jitter, fate);
      trace := [Finish(t, report)] + rest;
      LeadsThen(level, s, [Finish(t, report)], s1, rest, s');
    } else {
      var late, s2 := LateLeads(s1, t, jitter, net.success);
      var rest;
      rest, s' := ReportLeads(F1, s2, t, jitter, net.failure);
      LeadsThen(F1, s1, late, s2, rest, s');
      trace := [Finish(t, report)] + (late + rest);
      LeadsThen(F1, s, [Finish(t, report)], s1, late + rest, s');
    }
  }

  /** From a fetched operation to the end of process_job. */
  lemma StartedLeads(level: Level, s: State, t: Tid, report: Report, attempt: AttemptId, jitter: nat, net: Network)
    returns (trace: seq<Action>, s': State)
    requires t in s.threads && t.Worker? && s.threads[t].Starting? && s.threads[t].op in s.ops &&
             s.threads[t].worker == t.w
    requires s.threads[t].number == s.ops[s.threads[t].op].attemptCount + 1
    requires attempt !in s.attempts && jitter < 1000 && KnownCategory(report) && (net == NO_FAULTS || level == F1)
    requires net.fetchOk && !IsTerminal(s.ops[s.threads[t].op].status)
    ensures Leads(level, s, trace, s')
    ensures forall job: Job :: job.op == s.threads[t].op ==>
              Returns(s, s', t, Processed(WorldOf(s), job, t.w, report, attempt, jitter, s.now, net))
  {
    hide Leads, Reported, Begun;
    var th := s.threads[t];
    if net.start == Unsent {
      trace := [Drop(t)];
      s' := s.(threads := Ended(s.threads, t));
      DropOne(s, t);
    } else if net.start == Unanswered {
      var z := Progress.FreshHandler(s);
      GiveUpOne(s, t, z);
      var s1 := s.(threads := s.threads[t := Idle][z := th]);
      BeginLeads(F1, s1, z, attempt, true);
      s' := With(s1, Begun(WorldOf(s1), th.op, th.worker, th.number, attempt, s.now, true), s1.threads - {z});
      trace := [GiveUp(t, z)] + BeginActions(z, attempt, true);
      LeadsThen(F1, s, [GiveUp(t, z)], s1, BeginActions(z, attempt, true), s');
    } else {
      BeginLeads(level, s, t, attempt, true);
      var s1 := With(s, Begun(WorldOf(s), th.op, t.w, th.number, attempt, s.now, true),
          s.threads[t := Working(th.op, attempt)]);
      BegunKeeps(WorldOf(s), th.op, t.w, th.number, attempt, s.now);
      var rest;
      rest, s' := ResultLeads(level, s1, t, report, jitter, net);
      trace := BeginActions(t, attempt, true) + rest;
      LeadsThen(level, s, BeginActions(t, attempt, true), s1, rest, s');
    }
  }

  lemma BegunKeeps(w: World, op: OpId, worker: WorkerId, number: int, attempt: AttemptId, now: nat)
    requires op in w.ops
    ensures op in Begun(w, op, worker, number, attempt, now, true).ops
  {
  }

  /** process_job on a popped job is a run of the protocol with exactly its effect on the stores;
      a fault-free one if no call fails. */
  lemma ProcessLeads(level: Level, s: State, t: Tid, report: Report, attempt: AttemptId, jitter: nat, net: Network)
    returns (trace: seq<Action>, s': State)
    requires t in s.threads && t.Worker? && s.threads[t].Popped?
    requires attempt !in s.attempts && jitter < 1000 && KnownCategory(report) && (net == NO_FAULTS || level == F1)
    ensures Leads(level, s, trace, s')
    ensures Returns(s, s', t, Processed(WorldOf(s), s.threads[t].job, t.w, report, attempt, jitter, s.now, net))
  {
    hide Leads, Reported, Begun;
    var job := s.threads[t].job;
    if !net.fetchOk {
      trace := [Drop(t)];
      s' := s.(threads := Ended(s.threads, t));
      DropOne(s, t);
    } else {
      FetchOne(level, s, t);
      if !Runnable(WorldOf(s), job) {
        trace := [Fetch(t)];
        s' := s.(threads := s.threads[t := Idle]);
      } else {
        var s1 := s.(threads := s.threads[t := Starting(job.op, s.ops[job.op].attemptCount + 1, t.w)]);
        var rest;
        rest, s' := StartedLeads(level, s1, t, report, attempt, jitter, net);
        trace := [Fetch(t)] + rest;
        LeadsThen(level, s, [Fetch(t)], s1, rest, s');
      }
    }
  }

  // ---- the polling loop ----

  lemma PopOne(level: Level, s: State, t: Tid)
    requires t in s.threads && s.threads[t].Idle? && s.main != []
    ensures var job := s.main[|s.main| - 1];
            Leads(level, s, [Pop(t)], s.(main := s.main[..|s.main| - 1], threads := s.threads[t := Popped(job)]))
  {
    LeadsOne(level, s, Pop(t));
    hide Leads;
  }

  lemma TickOne(level: Level, s: State, to: nat)
    requires to >= s.now
    ensures Leads(level, s, [Tick(to)], s.(now := to))
  {
    LeadsOne(level, s, Tick(to));
    hide Leads;
  }

  predicate TurnOk(level: Level, turn: Turn) {
    turn.jitter < 1000 && KnownCategory(turn.report) && (level == F1 || (turn.parses && turn.net == NO_FAULTS))
  }

  /** One turn of the loop, starting at the turn's time. */
  lemma TurnLeads(level: Level, s: State, t: Tid, turn: Turn) returns (trace: seq<Action>, s': State)
    requires t in s.threads && t.Worker? && s.threads[t].Idle? && s.now == turn.now
    requires TurnOk(level, turn) && turn.attempt !in s.attempts
    ensures Leads(level, s, trace, s') && s'.now == s.now
    ensures Returns(s, s', t, PolledOnce(WorldOf(s), t.w, turn).0)
  {
    hide Leads, Processed;
    if s.main == [] {
      trace, s' := [], s;
      LeadsNone(level, s);
    } else {
      PopOne(level, s, t);
      var s1 := s.(main := s.main[..|s.main| - 1], threads := s.threads[t := Popped(s.main[|s.main| - 1])]);
      var rest;
      if turn.parses {
        rest, s' := ProcessLeads(level, s1, t, turn.report, turn.attempt, turn.jitter, turn.net);
      } else {
        rest, s' := [Drop(t)], s1.(threads := Ended(s1.threads, t));
        DropOne(s1, t);
      }
      trace := [Pop(t)] + rest;
      LeadsThen(level, s, [Pop(t)], s1, rest, s');
    }
  }

  lemma LeadsNone(level: Level, s: State)
    ensures Leads(level, s, [], s)
  {
  }

  ghost predicate TurnsOk(level: Level, s: State, turns: seq<Turn>) {
    && (forall i :: 0 <= i < |turns| ==>
              TurnOk(level, turns[i]) && turns[i].attempt !in s.attempts &&
              s.now <= turns[i].now)
    && (forall i, j :: 0 <= i < j < |turns| ==> turns[i].attempt != turns[j].attempt && turns[i].now <= turns[j].now)
  }

  lemma OneTurnOpens(w: World, worker: WorkerId, turn: Turn)
    ensures forall a :: a in PolledOnce(w, worker, turn).0.attempts ==> a in w.attempts || a == turn.attempt
  {
    if w.main != [] {
      var job := w.main[|w.main| - 1];
      var w1 := w.(main := w.main[..|w.main| - 1]);
      Workers.AttemptsOpened(w1, job, worker, turn.report, turn.attempt, turn.jitter, turn.now, turn.net);
      hide Processed;
    }
  }

  /** Any number of turns of the polling loop is a run of the protocol with exactly the loop's
      effect on the stores. */
  lemma {:induction false} PollLeads(level: Level, s: State, t: Tid, turns: seq<Turn>)
    returns (trace: seq<Action>, s': State)
    requires t in s.threads && t.Worker? && s.threads[t].Idle? && TurnsOk(level, s, turns)
    ensures Leads(level, s, trace, s') && t in s'.threads && s'.threads[t].Idle?
    ensures WorldOf(s') == Polled(WorldOf(s), t.w, turns).0
    ensures s'.now <= if turns == [] then s.now else turns[|turns| - 1].now
    ensures forall a :: a in s'.attempts ==> a in s.attempts || exists i :: 0 <= i < |turns| && a == turns[i].attempt
  {
    hide Leads, PolledOnce, TurnOk;
    if turns == [] {
      trace, s' := [], s;
      LeadsNone(level, s);
    } else {
      var n := |turns| - 1;
      var before, turn := turns[..n], turns[n];
      var p, s1 := PollLeads(level, s, t, before);
      if Polled(WorldOf(s), t.w, before).1 {
        TickOne(level, s1, turn.now);
        var s2 := s1.(now := turn.now);
        assert turn.attempt !in s1.attempts;
        var rest;
        rest, s' := TurnLeads(level, s2, t, turn);
        OneTurnOpens(WorldOf(s2), t.w, turn);
        LeadsThen(level, s1, [Tick(turn.now)], s2, rest, s');
        trace := p + ([Tick(turn.now)] + rest);
        LeadsThen(level, s, p, s1, [Tick(turn.now)] + rest, s');
      } else {
        trace, s' := p, s1;
      }
    }
  }

  /** The loop never breaks the carrier invariant and never touches a settled operation. */
  lemma PollKeepsInv(level: Level, s: State, t: Tid, turns: seq<Turn>) returns (s': State)
    requires Carrier.Inv(s) && t in s.threads && t.Worker? && s.threads[t].Idle? && TurnsOk(level, s, turns)
    ensures Carrier.Inv(s') && WorldOf(s') == Polled(WorldOf(s), t.w, turns).0
    ensures forall o :: o in s.ops && Lifecycle.Settled(s.ops[o].status) ==> o in s'.ops && s'.ops[o] == s.ops[o]
  {
    hide Leads, TurnsOk, Polled, Carrier.Inv, Step;
    var trace;
    trace, s' := PollLeads(level, s, t, turns);
    var states := LeadsIsPath(level, s, trace, s');
    Lifecycle.PathKeepsInv(level, states, trace, |trace|);
    forall o | o in s.ops && Lifecycle.Settled(s.ops[o].status)
      ensures o in s'.ops && s'.ops[o] == s.ops[o]
    {
      Lifecycle.SettledForever(level, states, trace, 0, |trace|, o);
    }
  }

  /** A run continued by any number of turns of one worker's loop is a run, so everything proved of
      runs holds of the stores the loop leaves. */
  lemma PollExtendsRun(level: Level, states: seq<State>, actions: seq<Action>, t: Tid, turns: seq<Turn>)
    returns (states': seq<State>, actions': seq<Action>)
    requires IsRun(level, states, actions)
    requires t in states[|actions|].threads && t.Worker? && states[|actions|].threads[t].Idle?
    requires TurnsOk(level, states[|actions|], turns)
    ensures IsRun(level, states', actions') && states <= states' && actions <= actions'
    ensures WorldOf(states'[|actions'|]) == Polled(WorldOf(states[|actions|]), t.w, turns).0
  {
    hide Leads, TurnsOk, Polled, Step, Init;
    var s := states[|actions|];
    var trace, s' := PollLeads(level, s, t, turns);
    var later := LeadsIsPath(level, s, trace, s');
    Lifecycle.JoinPaths(level, states, actions, later, trace);
    states', actions' := states + later[1..], actions + trace;
  }
}
