/** Where every stored value comes from: each column of an operation and of an attempt was put there
    by a request, a report, a start or a cancel that the run really contains, at both fault levels. */
module Provenance {
  import opened Model
  import opened JobQueue
  import opened Protocol
  import opened Carrier
  import CarrierSteps
  import Lifecycle
  import Rows
  import Store
  import Frame

  // ---- what one action does to every column ----

  /** The row after a report on its running attempt. */
  predicate Ends(row: Operation, row': Operation, report: Report, retry: bool, now: nat) {
    match report
    case Success(output, _, _) =>
      row' == row.(status := Succeeded, output := Some(output), errorMessage := None, completedAt := Some(now))
    case Failure(category, detail) =>
      row'.status == (if retry then Retrying else if category == Permanent then Failed else DeadLettered) &&
      row' == row.(status := row'.status, errorMessage := Some(detail),
                   completedAt := if retry then row.completedAt else Some(now))
  }

  /** Some action has changed the row as its statement says. */
  ghost predicate Effect(s: State, a: Action, o: OpId, row: Operation, row': Operation) {
    match a
    case MarkQueued(_) => row.status == Pending && row' == row.(status := Queued)
    case Cancel(tenant, op) =>
      op == o && tenant == row.tenant && !IsTerminal(row.status) &&
      row' == row.(status := Cancelled, completedAt := Some(s.now))
    case Start(t, _) =>
      t in s.threads && s.threads[t].Starting? && s.threads[t].op == o &&
      row' == row.(status := Running, attemptCount := s.threads[t].number,
                   startedAt := if row.startedAt.Some? then row.startedAt else Some(s.now))
    case Commit(t, _) =>
      t in s.threads && s.threads[t].Reporting? && s.threads[t].op == o && s.threads[t].stage.Freed? &&
      row.status == Running &&
      Ends(row, row', s.threads[t].report, WillRetry(s.threads[t].report, s.threads[t].stage.seen), s.now)
    case _ => false
  }

  lemma CommitChanges(s: State, t: Tid, n: Tid, o: OpId)
    requires Enabled(s, Commit(t, n)) && o in s.ops
    ensures o in Apply(s, Commit(t, n)).ops
    ensures var row, row' := s.ops[o], Apply(s, Commit(t, n)).ops[o];
            row' == row || Effect(s, Commit(t, n), o, row, row')
  {
    hide Apply, Enabled, WillRetry;
    Frame.CommitRows(s, t, n);
  }

  lemma StartChanges(s: State, t: Tid, id: AttemptId, o: OpId)
    requires Enabled(s, Start(t, id)) && o in s.ops
    ensures o in Apply(s, Start(t, id)).ops
    ensures var row, row' := s.ops[o], Apply(s, Start(t, id)).ops[o];
            row' == row || Effect(s, Start(t, id), o, row, row')
  {
    hide Apply, Enabled;
    Frame.StartRows(s, t, id);
  }

  lemma RowChanges(s: State, a: Action, o: OpId)
    requires Enabled(s, a) && o in s.ops
    ensures o in Apply(s, a).ops
    ensures Apply(s, a).ops[o] == s.ops[o] || Effect(s, a, o, s.ops[o], Apply(s, a).ops[o])
  {
    hide Apply, Enabled, WillRetry, Ends, Store.NewRow, Store.Conflicts;
    if a.Commit? {
      CommitChanges(s, a.t, a.notifier, o);
    } else if a.Start? {
      StartChanges(s, a.t, a.attempt, o);
    } else {
      Frame.TouchesTables(s, a);
      match a
      case Insert(t, id) => Frame.InsertRows(s, t, id);
      case MarkQueued(t) => Frame.MarkRows(s, t);
      case Cancel(tenant, op) => Frame.CancelRows(s, tenant, op);
      case _ =>
    }
  }

  /** A row changes by exactly what the statement of the action writes, or not at all. */
  lemma RowEvolves(s: State, a: Action, o: OpId)
    requires Enabled(s, a) && o in s.ops
    ensures o in Apply(s, a).ops
    ensures Apply(s, a).ops[o] == s.ops[o] || Effect(s, a, o, s.ops[o], Apply(s, a).ops[o])
    ensures Apply(s, a).ops[o].input == s.ops[o].input && Apply(s, a).ops[o].createdAt == s.ops[o].createdAt
    ensures SameIdentity(s.ops[o], Apply(s, a).ops[o])
  {
    hide Apply, Enabled, WillRetry;
    RowChanges(s, a, o);
  }

  /** A row as the request asks for it. */
  predicate Requested(row: Operation, req: CreateRequest) {
    row.tenant == req.tenant && row.key == req.key && row.opType == req.opType && row.input == req.input &&
    row.maxRetries == req.maxRetries
  }

  /** A new row comes from an insert, with the values of its request. */
  lemma RowAppears(s: State, a: Action, o: OpId)
    requires Enabled(s, a) && o in Apply(s, a).ops && o !in s.ops
    ensures a.Insert? && a.id == o && a.t in s.threads && s.threads[a.t].Inserting?
    ensures var row := Apply(s, a).ops[o];
            Requested(row, s.threads[a.t].req) && row.createdAt == s.now && row.status == Pending &&
            row.attemptCount == 0 && row.output == None && row.errorMessage == None && row.startedAt == None &&
            row.completedAt == None
    ensures Apply(s, a).threads == s.threads[a.t := Submitting(s.threads[a.t].req, o)]
  {
    hide Apply, Enabled;
    Frame.TouchesTables(s, a);
    match a
    case Insert(t, id) => Frame.InsertRows(s, t, id);
    case MarkQueued(t) => Frame.MarkRows(s, t);
    case Cancel(tenant, op) => Frame.CancelRows(s, tenant, op);
    case Start(t, attempt) => Frame.StartRows(s, t, attempt);
    case Commit(t, n) => Frame.CommitRows(s, t, n);
    case _ =>
  }

  // ---- the events of a run ----

  /** Step k commits a report on operation o. */
  ghost predicate Reports(states: seq<State>, actions: seq<Action>, k: nat, o: OpId) {
    k < |actions| && k < |states| && actions[k].Commit? && actions[k].t in states[k].threads &&
    states[k].threads[actions[k].t].Reporting? && states[k].threads[actions[k].t].op == o
  }

  ghost function ReportOf(states: seq<State>, actions: seq<Action>, k: nat, o: OpId): Report
    requires Reports(states, actions, k, o)
  {
    states[k].threads[actions[k].t].report
  }

  ghost predicate Inserts(states: seq<State>, actions: seq<Action>, k: nat, o: OpId) {
    k < |actions| && k < |states| && actions[k].Insert? && actions[k].id == o && actions[k].t in states[k].threads &&
    states[k].threads[actions[k].t].Inserting?
  }

  ghost predicate Starts(states: seq<State>, actions: seq<Action>, k: nat, o: OpId) {
    k < |actions| && k < |states| && actions[k].Start? && actions[k].t in states[k].threads &&
    states[k].threads[actions[k].t].Starting? && states[k].threads[actions[k].t].op == o
  }

  ghost predicate Cancels(states: seq<State>, actions: seq<Action>, k: nat, o: OpId, tenant: Tenant) {
    k < |actions| && k < |states| && actions[k] == Cancel(tenant, o)
  }

  // ---- what a row tells of the run before step n ----

  /** Tenant, key, type, input and retries are those of the request inserted, at that time. */
  ghost predicate CreateTold(states: seq<State>, actions: seq<Action>, n: nat, o: OpId, row: Operation) {
    exists k :: 0 <= k < n && Inserts(states, actions, k, o) &&
      Requested(row, states[k].threads[actions[k].t].req) && row.createdAt == states[k].now
  }

  /** An output is the one some success report carried, and the end is the time of its commit. */
  ghost predicate OutputTold(states: seq<State>, actions: seq<Action>, n: nat, o: OpId, row: Operation) {
    row.output.Some? ==>
      exists k :: 0 <= k < n && Reports(states, actions, k, o) &&
        var report := ReportOf(states, actions, k, o);
        report.Success? && row.output == Some(report.output) && row.completedAt == Some(states[k].now)
  }

  /** An error message is the detail of some failure report, of the category the status calls for. */
  ghost predicate ErrorTold(states: seq<State>, actions: seq<Action>, n: nat, o: OpId, row: Operation) {
    row.errorMessage.Some? ==>
      exists k :: 0 <= k < n && Reports(states, actions, k, o) &&
        var report := ReportOf(states, actions, k, o);
        report.Failure? && row.errorMessage == Some(report.detail) &&
        (row.status == Retrying ==> report.category == Transient) &&
        (row.status == Failed ==> report.category == Permanent && row.completedAt == Some(states[k].now)) &&
        (row.status == DeadLettered ==> report.category != Permanent && row.completedAt == Some(states[k].now))
  }

  /** The start time is that of the first attempt, whatever attempts followed. */
  ghost predicate StartTold(states: seq<State>, actions: seq<Action>, n: nat, o: OpId, row: Operation) {
    row.startedAt.Some? ==>
      exists k :: 0 <= k < n && Starts(states, actions, k, o) &&
        states[k].threads[actions[k].t].number == 1 && row.startedAt == Some(states[k].now)
  }

  /** A CANCELLED row ended when its own tenant cancelled it. */
  ghost predicate CancelTold(states: seq<State>, actions: seq<Action>, n: nat, o: OpId, row: Operation) {
    row.status == Cancelled ==>
      exists k :: 0 <= k < n && Cancels(states, actions, k, o, row.tenant) && row.completedAt == Some(states[k].now)
  }

  ghost predicate RowTold(states: seq<State>, actions: seq<Action>, n: nat, o: OpId, row: Operation) {
    CreateTold(states, actions, n, o, row) && OutputTold(states, actions, n, o, row) &&
    ErrorTold(states, actions, n, o, row) && StartTold(states, actions, n, o, row) &&
    CancelTold(states, actions, n, o, row)
  }

  lemma CreateStep(states: seq<State>, actions: seq<Action>, n: nat, o: OpId, row: Operation, row': Operation)
    requires CreateTold(states, actions, n, o, row) && SameIdentity(row, row')
    requires row'.input == row.input && row'.createdAt == row.createdAt
    ensures CreateTold(states, actions, n + 1, o, row')
  {
    var k :| 0 <= k < n && Inserts(states, actions, k, o) &&
             Requested(row, states[k].threads[actions[k].t].req) && row.createdAt == states[k].now;
    assert k < n + 1;
  }

  lemma OutputStep(states: seq<State>, actions: seq<Action>, n: nat, o: OpId, row: Operation, row': Operation)
    requires n < |actions| && n < |states| && OutputTold(states, actions, n, o, row)
    requires row' == row || Effect(states[n], actions[n], o, row, row')
    requires row.output.Some? <==> row.status == Succeeded
    ensures OutputTold(states, actions, n + 1, o, row')
  {
    hide WillRetry;
    if row'.output.Some? {
      if row.output.Some? {
        var k :| 0 <= k < n && Reports(states, actions, k, o) &&
                 var report := ReportOf(states, actions, k, o);
                 report.Success? && row.output == Some(report.output) && row.completedAt == Some(states[k].now);
        assert k < n + 1;
      } else {
        assert Reports(states, actions, n, o);
      }
    }
  }

  lemma ErrorStep(states: seq<State>, actions: seq<Action>, n: nat, o: OpId, row: Operation, row': Operation)
    requires n < |actions| && n < |states| && ErrorTold(states, actions, n, o, row)
    requires row' == row || Effect(states[n], actions[n], o, row, row')
    requires row.status == Pending ==> row.errorMessage == None
    ensures ErrorTold(states, actions, n + 1, o, row')
  {
    if row'.errorMessage.Some? {
      if actions[n].Commit? && row' != row {
        assert Reports(states, actions, n, o);
      } else {
        var k :| 0 <= k < n && Reports(states, actions, k, o) &&
                 var report := ReportOf(states, actions, k, o);
                 report.Failure? && row.errorMessage == Some(report.detail) &&
                 (row.status == Retrying ==> report.category == Transient) &&
                 (row.status == Failed ==> report.category == Permanent && row.completedAt == Some(states[k].now)) &&
                 (row.status == DeadLettered ==>
                    report.category != Permanent && row.completedAt == Some(states[k].now));
        assert k < n + 1;
      }
    }
  }

  lemma StartStep(states: seq<State>, actions: seq<Action>, n: nat, o: OpId, row: Operation, row': Operation)
    requires n < |actions| && n < |states| && StartTold(states, actions, n, o, row)
    requires row' == row || Effect(states[n], actions[n], o, row, row')
    requires row.startedAt.None? ==> row.attemptCount == 0
    requires Starts(states, actions, n, o) ==> states[n].threads[actions[n].t].number == row.attemptCount + 1
    ensures StartTold(states, actions, n + 1, o, row')
  {
    hide WillRetry;
    if row'.startedAt.Some? {
      if row.startedAt.Some? {
        var k :| 0 <= k < n && Starts(states, actions, k, o) &&
                 states[k].threads[actions[k].t].number == 1 && row.startedAt == Some(states[k].now);
        assert k < n + 1;
      } else {
        assert Starts(states, actions, n, o);
      }
    }
  }

  lemma CancelStep(states: seq<State>, actions: seq<Action>, n: nat, o: OpId, row: Operation, row': Operation)
    requires n < |actions| && n < |states| && CancelTold(states, actions, n, o, row)
    requires row' == row || Effect(states[n], actions[n], o, row, row')
    requires row'.tenant == row.tenant
    ensures CancelTold(states, actions, n + 1, o, row')
  {
    hide WillRetry;
    if row'.status == Cancelled {
      if row' != row {
        assert Cancels(states, actions, n, o, row.tenant);
      } else {
        var k :| 0 <= k < n && Cancels(states, actions, k, o, row.tenant) && row.completedAt == Some(states[k].now);
        assert k < n + 1;
      }
    }
  }

  lemma RowStep(level: Level, states: seq<State>, actions: seq<Action>, n: nat, o: OpId)
    requires IsRun(level, states, actions) && n < |actions| && o in states[n].ops
    requires RowTold(states, actions, n, o, states[n].ops[o])
    ensures o in states[n + 1].ops && RowTold(states, actions, n + 1, o, states[n + 1].ops[o])
  {
    hide Init, Inv, Enabled, Apply, Effect, CreateTold, OutputTold, ErrorTold, StartTold, CancelTold;
    assert Step(level, states[n], actions[n], states[n + 1]);
    Rows.RunRows(level, states, actions, n);
    Lifecycle.RunInv(level, states, actions, n);
    RowEvolves(states[n], actions[n], o);
    var row, row' := states[n].ops[o], states[n + 1].ops[o];
    assert Rows.RowOk(row, states[n].now);
    if Starts(states, actions, n, o) { CarrierSteps.ThreadFacts(states[n], actions[n].t); }
    CreateStep(states, actions, n, o, row, row');
    OutputStep(states, actions, n, o, row, row');
    ErrorStep(states, actions, n, o, row, row');
    StartStep(states, actions, n, o, row, row');
    CancelStep(states, actions, n, o, row, row');
  }

  lemma NewRowTold(level: Level, states: seq<State>, actions: seq<Action>, n: nat, o: OpId)
    requires IsRun(level, states, actions) && n < |actions| && o in states[n + 1].ops && o !in states[n].ops
    ensures RowTold(states, actions, n + 1, o, states[n + 1].ops[o])
  {
    hide Init, Enabled, Apply;
    assert Step(level, states[n], actions[n], states[n + 1]);
    RowAppears(states[n], actions[n], o);
    assert Inserts(states, actions, n, o);
  }

  /** In every reachable state of both levels each column of each operation is the one that some
      earlier request, start, report or cancel of the run supplied. */
  lemma {:induction false} RowTellsHistory(level: Level, states: seq<State>, actions: seq<Action>, n: nat, o: OpId)
    requires IsRun(level, states, actions) && n < |states| && o in states[n].ops
    ensures RowTold(states, actions, n, o, states[n].ops[o])
  {
    hide Enabled, Apply, RowTold;
    if n > 0 {
      if o in states[n - 1].ops {
        RowTellsHistory(level, states, actions, n - 1, o);
        RowStep(level, states, actions, n - 1, o);
      } else {
        NewRowTold(level, states, actions, n - 1, o);
      }
    }
  }

  // ---- attempt rows ----

  /** The attempt row after a report on it. */
  predicate Closes(att: Attempt, att': Attempt, report: Report, now: nat) {
    match report
    case Success(_, provider, latencyMs) =>
      att' == att.(finishedAt := Some(now), success := Some(true), provider := Some(provider),
                   latencyMs := Some(latencyMs))
    case Failure(category, detail) =>
      att' == att.(finishedAt := Some(now), success := Some(false), category := Some(category), detail := Some(detail))
  }

  ghost predicate Touches(s: State, a: Action, id: AttemptId) {
    a.Commit? && a.t in s.threads && s.threads[a.t].Reporting? && s.threads[a.t].attempt == id
  }

  lemma AttemptEvolves(s: State, a: Action, id: AttemptId)
    requires Enabled(s, a) && id in s.attempts
    ensures id in Apply(s, a).attempts
    ensures var att, att' := s.attempts[id], Apply(s, a).attempts[id];
            if Touches(s, a, id) then Closes(att, att', s.threads[a.t].report, s.now) else att' == att
  {
    hide Apply, Enabled;
    Frame.TouchesTables(s, a);
    if a.Start? {
      StartAttempts(s, a.t, a.attempt);
    } else if a.Commit? {
      CommitAttempts(s, a.t, a.notifier);
    }
  }

  lemma StartAttempts(s: State, t: Tid, id: AttemptId)
    requires Enabled(s, Start(t, id))
    ensures t in s.threads && s.threads[t].Starting? && id !in s.attempts
    ensures var th := s.threads[t];
            Apply(s, Start(t, id)).attempts ==
              s.attempts[id := Attempt(th.op, th.number, th.worker, s.now, None, None, None, None, None, None)]
  {
    hide Store.Started;
  }

  lemma CommitAttempts(s: State, t: Tid, n: Tid)
    requires Enabled(s, Commit(t, n))
    ensures t in s.threads && s.threads[t].Reporting?
    ensures var th, s' := s.threads[t], Apply(s, Commit(t, n));
            if th.attempt in s.attempts then
              th.attempt in s'.attempts && s'.attempts == s.attempts[th.attempt := s'.attempts[th.attempt]] &&
              Closes(s.attempts[th.attempt], s'.attempts[th.attempt], th.report, s.now)
            else s'.attempts == s.attempts
  {
    hide Store.FinishedSuccess, Store.FinishedFailure;
  }

  lemma AttemptAppears(s: State, a: Action, id: AttemptId)
    requires Enabled(s, a) && id in Apply(s, a).attempts && id !in s.attempts
    ensures a.Start? && a.attempt == id && a.t in s.threads && s.threads[a.t].Starting?
    ensures var th := s.threads[a.t];
            Apply(s, a).attempts[id] ==
              Attempt(th.op, th.number, th.worker, s.now, None, None, None, None, None, None)
  {
    hide Apply, Enabled;
    Frame.TouchesTables(s, a);
    if a.Start? {
      StartAttempts(s, a.t, a.attempt);
    } else if a.Commit? {
      CommitAttempts(s, a.t, a.notifier);
    }
  }

  /** Step k commits a report on this attempt. */
  ghost predicate ReportsOn(states: seq<State>, actions: seq<Action>, k: nat, id: AttemptId) {
    k < |actions| && k < |states| && Touches(states[k], actions[k], id)
  }

  ghost function ReportOn(states: seq<State>, actions: seq<Action>, k: nat, id: AttemptId): Report
    requires ReportsOn(states, actions, k, id)
  {
    states[k].threads[actions[k].t].report
  }

  ghost predicate Opens(states: seq<State>, actions: seq<Action>, k: nat, id: AttemptId) {
    k < |actions| && k < |states| && actions[k].Start? && actions[k].attempt == id &&
    actions[k].t in states[k].threads && states[k].threads[actions[k].t].Starting?
  }

  /** Operation, number and worker are those of the start that opened it, at that time. */
  ghost predicate OpenTold(states: seq<State>, actions: seq<Action>, n: nat, id: AttemptId, att: Attempt) {
    exists k :: 0 <= k < n && Opens(states, actions, k, id) &&
      var th := states[k].threads[actions[k].t];
      att.op == th.op && att.number == th.number && att.worker == th.worker && att.startedAt == states[k].now
  }

  /** The verdict and the end time are those of one report. */
  ghost predicate EndTold(states: seq<State>, actions: seq<Action>, n: nat, id: AttemptId, att: Attempt) {
    att.success.Some? || att.finishedAt.Some? ==>
      exists k :: 0 <= k < n && ReportsOn(states, actions, k, id) &&
        att.success == Some(ReportOn(states, actions, k, id).Success?) && att.finishedAt == Some(states[k].now)
  }

  /** Provider and latency are those of one success report. */
  ghost predicate ResultTold(states: seq<State>, actions: seq<Action>, n: nat, id: AttemptId, att: Attempt) {
    att.provider.Some? || att.latencyMs.Some? ==>
      exists k :: 0 <= k < n && ReportsOn(states, actions, k, id) &&
        var report := ReportOn(states, actions, k, id);
        report.Success? && att.provider == Some(report.provider) && att.latencyMs == Some(report.latencyMs)
  }

  /** Category and detail are those of one failure report. */
  ghost predicate FaultTold(states: seq<State>, actions: seq<Action>, n: nat, id: AttemptId, att: Attempt) {
    att.category.Some? || att.detail.Some? ==>
      exists k :: 0 <= k < n && ReportsOn(states, actions, k, id) &&
        var report := ReportOn(states, actions, k, id);
        report.Failure? && att.category == Some(report.category) && att.detail == Some(report.detail)
  }

  ghost predicate AttemptTold(states: seq<State>, actions: seq<Action>, n: nat, id: AttemptId, att: Attempt) {
    OpenTold(states, actions, n, id, att) && EndTold(states, actions, n, id, att) &&
    ResultTold(states, actions, n, id, att) && FaultTold(states, actions, n, id, att)
  }

  lemma OpenKept(states: seq<State>, actions: seq<Action>, n: nat, id: AttemptId, att: Attempt, att': Attempt)
    requires OpenTold(states, actions, n, id, att)
    requires att'.op == att.op && att'.number == att.number
    requires att'.worker == att.worker && att'.startedAt == att.startedAt
    ensures OpenTold(states, actions, n + 1, id, att')
  {
    var k :| 0 <= k < n && Opens(states, actions, k, id) &&
             var th := states[k].threads[actions[k].t];
             att.op == th.op && att.number == th.number && att.worker == th.worker && att.startedAt == states[k].now;
    assert k < n + 1;
  }

  lemma UntouchedTold(states: seq<State>, actions: seq<Action>, n: nat, id: AttemptId, att: Attempt)
    requires AttemptTold(states, actions, n, id, att)
    ensures AttemptTold(states, actions, n + 1, id, att)
  {
    OpenKept(states, actions, n, id, att, att);
    EndKept(states, actions, n, id, att);
    ResultKept(states, actions, n, id, att, att);
    FaultKept(states, actions, n, id, att, att);
  }

  lemma EndKept(states: seq<State>, actions: seq<Action>, n: nat, id: AttemptId, att: Attempt)
    requires EndTold(states, actions, n, id, att)
    ensures EndTold(states, actions, n + 1, id, att)
  {
    if att.success.Some? || att.finishedAt.Some? {
      var k :| 0 <= k < n && ReportsOn(states, actions, k, id) &&
               att.success == Some(ReportOn(states, actions, k, id).Success?) && att.finishedAt == Some(states[k].now);
      assert k < n + 1;
    }
  }

  lemma ResultKept(states: seq<State>, actions: seq<Action>, n: nat, id: AttemptId, att: Attempt, att': Attempt)
    requires ResultTold(states, actions, n, id, att) && att'.provider == att.provider && att'.latencyMs == att.latencyMs
    ensures ResultTold(states, actions, n + 1, id, att')
  {
    if att.provider.Some? || att.latencyMs.Some? {
      var k :| 0 <= k < n && ReportsOn(states, actions, k, id) &&
               var report := ReportOn(states, actions, k, id);
               report.Success? && att.provider == Some(report.provider) && att.latencyMs == Some(report.latencyMs);
      assert k < n + 1;
    }
  }

  lemma FaultKept(states: seq<State>, actions: seq<Action>, n: nat, id: AttemptId, att: Attempt, att': Attempt)
    requires FaultTold(states, actions, n, id, att) && att'.category == att.category && att'.detail == att.detail
    ensures FaultTold(states, actions, n + 1, id, att')
  {
    if att.category.Some? || att.detail.Some? {
      var k :| 0 <= k < n && ReportsOn(states, actions, k, id) &&
               var report := ReportOn(states, actions, k, id);
               report.Failure? && att.category == Some(report.category) && att.detail == Some(report.detail);
      assert k < n + 1;
    }
  }

  lemma ClosedTold(states: seq<State>, actions: seq<Action>, n: nat, id: AttemptId, att: Attempt, att': Attempt)
    requires AttemptTold(states, actions, n, id, att) && ReportsOn(states, actions, n, id)
    requires Closes(att, att', ReportOn(states, actions, n, id), states[n].now)
    ensures AttemptTold(states, actions, n + 1, id, att')
  {
    hide OpenTold, Touches;
    OpenKept(states, actions, n, id, att, att');
    if ReportOn(states, actions, n, id).Success? {
      FaultKept(states, actions, n, id, att, att');
    } else {
      ResultKept(states, actions, n, id, att, att');
    }
  }

  /** In every reachable state of both levels each column of each attempt is the one its start or an
      earlier report on it supplied. */
  lemma {:induction false} AttemptTellsHistory(level: Level, states: seq<State>, actions: seq<Action>, n: nat,
      id: AttemptId)
    requires IsRun(level, states, actions) && n < |states| && id in states[n].attempts
    ensures AttemptTold(states, actions, n, id, states[n].attempts[id])
  {
    hide Enabled, Apply, AttemptTold;
    if n > 0 {
      var s, a := states[n - 1], actions[n - 1];
      assert Step(level, s, a, states[n]);
      if id in s.attempts {
        AttemptTellsHistory(level, states, actions, n - 1, id);
        AttemptEvolves(s, a, id);
        if Touches(s, a, id) {
          ClosedTold(states, actions, n - 1, id, s.attempts[id], states[n].attempts[id]);
        } else {
          UntouchedTold(states, actions, n - 1, id, s.attempts[id]);
        }
      } else {
        AttemptAppears(s, a, id);
        assert Opens(states, actions, n - 1, id);
        OpenedTold(states, actions, n - 1, id, states[n].attempts[id]);
      }
    }
  }

  lemma OpenedTold(states: seq<State>, actions: seq<Action>, n: nat, id: AttemptId, att: Attempt)
    requires Opens(states, actions, n, id)
    requires var th := states[n].threads[actions[n].t];
             att == Attempt(th.op, th.number, th.worker, states[n].now, None, None, None, None, None, None)
    ensures AttemptTold(states, actions, n + 1, id, att)
  {
  }

  // ---- who created a row ----

  /** Handlers that say they inserted a row hold the request it was made from. */
  ghost predicate CreatorsMatch(s: State) {
    forall t :: t in s.threads && Created(s.threads[t]).Some? ==>
      var o := Created(s.threads[t]).value;
      o in s.ops && Requested(s.ops[o], s.threads[t].req)
  }

  predicate Creating(a: Action) { a.Submit? || a.Lookup? || a.Insert? || a.Refetch? || a.Enqueue? || a.MarkQueued? }

  lemma InserterCreates(s: State, t: Tid, id: OpId)
    requires Enabled(s, Insert(t, id)) && t in Apply(s, Insert(t, id)).threads
    requires Created(Apply(s, Insert(t, id)).threads[t]).Some?
    ensures t in s.threads && s.threads[t].Inserting? && id !in s.ops && id in Apply(s, Insert(t, id)).ops
    ensures var th := Apply(s, Insert(t, id)).threads[t]; Created(th) == Some(id) && th.req == s.threads[t].req
  {
    hide Enabled, Apply;
    Frame.InsertRows(s, t, id);
  }

  lemma CreatorActs(s: State, a: Action)
    requires Enabled(s, a) && Creating(a) && !a.Insert?
    requires a.t in Apply(s, a).threads && Created(Apply(s, a).threads[a.t]).Some?
    ensures a.t in s.threads && Created(s.threads[a.t]) == Created(Apply(s, a).threads[a.t])
    ensures s.threads[a.t].req == Apply(s, a).threads[a.t].req
  {
    hide Store.KeyTaken, Store.HoldsKey, Store.Enqueued;
    match a
    case Submit(_, _) =>
    case Lookup(_, _) =>
    case Refetch(_, _) =>
    case Enqueue(_) =>
    case MarkQueued(_) =>
  }

  lemma WorkerCreatesNone(s: State, a: Action)
    requires Enabled(s, a)
    requires a.Pop? || a.Fetch? || a.Start? || a.Resolve? || a.Incr? || a.Drop?
    ensures a.t in Apply(s, a).threads ==> Created(Apply(s, a).threads[a.t]) == None
  {
    hide Store.Started, Counter;
    match a
    case Pop(_) =>
    case Fetch(_) =>
    case Start(_, _) =>
    case Resolve(_) =>
    case Incr(_, _) =>
    case Drop(_) =>
  }

  lemma ReporterCreatesNone(s: State, a: Action)
    requires Enabled(s, a)
    requires a.Finish? || a.Read? || a.Decr? || a.Clamp? || a.Schedule? || a.Record? || a.Emit?
    ensures a.t in Apply(s, a).threads ==> Created(Apply(s, a).threads[a.t]) == None
  {
    hide Recorded, RetryJob, ReadyAt, Counter;
    match a
    case Finish(_, _) =>
    case Read(_) =>
    case Decr(_, _) =>
    case Clamp(_, _) =>
    case Schedule(_, _) =>
    case Record(_) =>
    case Emit(_) =>
  }

  lemma CreatorFrom(s: State, a: Action, u: Tid)
    requires Enabled(s, a) && u in Apply(s, a).threads && Created(Apply(s, a).threads[u]).Some?
    ensures var o, req := Created(Apply(s, a).threads[u]).value, Apply(s, a).threads[u].req;
            (u in s.threads && Created(s.threads[u]) == Some(o) && s.threads[u].req == req) ||
            (o !in s.ops && o in Apply(s, a).ops && a == Insert(u, o) && u in s.threads && s.threads[u].Inserting? &&
             s.threads[u].req == req)
  {
    hide Apply, Enabled;
    Frame.TouchesThreads(s, a);
    if a.Commit? {
      Frame.CommitThreads(s, a.t, a.notifier);
    } else if Frame.TwoThreads(a) {
      Frame.DetachThreads(s, a);
    } else if !Frame.NoThread(a) && u == a.t {
      if a.Insert? {
        InserterCreates(s, a.t, a.id);
      } else if Creating(a) {
        CreatorActs(s, a);
      } else if a.Pop? || a.Fetch? || a.Start? || a.Resolve? || a.Incr? || a.Drop? {
        WorkerCreatesNone(s, a);
      } else {
        ReporterCreatesNone(s, a);
      }
    }
  }

  lemma StepKeepsMatch(level: Level, s: State, a: Action, s': State)
    requires CreatorsMatch(s) && Step(level, s, a, s')
    ensures CreatorsMatch(s')
  {
    hide Enabled, Apply;
    forall t | t in s'.threads && Created(s'.threads[t]).Some?
      ensures var o := Created(s'.threads[t]).value; o in s'.ops && Requested(s'.ops[o], s'.threads[t].req)
    {
      var o := Created(s'.threads[t]).value;
      CreatorFrom(s, a, t);
      if o in s.ops { RowEvolves(s, a, o); } else { RowAppears(s, a, o); }
    }
  }

  /** In every reachable state of both levels a row and the handler that inserted it agree on tenant,
      key, type, input and retries. */
  lemma {:induction false} CreatorsAgree(level: Level, states: seq<State>, actions: seq<Action>, n: nat)
    requires IsRun(level, states, actions) && n < |states|
    ensures CreatorsMatch(states[n])
  {
    hide Enabled, Apply, CreatorsMatch;
    if n == 0 {
      NoCreators(states[0]);
    } else {
      CreatorsAgree(level, states, actions, n - 1);
      assert Step(level, states[n - 1], actions[n - 1], states[n]);
      StepKeepsMatch(level, states[n - 1], actions[n - 1], states[n]);
    }
  }

  lemma NoCreators(s: State)
    requires Init(s)
    ensures CreatorsMatch(s)
  {
  }
}
