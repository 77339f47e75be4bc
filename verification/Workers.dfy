/** worker/app/main.py: process_job and the polling loop, calling the operations service. */
module Workers {
  import opened Model
  import opened JobQueue
  import opened Protocol
  import opened Flows
  import opened Handlers
  import Backoff
  import Redis

  /** The report that decides the operation's row: the provider's own if it is executed, else the
      worker's exception if that is, else none. */
  function Landing(report: Report, net: Network): (landed: Option<Report>)
    ensures net.start == net.success == net.failure == Answered ==> landed == Some(report)
    ensures landed.Some? ==>
              landed.value == report ||
              (net.success == Unsent && landed.value == Failure(Transient, "worker exception"))
  {
    if net.start != Answered then None
    else if report.Failure? then if net.failure == Unsent then None else Some(report)
    else if net.success != Unsent then Some(report)
    else if net.failure == Unsent then None
    else Some(Failure(Transient, "worker exception"))
  }

  /** Nothing else happens to the stores than one attempt of the job's operation: how its row, its
      attempt row and the delayed set look afterwards, in terms of the report that decides. */
  predicate Handled(w: World, w': World, job: Job, worker: WorkerId, report: Report, attempt: AttemptId,
                    jitter: nat, now: nat, net: Network)
  {
    if !net.fetchOk || job.op !in w.ops || w.ops[job.op].status in {Succeeded, Failed, DeadLettered, Cancelled} ||
       net.start == Unsent
    then w' == w
    else
      job.op in w'.ops && attempt in w'.attempts && w'.main == w.main &&
      var row, row', att := w.ops[job.op], w'.ops[job.op], w'.attempts[attempt];
      w'.ops == w.ops[job.op := row'] && w'.attempts == w.attempts[attempt := att] &&
      att.op == job.op && att.worker == worker && att.number == row'.attemptCount == row.attemptCount + 1 &&
      att.startedAt == now && row'.input == row.input &&
      match Landing(report, net)
      case None =>
        row'.status == Running && row'.output == row.output && att.success == None && att.finishedAt == None &&
        w'.delayed == w.delayed
      case Some(Success(output, provider, latencyMs)) =>
        row'.status == Succeeded && row'.output == Some(output) && row'.completedAt == Some(now) &&
        att.provider == Some(provider) && att.latencyMs == Some(latencyMs) && att.finishedAt == Some(now) &&
        (net.success == Answered ==> att.success == Some(true) && w'.delayed == w.delayed)
      case Some(Failure(category, detail)) =>
        var retry := category == Transient && row.attemptCount + 1 < row.maxRetries;
        row'.status == (if retry then Retrying else if category == Permanent then Failed else DeadLettered) &&
        row'.errorMessage == Some(detail) && (!retry ==> row'.completedAt == Some(now)) &&
        att.success == Some(false) && att.category == Some(category) && att.detail == Some(detail) &&
        att.finishedAt == Some(now) &&
        var again := Job(job.op, row.tenant, row.opType, row.attemptCount + 1, now);
        var readyAt := (now + Backoff.BackoffDelay(row.attemptCount + 1, jitter)) / 1_000_000_000;
        w'.delayed == if retry then w.delayed[again := readyAt] else w.delayed
  }

  class Worker {
    const id: WorkerId
    const api: Handler

    constructor (id: WorkerId, api: Handler)
      ensures this.id == id && this.api == api
    {
      this.id := id;
      this.api := api;
    }

    method Complete(op: OpId, attempt: AttemptId, report: Report, jitter: nat, now: nat, fate: Fate) returns (ok: bool)
      requires op in api.repo.ops
      modifies api.repo, api.q`counters, api.q`delayed
      ensures api.Contents() == Reported(old(api.Contents()), op, attempt, report, jitter, now, fate)
      ensures ok <==> fate == Answered
    {
      if fate == Unsent { return false; }
      var _, _ := api.CompleteAttempt(op, CompleteBody(attempt, report), jitter, now, true, true, true);
      return fate == Answered;
    }

    method ProcessJob(job: Job, report: Report, attempt: AttemptId, jitter: nat, now: nat, net: Network)
      returns (crashed: bool)
      requires attempt !in api.repo.attempts
      modifies api.repo, api.q`counters, api.q`delayed
      ensures api.Contents() == Processed(old(api.Contents()), job, id, report, attempt, jitter, now, net)
      ensures crashed == Crashes(old(api.Contents()), job, report, net)
      ensures Handled(old(api.Contents()), api.Contents(), job, id, report, attempt, jitter, now, net)
      ensures crashed <==>
                net.fetchOk && job.op in old(api.repo.ops) &&
                old(api.repo.ops)[job.op].status !in {Succeeded, Failed, DeadLettered, Cancelled} &&
                net.start == Answered && net.failure != Answered && (report.Failure? || net.success != Answered)
    {
      ProcessedHandled(api.Contents(), job, id, report, attempt, jitter, now, net);
      hide Handled, Completed, Begun, Backoff.BackoffDelay;
      if !net.fetchOk || job.op !in api.repo.ops { return false; }
      var operation := api.repo.ops[job.op];
      if operation.status in {Succeeded, Failed, DeadLettered, Cancelled} { return false; }
      var number := operation.attemptCount + 1;
      if net.start == Unsent { return false; }
      var _ := api.StartAttempt(job.op, id, number, attempt, now, true);
      if net.start == Unanswered { return false; }
      if report.Failure? {
        var ok := Complete(job.op, attempt, report, jitter, now, net.failure);
        return !ok;
      }
      var ok := Complete(job.op, attempt, report, jitter, now, net.success);
      if ok { return false; }
      ok := Complete(job.op, attempt, WorkerException(), jitter, now, net.failure);
      return !ok;
    }

    /** The endless loop, cut off after the given turns. */
    method Poll(turns: seq<Turn>) returns (alive: bool)
      requires forall i :: 0 <= i < |turns| ==> turns[i].attempt !in api.repo.attempts
      requires forall i, j :: 0 <= i < j < |turns| ==> turns[i].attempt != turns[j].attempt
      modifies api.repo, api.q
      ensures (api.Contents(), alive) == Polled(old(api.Contents()), id, turns)
    {
      alive := true;
      var i := 0;
      while i < |turns| && alive
        invariant 0 <= i <= |turns|
        invariant (api.Contents(), alive) == Polled(old(api.Contents()), id, turns[..i])
        invariant forall k :: i <= k < |turns| ==> turns[k].attempt !in api.repo.attempts
      {
        var turn := turns[i];
        assert turns[..i + 1][..i] == turns[..i];
        var before := api.Contents();
        var item := api.q.BrPop();
        if item.Some? && turn.parses {
          assert api.Contents() == before.(main := before.main[..|before.main| - 1]);
          AttemptsOpened(api.Contents(), item.value, id, turn.report, turn.attempt, turn.jitter, turn.now, turn.net);
          var crashed := ProcessJob(item.value, turn.report, turn.attempt, turn.jitter, turn.now, turn.net);
          alive := !crashed;
        }
        i := i + 1;
      }
      DeadStays(old(api.Contents()), id, turns, i);
      assert turns[..|turns|] == turns;
    }
  }

  // ---- what process_job amounts to ----

  /** The attempt opened, the row RUNNING. */
  predicate Underway(w: World, w': World, job: Job, worker: WorkerId, attempt: AttemptId, now: nat) {
    && job.op in w.ops && job.op in w'.ops
    && w' == w.(ops := w.ops[job.op := w'.ops[job.op]],
                attempts := w.attempts[attempt := Attempt(job.op, w.ops[job.op].attemptCount + 1, worker, now,
                                                          None, None, None, None, None, None)],
                counters := w'.counters)
    && var row, row' := w.ops[job.op], w'.ops[job.op];
    row' == row.(status := Running, attemptCount := row.attemptCount + 1, startedAt := row'.startedAt)
  }

  lemma OpeningUnderway(w: World, job: Job, worker: WorkerId, attempt: AttemptId, now: nat, fate: Fate)
    requires job.op in w.ops && fate != Unsent
    ensures Underway(w, Opening(w, job, worker, attempt, now, fate), job, worker, attempt, now)
  {
  }

  lemma FailureHandled(w: World, w1: World, job: Job, worker: WorkerId, report: Report, attempt: AttemptId,
                       jitter: nat, now: nat, net: Network)
    requires Underway(w, w1, job, worker, attempt, now) && net.fetchOk && !IsTerminal(w.ops[job.op].status)
    requires net.start == Answered && net.failure != Unsent && (report.Failure? || net.success == Unsent)
    requires Landing(report, net) == Some(report) || Landing(report, net) == Some(WorkerException())
    ensures var landed := Landing(report, net).value;
            Handled(w, Reported(w1, job.op, attempt, landed, jitter, now, net.failure), job, worker, report, attempt,
                    jitter, now, net)
  {
    hide Backoff.BackoffDelay, Redis.Released;
  }

  lemma SuccessHandled(w: World, w1: World, job: Job, worker: WorkerId, report: Report, attempt: AttemptId,
                       jitter: nat, now: nat, net: Network)
    requires Underway(w, w1, job, worker, attempt, now) && net.fetchOk && !IsTerminal(w.ops[job.op].status)
    requires net.start == Answered && net.success != Unsent && report.Success?
    ensures var w2 := Reported(w1, job.op, attempt, report, jitter, now, net.success);
            Handled(w, if net.success == Answered then w2
                       else Reported(w2, job.op, attempt, WorkerException(), jitter, now, net.failure),
                    job, worker, report, attempt, jitter, now, net)
  {
    hide Backoff.BackoffDelay, Redis.Released;
  }

  lemma OpenHandled(w: World, w1: World, job: Job, worker: WorkerId, report: Report, attempt: AttemptId,
                    jitter: nat, now: nat, net: Network)
    requires Underway(w, w1, job, worker, attempt, now) && net.fetchOk && !IsTerminal(w.ops[job.op].status)
    requires net.start != Unsent && Landing(report, net) == None
    ensures Handled(w, w1, job, worker, report, attempt, jitter, now, net)
  {
    hide Backoff.BackoffDelay;
  }

  lemma ProcessedHandled(w: World, job: Job, worker: WorkerId, report: Report, attempt: AttemptId,
                         jitter: nat, now: nat, net: Network)
    ensures Handled(w, Processed(w, job, worker, report, attempt, jitter, now, net), job, worker, report, attempt,
                    jitter, now, net)
  {
    if net.fetchOk && Runnable(w, job) && net.start != Unsent {
      var w1 := Opening(w, job, worker, attempt, now, net.start);
      OpeningUnderway(w, job, worker, attempt, now, net.start);
      hide Opening, Underway, Handled, Completed, Backoff.BackoffDelay;
      if Landing(report, net) == None {
        OpenHandled(w, w1, job, worker, report, attempt, jitter, now, net);
      } else if report.Success? && net.success != Unsent {
        SuccessHandled(w, w1, job, worker, report, attempt, jitter, now, net);
      } else {
        FailureHandled(w, w1, job, worker, report, attempt, jitter, now, net);
      }
    }
  }

  // ---- what the loop amounts to when every call is answered ----

  /** The provider's report has ended the attempt of this row. */
  predicate Concluded(row: Operation, row': Operation, att: Attempt, report: Report, now: nat) {
    && row'.attemptCount == row.attemptCount + 1 == att.number && att.finishedAt == Some(now)
    && match report
       case Success(output, provider, latencyMs) =>
         row'.status == Succeeded && row'.output == Some(output) && row'.completedAt == Some(now) &&
         att.success == Some(true) && att.provider == Some(provider) && att.latencyMs == Some(latencyMs)
       case Failure(category, detail) =>
         row'.errorMessage == Some(detail) &&
         row'.status == (if category == Transient && row.attemptCount + 1 < row.maxRetries then Retrying
                         else if category == Permanent then Failed else DeadLettered) &&
         att.success == Some(false) && att.category == Some(category) && att.detail == Some(detail)
  }

  ghost predicate Smooth(w: World, turns: seq<Turn>) {
    && |turns| <= |w.main|
    && (forall i :: 0 <= i < |turns| ==>
          turns[i].parses && turns[i].net == NO_FAULTS && turns[i].attempt !in w.attempts)
    && (forall i, j :: 0 <= i < j < |turns| ==> turns[i].attempt != turns[j].attempt)
    && (forall i, j :: 0 <= i < j < |w.main| ==> w.main[i].op != w.main[j].op)
    && (forall i :: 0 <= i < |w.main| ==> Runnable(w, w.main[i]))
  }

  /** The job turn k pops. */
  function PoppedBy(w: World, k: nat): Job
    requires k < |w.main|
  {
    w.main[|w.main| - 1 - k]
  }

  ghost predicate AllConcluded(w: World, turns: seq<Turn>, w': World)
    requires |turns| <= |w.main|
  {
    && w'.main == w.main[..|w.main| - |turns|]
    && (forall k :: 0 <= k < |turns| ==>
          var job := PoppedBy(w, k);
          job.op in w.ops && job.op in w'.ops && turns[k].attempt in w'.attempts &&
          w'.attempts[turns[k].attempt].op == job.op &&
          Concluded(w.ops[job.op], w'.ops[job.op], w'.attempts[turns[k].attempt], turns[k].report, turns[k].now))
    && (forall o :: o in w.ops && (forall k :: 0 <= k < |turns| ==> PoppedBy(w, k).op != o) ==>
          o in w'.ops && w'.ops[o] == w.ops[o])
    && (forall a :: a in w'.attempts ==> a in w.attempts || exists k :: 0 <= k < |turns| && turns[k].attempt == a)
  }

  lemma OneConcluded(w: World, worker: WorkerId, turn: Turn)
    requires w.main != [] && Runnable(w, w.main[|w.main| - 1]) && turn.parses && turn.net == NO_FAULTS
    ensures var (w', alive) := PolledOnce(w, worker, turn);
            var job := w.main[|w.main| - 1];
            alive && w'.main == w.main[..|w.main| - 1] && job.op in w'.ops && turn.attempt in w'.attempts &&
            w'.ops == w.ops[job.op := w'.ops[job.op]] &&
            w'.attempts == w.attempts[turn.attempt := w'.attempts[turn.attempt]] &&
            w'.attempts[turn.attempt].op == job.op &&
            Concluded(w.ops[job.op], w'.ops[job.op], w'.attempts[turn.attempt], turn.report, turn.now)
  {
    var w1 := w.(main := w.main[..|w.main| - 1]);
    ProcessedHandled(w1, w.main[|w.main| - 1], worker, turn.report, turn.attempt, turn.jitter, turn.now, turn.net);
    hide Processed, Backoff.BackoffDelay;
  }

  /** The last turn concludes its job and leaves the others as they are. */
  lemma ConcludeLast(w: World, turns: seq<Turn>, w1: World, w': World)
    requires Smooth(w, turns) && turns != [] && AllConcluded(w, turns[..|turns| - 1], w1)
    requires var job, last := PoppedBy(w, |turns| - 1), turns[|turns| - 1].attempt;
             w'.main == w1.main[..|w1.main| - 1] && job.op in w'.ops && last in w'.attempts &&
             w'.ops == w1.ops[job.op := w'.ops[job.op]] &&
             w'.attempts == w1.attempts[last := w'.attempts[last]] && w'.attempts[last].op == job.op &&
             Concluded(w.ops[job.op], w'.ops[job.op], w'.attempts[last], turns[|turns| - 1].report,
                       turns[|turns| - 1].now)
    ensures AllConcluded(w, turns, w')
  {
    hide Concluded, Runnable;
    var n := |turns| - 1;
    var before := turns[..n];
    forall k | 0 <= k < |turns|
      ensures var job := PoppedBy(w, k);
              job.op in w.ops && job.op in w'.ops && turns[k].attempt in w'.attempts &&
              w'.attempts[turns[k].attempt].op == job.op &&
              Concluded(w.ops[job.op], w'.ops[job.op], w'.attempts[turns[k].attempt], turns[k].report, turns[k].now)
    {
      StillRunnable(w, n);
      if k < n { assert before[k] == turns[k] && PoppedBy(w, k).op != PoppedBy(w, n).op; }
    }
    forall o | o in w.ops && (forall k :: 0 <= k < |turns| ==> PoppedBy(w, k).op != o)
      ensures o in w'.ops && w'.ops[o] == w.ops[o]
    {
      assert PoppedBy(w, n).op != o;
    }
    forall a | a in w'.attempts && a !in w.attempts
      ensures exists k :: 0 <= k < |turns| && turns[k].attempt == a
    {
      if a != turns[n].attempt {
        var k :| 0 <= k < n && before[k].attempt == a;
        assert turns[k].attempt == a;
      } else {
        assert turns[n].attempt == a;
      }
    }
  }

  lemma StillRunnable(w: World, k: nat)
    requires k < |w.main| && forall i :: 0 <= i < |w.main| ==> Runnable(w, w.main[i])
    ensures PoppedBy(w, k).op in w.ops && !IsTerminal(w.ops[PoppedBy(w, k).op].status)
  {
  }

  lemma SmoothBefore(w: World, turns: seq<Turn>)
    requires Smooth(w, turns) && turns != []
    ensures Smooth(w, turns[..|turns| - 1])
  {
    hide Runnable;
  }

  lemma NextRunnable(w: World, turns: seq<Turn>, w1: World)
    requires Smooth(w, turns) && turns != [] && AllConcluded(w, turns[..|turns| - 1], w1)
    ensures w1.main != [] && w1.main[|w1.main| - 1] == PoppedBy(w, |turns| - 1)
    ensures var o := PoppedBy(w, |turns| - 1).op; o in w.ops && o in w1.ops && w1.ops[o] == w.ops[o]
    ensures Runnable(w1, PoppedBy(w, |turns| - 1))
  {
    var n := |turns| - 1;
    StillRunnable(w, n);
    hide Concluded;
    assert forall k :: 0 <= k < n ==> PoppedBy(w, k).op != PoppedBy(w, n).op;
  }

  /** When every call is answered and the jobs waiting are of different operations, each turn ends
      the attempt of the job it pops with its own report, oldest job first, and touches no other row. */
  lemma {:induction false} PollConcludes(w: World, worker: WorkerId, turns: seq<Turn>)
    requires Smooth(w, turns)
    ensures Polled(w, worker, turns).1 && AllConcluded(w, turns, Polled(w, worker, turns).0)
    decreases |turns|
  {
    if turns != [] {
      var n := |turns| - 1;
      SmoothBefore(w, turns);
      PollConcludes(w, worker, turns[..n]);
      var w1 := Polled(w, worker, turns[..n]).0;
      NextRunnable(w, turns, w1);
      assert turns[n].parses && turns[n].net == NO_FAULTS;
      hide Smooth, AllConcluded, Concluded, Runnable, PolledOnce;
      OneConcluded(w1, worker, turns[n]);
      ConcludeLast(w, turns, w1, PolledOnce(w1, worker, turns[n]).0);
    }
  }

  /** Every turn takes the oldest job off the list, if there is one, whatever becomes of it. */
  lemma {:induction false} PollDrains(w: World, worker: WorkerId, turns: seq<Turn>)
    requires Polled(w, worker, turns).1
    ensures Polled(w, worker, turns).0.main ==
            w.main[..if |turns| <= |w.main| then |w.main| - |turns| else 0]
    decreases |turns|
  {
    hide Processed, Crashes;
    if turns != [] {
      PollDrains(w, worker, turns[..|turns| - 1]);
      var turn, w1 := turns[|turns| - 1], Polled(w, worker, turns[..|turns| - 1]).0;
      if w1.main != [] {
        var w2 := w1.(main := w1.main[..|w1.main| - 1]);
        MainKept(w2, w1.main[|w1.main| - 1], worker, turn);
      }
    }
  }

  lemma MainKept(w: World, job: Job, worker: WorkerId, turn: Turn)
    ensures Processed(w, job, worker, turn.report, turn.attempt, turn.jitter, turn.now, turn.net).main == w.main
  {
    ProcessedHandled(w, job, worker, turn.report, turn.attempt, turn.jitter, turn.now, turn.net);
    hide Processed, Backoff.BackoffDelay;
  }

  /** A malformed envelope is dropped and nothing else happens. */
  lemma MalformedDropped(w: World, worker: WorkerId, turn: Turn)
    requires w.main != [] && !turn.parses
    ensures PolledOnce(w, worker, turn) == (w.(main := w.main[..|w.main| - 1]), true)
  {
  }

  // ---- what the exception path of process_job amounts to ----

  /** A worker that has died takes no further turn. */
  lemma {:induction false} DeadStays(w: World, id: WorkerId, turns: seq<Turn>, i: nat)
    requires i <= |turns| && (i == |turns| || !Polled(w, id, turns[..i]).1)
    ensures Polled(w, id, turns) == Polled(w, id, turns[..i])
    decreases |turns|
  {
    if i == |turns| {
      assert turns[..i] == turns;
    } else {
      assert turns[..|turns| - 1][..i] == turns[..i];
      DeadStays(w, id, turns[..|turns| - 1], i);
    }
  }

  /** Processing opens no attempt but its own. */
  lemma AttemptsOpened(w: World, job: Job, worker: WorkerId, report: Report, attempt: AttemptId,
                       jitter: nat, now: nat, net: Network)
    ensures forall a :: a in Processed(w, job, worker, report, attempt, jitter, now, net).attempts ==>
              a in w.attempts || a == attempt
  {
  }

  /** When the success report is executed but its answer is lost, the transient failure sent after
      it leaves every operation row as the success alone does; if it also schedules a retry, the
      worker that pops that job leaves everything as it is. */
  lemma LateAnswerHarmless(w: World, job: Job, worker: WorkerId, report: Report, attempt: AttemptId, jitter: nat,
                           now: nat, retry: Job, other: WorkerId, report': Report, attempt': AttemptId,
                           jitter': nat, now': nat, net: Network)
    requires report.Success? && Runnable(w, job) && retry.op == job.op
    ensures var lost := Network(true, Answered, Unanswered, Answered);
            var late := Processed(w, job, worker, report, attempt, jitter, now, lost);
            late.ops == Processed(w, job, worker, report, attempt, jitter, now, NO_FAULTS).ops &&
            late.ops[job.op].status == Succeeded && late.main == w.main &&
            Processed(late, retry, other, report', attempt', jitter', now', net) == late
  {
  }

  /** Redelivering a job whose operation is terminal changes nothing, whatever the network does. */
  lemma TerminalSkipped(w: World, job: Job, worker: WorkerId, report: Report, attempt: AttemptId,
                        jitter: nat, now: nat, net: Network)
    requires job.op in w.ops && IsTerminal(w.ops[job.op].status)
    ensures Processed(w, job, worker, report, attempt, jitter, now, net) == w
  {
  }
}
