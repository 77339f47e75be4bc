/** One webhook delivery of services/usage-webhooks: the inline first attempt and the retry sweep
    act on the same row, and no status update is guarded. */
module Webhooks {

  const SECOND: nat := 1_000_000_000
  const MAX_ATTEMPTS: nat := 5

  datatype Status = Pending | Delivered | Failed

  /** The mutable columns of webhook_deliveries. */
  datatype Row = Row(status: Status, count: nat, next: nat, last: nat)

  /** attempt*attempt * 5 seconds */
  function Backoff(attempt: nat): nat { attempt * attempt * 5 * SECOND }

  // ---- the three updates ----

  function MarkedSuccess(row: Row, now: nat): Row { row.(status := Delivered, last := now, count := row.count + 1) }

  function MarkedRescheduled(row: Row, next: nat, now: nat): Row {
    row.(status := Pending, last := now, next := next, count := row.count + 1)
  }

  function MarkedFailed(row: Row, now: nat): Row { row.(status := Failed, last := now, count := row.count + 1) }

  /** How one attempt ends: a response, in or outside 2xx (or none at all), or a URL from which
      no request can be built. */
  datatype Outcome = Answer(ok: bool) | BadRequest

  /** The update attemptDelivery makes; `at` is when it reads the clock for the backoff. */
  function Marked(row: Row, attempt: nat, outcome: Outcome, at: nat, now: nat): Row {
    match outcome
    case BadRequest => MarkedFailed(row, now)
    case Answer(true) => MarkedSuccess(row, now)
    case Answer(false) =>
      if attempt >= MAX_ATTEMPTS then MarkedFailed(row, now)
      else MarkedRescheduled(row, at + Backoff(attempt), now)
  }

  // ---- transition system ----

  datatype Send = Send(at: nat, ok: bool)

  /** The inline attempt: its mark lands once, or never. */
  datatype Inline = NotYet | Flying(outcome: Outcome, sentAt: nat) | Over(landed: bool)

  /** The sweep's hold on this row: the attempt number is a snapshot taken by its SELECT. */
  datatype Sweep = Idle | Selected(attempt: nat) | Waiting(attempt: nat, outcome: Outcome, sentAt: nat)

  /** `early` counts the sweep's selections made while the inline mark had not landed. */
  datatype State = State(row: Row, inline: Inline, sweep: Sweep, sends: seq<Send>, early: nat, now: nat)

  datatype Action =
    | Tick(to: nat)
    | InlineSend(outcome: Outcome)
    | InlineMark(at: nat)
    | InlineLost
    | Select
    | SweepSend(outcome: Outcome)
    | SweepMark(at: nat)

  predicate Enabled(s: State, a: Action) {
    match a
    case Tick(to) => to >= s.now
    case InlineSend(_) => s.inline.NotYet?
    case InlineMark(at) => s.inline.Flying? && s.inline.sentAt <= at <= s.now
    case InlineLost => s.inline.NotYet? || s.inline.Flying?
    case Select => s.sweep.Idle? && s.row.status == Pending && s.row.next <= s.now
    case SweepSend(_) => s.sweep.Selected?
    case SweepMark(at) => s.sweep.Waiting? && s.sweep.sentAt <= at <= s.now
  }

  function Sent(sends: seq<Send>, outcome: Outcome, now: nat): seq<Send> {
    if outcome.BadRequest? then sends else sends + [Send(now, outcome.ok)]
  }

  function Apply(s: State, a: Action): State
    requires Enabled(s, a)
  {
    match a
    case Tick(to) => s.(now := to)
    case InlineSend(outcome) => s.(inline := Flying(outcome, s.now), sends := Sent(s.sends, outcome, s.now))
    case InlineMark(at) => s.(inline := Over(true), row := Marked(s.row, 1, s.inline.outcome, at, s.now))
    case InlineLost => s.(inline := Over(false))
    case Select =>
      s.(sweep := Selected(s.row.count + 1), early := if s.inline == Over(true) then s.early else s.early + 1)
    case SweepSend(outcome) =>
      s.(sweep := Waiting(s.sweep.attempt, outcome, s.now), sends := Sent(s.sends, outcome, s.now))
    case SweepMark(at) =>
      s.(sweep := Idle, row := Marked(s.row, s.sweep.attempt, s.sweep.outcome, at, s.now))
  }

  /** CreateDelivery: due at once. */
  predicate Init(s: State) {
    s == State(Row(Pending, 0, s.now, 0), NotYet, Idle, [], 0, s.now)
  }

  ghost predicate IsPath(states: seq<State>, actions: seq<Action>) {
    && |states| == |actions| + 1
    && forall i :: 0 <= i < |actions| ==>
         Enabled(states[i], actions[i]) && states[i + 1] == Apply(states[i], actions[i])
  }

  ghost predicate IsRun(states: seq<State>, actions: seq<Action>) {
    IsPath(states, actions) && Init(states[0])
  }

  // ---- the bound under overlap ----

  function Landed(s: State): nat { if s.inline == Over(true) then 1 else 0 }

  /** Sends of the sweep that its marks do not account for yet. */
  function Unmarked(s: State): nat { if s.sweep.Waiting? then 1 else 0 }

  predicate Attempting(s: State) { !s.sweep.Idle? }

  /** The sweep's snapshot is current, or the inline mark landed after it was taken. */
  predicate Bounded(s: State) {
    && s.early <= 5
    && |s.sends| <= (if s.inline.NotYet? then 0 else 1) + (s.row.count - Landed(s)) + Unmarked(s)
    && s.row.count >= Landed(s)
    && (Landed(s) == 0 ==>
          && s.early == s.row.count + (if Attempting(s) then 1 else 0)
          && (Attempting(s) ==> s.row.status == Pending && s.sweep.attempt == s.row.count + 1)
          && (s.row.status == Pending ==> s.row.count <= 4))
    && (Landed(s) == 1 ==>
          var limit := if s.early <= 3 then 4 else s.early + 1;
          && (s.row.status == Pending && s.sweep.Idle? ==> s.row.count <= limit)
          && s.row.count <= limit + 1
          && (Attempting(s) ==> s.row.count <= limit)
          && (Attempting(s) ==>
                || s.sweep.attempt == s.row.count + 1
                || (s.sweep.attempt == s.row.count && s.sweep.attempt <= s.early)))
  }

  lemma StepKeepsBounded(s: State, a: Action)
    requires Bounded(s) && Enabled(s, a)
    ensures Bounded(Apply(s, a))
  {
    match a
    case Tick(_) =>
    case InlineSend(_) =>
    case InlineMark(_) =>
    case InlineLost =>
    case Select =>
    case SweepSend(_) =>
    case SweepMark(_) =>
  }

  lemma {:induction false} RunBounded(states: seq<State>, actions: seq<Action>, i: nat)
    requires IsRun(states, actions) && i < |states|
    ensures Bounded(states[i])
  {
    if i > 0 {
      RunBounded(states, actions, i - 1);
      StepKeepsBounded(states[i - 1], actions[i - 1]);
    }
  }

  /** In any interleaving a delivery is sent at most 7 times; at most 5 times if the sweep had
      selected the row no more than 3 times when the inline mark landed; at most 6 if that was 4
      times or the mark never lands. */
  lemma SendBound(states: seq<State>, actions: seq<Action>, i: nat)
    requires IsRun(states, actions) && i < |states|
    ensures |states[i].sends| <= 7
    ensures states[i].inline != Over(true) ==> |states[i].sends| <= 6
    ensures states[i].early <= 4 ==> |states[i].sends| <= 6
    ensures states[i].early <= 3 ==> |states[i].sends| <= 5
  {
    RunBounded(states, actions, i);
  }

  // ---- the bounds are attained ----

  lemma Extend(states: seq<State>, actions: seq<Action>, a: Action)
    returns (states': seq<State>, actions': seq<Action>)
    requires IsPath(states, actions) && Enabled(states[|actions|], a)
    ensures IsPath(states', actions') && states' == states + [Apply(states[|actions|], a)] && actions' == actions + [a]
  {
    states', actions' := states + [Apply(states[|actions|], a)], actions + [a];
    forall i | 0 <= i < |actions'|
      ensures Enabled(states'[i], actions'[i]) && states'[i + 1] == Apply(states'[i], actions'[i])
    {
      if i < |actions| { assert states'[i] == states[i] && states'[i + 1] == states[i + 1]; }
    }
  }

  /** A sweep of the row with nothing in between is one attempt with the row's own number. */
  lemma SweepTurn(states: seq<State>, actions: seq<Action>, outcome: Outcome)
    returns (states': seq<State>, actions': seq<Action>)
    requires IsRun(states, actions)
    requires var s := states[|actions|]; s.sweep.Idle? && s.row.status == Pending && s.row.next <= s.now
    ensures IsRun(states', actions') && |actions'| == |actions| + 3 && states <= states' && actions <= actions'
    ensures var s, s' := states[|actions|], states'[|actions'|];
            s' == s.(row := Marked(s.row, s.row.count + 1, outcome, s.now, s.now),
                     sends := Sent(s.sends, outcome, s.now),
                     early := if s.inline == Over(true) then s.early else s.early + 1)
  {
    states', actions' := Extend(states, actions, Select);
    states', actions' := Extend(states', actions', SweepSend(outcome));
    states', actions' := Extend(states', actions', SweepMark(states[|actions|].now));
  }

  /** A whole sweep of the row, as soon as it is due, that fails. */
  lemma FailedSweep(states: seq<State>, actions: seq<Action>) returns (states': seq<State>, actions': seq<Action>)
    requires IsRun(states, actions)
    requires states[|actions|].sweep.Idle? && states[|actions|].row.status == Pending
    ensures IsRun(states', actions') && states <= states' && actions <= actions'
    ensures var s, s' := states[|actions|], states'[|actions'|];
            s'.sweep.Idle? && s'.inline == s.inline && s'.row.count == s.row.count + 1 && |s'.sends| == |s.sends| + 1 &&
            s'.early == (if s.inline == Over(true) then s.early else s.early + 1) &&
            s'.now == (if s.row.next > s.now then s.row.next else s.now) &&
            if s.row.count + 1 >= MAX_ATTEMPTS then s'.row.status == Failed
            else s'.row.status == Pending && s'.row.next == s'.now + Backoff(s'.row.count)
  {
    var s := states[|actions|];
    states', actions' := Extend(states, actions, Tick(if s.row.next > s.now then s.row.next else s.now));
    states', actions' := SweepTurn(states', actions', Answer(false));
  }

  lemma FailedSweeps(states: seq<State>, actions: seq<Action>, n: nat)
    returns (states': seq<State>, actions': seq<Action>)
    requires IsRun(states, actions)
    requires var s := states[|actions|];
             s.sweep.Idle? && s.row.status == Pending && s.row.count + n <= MAX_ATTEMPTS && n > 0
    ensures IsRun(states', actions') && states <= states' && actions <= actions'
    ensures var s, s' := states[|actions|], states'[|actions'|];
            s'.sweep.Idle? && s'.inline == s.inline && s'.row.count == s.row.count + n && |s'.sends| == |s.sends| + n &&
            s'.early == (if s.inline == Over(true) then s.early else s.early + n) &&
            s'.row.status == if s.row.count + n >= MAX_ATTEMPTS then Failed else Pending
    decreases n
  {
    states', actions' := FailedSweep(states, actions);
    if n > 1 { states', actions' := FailedSweeps(states', actions', n - 1); }
  }

  /** After four or five selections the late inline mark reopens the row and buys one more send. */
  lemma LateMarkRun(early: nat) returns (states: seq<State>, actions: seq<Action>)
    requires 4 <= early <= 5
    ensures IsRun(states, actions)
    ensures var s := states[|actions|]; s.inline == Over(true) && s.early == early && |s.sends| == early + 2
  {
    states, actions := [State(Row(Pending, 0, 0, 0), NotYet, Idle, [], 0, 0)], [];
    states, actions := Extend(states, actions, InlineSend(Answer(false)));
    states, actions := FailedSweeps(states, actions, early);
    states, actions := Extend(states, actions, InlineMark(0));
    states, actions := FailedSweep(states, actions);
  }

  ghost predicate FiveSuffice(early: nat) {
    forall states: seq<State>, actions: seq<Action> | IsRun(states, actions) && states[|actions|].early == early ::
      |states[|actions|].sends| <= 5
  }

  /** Five sends are all a delivery gets if and only if the sweep selected it at most three times
      before the inline mark landed. */
  lemma FiveSufficeIffMarkedEarly(early: nat)
    requires early <= 5
    ensures FiveSuffice(early) <==> early <= 3
  {
    if early <= 3 {
      forall states: seq<State>, actions: seq<Action> | IsRun(states, actions) && states[|actions|].early == early
        ensures |states[|actions|].sends| <= 5
      {
        SendBound(states, actions, |actions|);
      }
    } else {
      var states, actions := LateMarkRun(early);
    }
  }

  // ---- reopening ----

  /** Something already sent, or about to be, can still write PENDING over a closed row. */
  predicate CanReopen(s: State) {
    || s.inline.NotYet?
    || (s.inline.Flying? && s.inline.outcome == Answer(false))
    || (s.sweep.Selected? && s.sweep.attempt < MAX_ATTEMPTS)
    || (s.sweep.Waiting? && s.sweep.attempt < MAX_ATTEMPTS && s.sweep.outcome == Answer(false))
  }

  lemma ClosedStep(s: State, a: Action)
    requires Enabled(s, a) && s.row.status != Pending && !CanReopen(s)
    ensures Apply(s, a).row.status != Pending && !CanReopen(Apply(s, a))
  {
  }

  lemma {:induction false} ClosedPath(states: seq<State>, actions: seq<Action>, i: nat)
    requires IsPath(states, actions) && i < |states| && states[0].row.status != Pending && !CanReopen(states[0])
    ensures states[i].row.status != Pending && !CanReopen(states[i])
  {
    if i > 0 {
      ClosedPath(states, actions, i - 1);
      ClosedStep(states[i - 1], actions[i - 1]);
    }
  }

  /** In every continuation the delivery keeps a status other than PENDING. */
  ghost predicate StaysClosed(s: State) {
    forall states: seq<State>, actions: seq<Action> | IsPath(states, actions) && states[0] == s ::
      states[|actions|].row.status != Pending
  }

  lemma InlineReopens(s: State) returns (states: seq<State>, actions: seq<Action>)
    requires s.inline.NotYet? || (s.inline.Flying? && s.inline.outcome == Answer(false))
    ensures IsPath(states, actions) && states[0] == s && states[|actions|].row.status == Pending
  {
    states, actions := [s], [];
    if s.inline.NotYet? { states, actions := Extend(states, actions, InlineSend(Answer(false))); }
    var flying := states[|actions|];
    states, actions := Extend(states, actions, Tick(flying.now + flying.inline.sentAt));
    states, actions := Extend(states, actions, InlineMark(flying.now + flying.inline.sentAt));
  }

  lemma SweepReopens(s: State) returns (states: seq<State>, actions: seq<Action>)
    requires !s.sweep.Idle? && s.sweep.attempt < MAX_ATTEMPTS
    requires s.sweep.Waiting? ==> s.sweep.outcome == Answer(false)
    ensures IsPath(states, actions) && states[0] == s && states[|actions|].row.status == Pending
  {
    states, actions := [s], [];
    if s.sweep.Selected? { states, actions := Extend(states, actions, SweepSend(Answer(false))); }
    var waiting := states[|actions|];
    states, actions := Extend(states, actions, Tick(waiting.now + waiting.sweep.sentAt));
    states, actions := Extend(states, actions, SweepMark(waiting.now + waiting.sweep.sentAt));
  }

  /** DELIVERED and FAILED are final if and only if neither the inline attempt nor a sweep under
      way can still report a failure before its fifth attempt. */
  lemma ClosedIsFinalIff(s: State)
    requires s.row.status != Pending
    ensures StaysClosed(s) <==> !CanReopen(s)
  {
    if !CanReopen(s) {
      forall states: seq<State>, actions: seq<Action> | IsPath(states, actions) && states[0] == s
        ensures states[|actions|].row.status != Pending
      {
        ClosedPath(states, actions, |actions|);
      }
    } else if s.inline.NotYet? || (s.inline.Flying? && s.inline.outcome == Answer(false)) {
      var states, actions := InlineReopens(s);
    } else {
      var states, actions := SweepReopens(s);
    }
  }

  /** Step i turns a closed row back to PENDING. */
  ghost predicate Reopens(states: seq<State>, i: nat)
    requires i + 1 < |states|
  {
    states[i].row.status != Pending && states[i + 1].row.status == Pending
  }

  /** The inline attempt is over, and a sweep is only under way on a PENDING row. */
  predicate PastReopening(s: State) { s.inline.Over? && (Attempting(s) ==> s.row.status == Pending) }

  lemma PastReopeningStep(s: State, a: Action)
    requires Enabled(s, a) && PastReopening(s)
    ensures PastReopening(Apply(s, a)) && (s.row.status != Pending ==> Apply(s, a).row == s.row)
  {
  }

  lemma ReopeningIsLast(s: State, a: Action)
    requires Bounded(s) && Enabled(s, a) && s.row.status != Pending && Apply(s, a).row.status == Pending
    ensures PastReopening(Apply(s, a))
  {
  }

  lemma {:induction false} PastReopeningPath(states: seq<State>, actions: seq<Action>, i: nat, j: nat)
    requires IsPath(states, actions) && i <= j < |states| && PastReopening(states[i])
    ensures PastReopening(states[j])
    decreases j
  {
    if i < j {
      PastReopeningPath(states, actions, i, j - 1);
      PastReopeningStep(states[j - 1], actions[j - 1]);
    }
  }

  /** A delivery is reopened at most once. */
  lemma ReopenedAtMostOnce(states: seq<State>, actions: seq<Action>, i: nat, j: nat)
    requires IsRun(states, actions) && i < |actions| && j < |actions| && Reopens(states, i) && Reopens(states, j)
    ensures i == j
  {
    var first, second := if i < j then i else j, if i < j then j else i;
    RunBounded(states, actions, first);
    ReopeningIsLast(states[first], actions[first]);
    if first < second {
      PastReopeningPath(states, actions, first + 1, second);
      PastReopeningStep(states[second], actions[second]);
    }
  }

  /** A run in which a sweep delivers and the late inline failure makes the row PENDING again. */
  lemma ReopenedRun() returns (states: seq<State>, actions: seq<Action>)
    ensures IsRun(states, actions) && |states| == 6
    ensures states[4].row.status == Delivered && states[4].sends == [Send(0, false), Send(0, true)]
    ensures states[5].row.status == Pending
  {
    states, actions := [State(Row(Pending, 0, 0, 0), NotYet, Idle, [], 0, 0)], [];
    states, actions := Extend(states, actions, InlineSend(Answer(false)));
    states, actions := SweepTurn(states, actions, Answer(true));
    states, actions := Extend(states, actions, InlineMark(0));
  }

  /** Closed, the inline attempt over and no sweep under way. */
  predicate Settled(s: State) { s.row.status != Pending && s.inline.Over? && s.sweep.Idle? }

  /** A settled delivery keeps its whole row and is never sent again. */
  lemma {:induction false} SettledForGood(states: seq<State>, actions: seq<Action>, i: nat, j: nat)
    requires IsPath(states, actions) && i <= j < |states| && Settled(states[i])
    ensures Settled(states[j]) && states[j].row == states[i].row && states[j].sends == states[i].sends
    decreases j
  {
    if i < j { SettledForGood(states, actions, i, j - 1); }
  }

  // ---- without overlap ----

  /** The inline mark lands before the sweep first selects the row, and requests can be built. */
  predicate Orderly(s: State, a: Action) {
    match a
    case InlineSend(outcome) => outcome.Answer?
    case SweepSend(outcome) => outcome.Answer?
    case InlineLost => false
    case Select => s.inline == Over(true)
    case _ => true
  }

  ghost predicate IsOrderlyRun(states: seq<State>, actions: seq<Action>) {
    IsRun(states, actions) && forall i :: 0 <= i < |actions| ==> Orderly(states[i], actions[i])
  }

  ghost predicate EarlierFailed(sends: seq<Send>) { forall k :: 0 <= k < |sends| - 1 ==> !sends[k].ok }

  ghost predicate Spaced(sends: seq<Send>) {
    forall k :: 0 < k < |sends| ==> sends[k].at >= sends[k - 1].at + Backoff(k)
  }

  /** Waiting for its next turn after n failed sends. */
  predicate Due(s: State) {
    && s.row.status == Pending && 0 < |s.sends| < MAX_ATTEMPTS && !s.sends[|s.sends| - 1].ok
    && s.row.next >= s.sends[|s.sends| - 1].at + Backoff(|s.sends|)
  }

  ghost predicate Ordered(s: State) {
    && EarlierFailed(s.sends) && Spaced(s.sends)
    && match s.inline
       case NotYet => s.sweep.Idle? && s.sends == [] && s.row.status == Pending && s.row.count == 0
       case Flying(outcome, sentAt) =>
         outcome.Answer? && s.sweep.Idle? && s.sends == [Send(sentAt, outcome.ok)] && s.row.status == Pending &&
             s.row.count == 0
       case Over(landed) =>
         && landed && s.sends != [] && s.row.count + Unmarked(s) == |s.sends|
         && match s.sweep
            case Idle =>
              (match s.row.status
               case Pending => Due(s)
               case Delivered => s.sends[|s.sends| - 1].ok && |s.sends| <= MAX_ATTEMPTS
               case Failed => |s.sends| == MAX_ATTEMPTS && !s.sends[MAX_ATTEMPTS - 1].ok)
            case Selected(attempt) => Due(s) && attempt == |s.sends| + 1 && s.row.next <= s.now
            case Waiting(attempt, outcome, sentAt) =>
              s.row.status == Pending && outcome.Answer? && attempt == |s.sends| <= MAX_ATTEMPTS &&
              s.sends[|s.sends| - 1] == Send(sentAt, outcome.ok)
  }

  lemma SendKeepsHistory(sends: seq<Send>, send: Send)
    requires EarlierFailed(sends) && Spaced(sends)
    requires sends != [] ==> !sends[|sends| - 1].ok && send.at >= sends[|sends| - 1].at + Backoff(|sends|)
    ensures EarlierFailed(sends + [send]) && Spaced(sends + [send])
  {
  }

  lemma StepKeepsOrdered(s: State, a: Action)
    requires Ordered(s) && Enabled(s, a) && Orderly(s, a)
    ensures Ordered(Apply(s, a))
  {
    hide Backoff;
    match a
    case Tick(_) =>
    case InlineSend(outcome) => SendKeepsHistory(s.sends, Send(s.now, outcome.ok));
    case InlineMark(_) =>
    case Select =>
    case SweepSend(outcome) => SendKeepsHistory(s.sends, Send(s.now, outcome.ok));
    case SweepMark(_) =>
  }

  lemma {:induction false} RunOrdered(states: seq<State>, actions: seq<Action>, i: nat)
    requires IsOrderlyRun(states, actions) && i < |states|
    ensures Ordered(states[i])
  {
    hide Ordered;
    if i > 0 {
      RunOrdered(states, actions, i - 1);
      StepKeepsOrdered(states[i - 1], actions[i - 1]);
    } else {
      InitOrdered(states[0]);
    }
  }

  lemma InitOrdered(s: State)
    requires Init(s)
    ensures Ordered(s)
  {
  }

  /** Between attempts the row tells exactly how the delivery went: the count is the number of
      sends, DELIVERED means the last one succeeded, FAILED that five failed, PENDING that fewer
      than five were made and all failed. */
  lemma OrderlyRowTellsHistory(states: seq<State>, actions: seq<Action>, i: nat)
    requires IsOrderlyRun(states, actions) && i < |states|
    requires states[i].sweep.Idle? && !states[i].inline.Flying?
    ensures var s := states[i]; var n := |s.sends|;
            s.row.count == n <= MAX_ATTEMPTS &&
            (s.row.status == Pending <==> n < MAX_ATTEMPTS && forall k :: 0 <= k < n ==> !s.sends[k].ok) &&
            (s.row.status == Delivered <==> n > 0 && s.sends[n - 1].ok) &&
            (s.row.status == Failed <==> n == MAX_ATTEMPTS && forall k :: 0 <= k < n ==> !s.sends[k].ok)
  {
    RunOrdered(states, actions, i);
    hide Backoff;
  }

  /** Send k + 1 follows send k by at least 5 k*k seconds, so the fifth comes 150 s after the first. */
  lemma OrderlySpacing(states: seq<State>, actions: seq<Action>, i: nat)
    requires IsOrderlyRun(states, actions) && i < |states|
    ensures var sends := states[i].sends;
            |sends| <= MAX_ATTEMPTS &&
            (forall k :: 0 < k < |sends| ==> sends[k].at - sends[k - 1].at >= 5 * k * k * SECOND) &&
            (|sends| == 5 ==> sends[4].at - sends[0].at >= 150 * SECOND)
  {
    RunOrdered(states, actions, i);
    var sends := states[i].sends;
    assert Backoff(1) == 5 * SECOND && Backoff(2) == 20 * SECOND && Backoff(3) == 45 * SECOND &&
           Backoff(4) == 80 * SECOND;
    forall k | 0 < k < |sends|
      ensures sends[k].at - sends[k - 1].at >= 5 * k * k * SECOND
    {
      assert Backoff(k) == 5 * k * k * SECOND;
    }
    if |sends| == 5 {
      assert sends[1].at >= sends[0].at + Backoff(1) && sends[2].at >= sends[1].at + Backoff(2);
      assert sends[3].at >= sends[2].at + Backoff(3) && sends[4].at >= sends[3].at + Backoff(4);
    }
  }
}
