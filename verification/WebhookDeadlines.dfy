/** How late the mark of the inline attempt may land, counted from the creation of the delivery,
    for a given number of sends to be all a delivery gets. */
module WebhookDeadlines {
  import opened Webhooks

  /** The first k backoffs together: selection k + 1 comes no earlier after the creation. */
  function BackoffsUpTo(k: nat): nat { if k == 0 then 0 else BackoffsUpTo(k - 1) + Backoff(k) }

  lemma BackoffTable()
    ensures BackoffsUpTo(3) == 70 * SECOND && BackoffsUpTo(4) == 150 * SECOND
  {
    assert BackoffsUpTo(1) == 5 * SECOND && BackoffsUpTo(2) == 25 * SECOND;
  }

  lemma {:induction false} BackoffsGrow(a: nat, b: nat)
    requires a <= b
    ensures BackoffsUpTo(a) <= BackoffsUpTo(b)
    decreases b
  {
    if a < b { BackoffsGrow(a, b - 1); }
  }

  // ---- the sweep keeps its pace until the inline mark lands ----

  predicate Paced(s: State, created: nat) {
    Landed(s) == 0 ==>
      && (s.early > 0 ==> s.now >= created + BackoffsUpTo(s.early - 1))
      && (s.sweep.Idle? && s.row.status == Pending ==> s.row.next >= created + BackoffsUpTo(s.row.count))
      && (s.sweep.Waiting? ==> s.sweep.sentAt >= created + BackoffsUpTo(s.row.count))
  }

  lemma StepKeepsPaced(s: State, a: Action, created: nat)
    requires Bounded(s) && Paced(s, created) && Enabled(s, a)
    ensures Paced(Apply(s, a), created)
  {
    hide Backoff;
    match a
    case Tick(_) =>
    case InlineSend(_) =>
    case InlineMark(_) =>
    case InlineLost =>
    case Select =>
    case SweepSend(_) =>
    case SweepMark(_) =>
  }

  lemma {:induction false} RunPaced(states: seq<State>, actions: seq<Action>, i: nat)
    requires IsRun(states, actions) && i < |states|
    ensures Paced(states[i], states[0].now)
  {
    if i > 0 {
      RunPaced(states, actions, i - 1);
      RunBounded(states, actions, i - 1);
      hide Bounded, Paced;
      StepKeepsPaced(states[i - 1], actions[i - 1], states[0].now);
    }
  }

  lemma {:induction false} EarlyFixed(states: seq<State>, actions: seq<Action>, i: nat, j: nat)
    requires IsPath(states, actions) && i <= j < |states| && states[i].inline == Over(true)
    ensures states[j].inline == Over(true) && states[j].early == states[i].early
    decreases j
  {
    if i < j { EarlyFixed(states, actions, i, j - 1); }
  }

  // ---- deadlines ----

  /** The inline mark lands less than `within` after the creation. */
  ghost predicate MarkedWithin(states: seq<State>, actions: seq<Action>, within: nat) {
    exists i :: 0 <= i < |actions| && i < |states| && actions[i].InlineMark? && states[i].now < states[0].now + within
  }

  /** No run whose inline mark lands in time sends the delivery more than n times. */
  ghost predicate Suffice(n: nat, within: nat) {
    forall states: seq<State>, actions: seq<Action> | IsRun(states, actions) && MarkedWithin(states, actions, within) ::
      |states[|actions|].sends| <= n
  }

  function MaxSends(within: nat): nat {
    if within <= 70 * SECOND then 5 else if within <= 150 * SECOND then 6 else 7
  }

  lemma SendsWithin(states: seq<State>, actions: seq<Action>, within: nat)
    requires IsRun(states, actions) && MarkedWithin(states, actions, within)
    ensures |states[|actions|].sends| <= MaxSends(within)
  {
    var i :| 0 <= i < |actions| && actions[i].InlineMark? && states[i].now < states[0].now + within;
    RunPaced(states, actions, i);
    EarlyFixed(states, actions, i + 1, |actions|);
    SendBound(states, actions, |actions|);
    BackoffTable();
    var early := states[i].early;
    if early >= 5 {
      BackoffsGrow(4, early - 1);
    } else if early == 4 {
      assert BackoffsUpTo(early - 1) == 70 * SECOND;
    }
  }

  // ---- the deadlines are sharp ----

  const CREATED := State(Row(Pending, 0, 0, 0), NotYet, Idle, [], 0, 0)

  /** The inline send fails and its mark is delayed, while k sweeps fail, each as soon as it is due. */
  lemma {:induction false} PromptSweeps(k: nat) returns (states: seq<State>, actions: seq<Action>)
    requires k <= MAX_ATTEMPTS
    ensures IsRun(states, actions) && states[0] == CREATED
    ensures var s := states[|actions|];
            s.inline == Flying(Answer(false), 0) && s.sweep.Idle? && s.row.count == s.early == k &&
            |s.sends| == k + 1 && s.now == (if k == 0 then 0 else BackoffsUpTo(k - 1)) &&
            if k == MAX_ATTEMPTS then s.row.status == Failed
            else s.row.status == Pending && s.row.next == BackoffsUpTo(k)
  {
    if k == 0 {
      states, actions := [CREATED], [];
      states, actions := Extend(states, actions, InlineSend(Answer(false)));
    } else {
      states, actions := PromptSweeps(k - 1);
      hide Backoff;
      if k > 1 { BackoffsGrow(k - 2, k - 1); }
      states, actions := FailedSweep(states, actions);
    }
  }

  /** Then the mark lands, and the sweep goes on until the delivery is closed. */
  lemma SlowMarkRun(k: nat) returns (states: seq<State>, actions: seq<Action>)
    requires k == 0 || k == 4 || k == 5
    ensures IsRun(states, actions)
    ensures MarkedWithin(states, actions, 1 + if k == 0 then 0 else BackoffsUpTo(k - 1))
    ensures |states[|actions|].sends| == if k == 0 then 5 else k + 2
  {
    states, actions := PromptSweeps(k);
    ghost var i := |actions|;
    states, actions := Extend(states, actions, InlineMark(0));
    assert actions[i].InlineMark? && states[i].now < states[0].now + 1 + if k == 0 then 0 else BackoffsUpTo(k - 1);
    if k == 0 {
      states, actions := FailedSweeps(states, actions, 4);
    } else {
      states, actions := FailedSweep(states, actions);
    }
    assert actions[i].InlineMark?;
  }

  lemma LaterDeadline(states: seq<State>, actions: seq<Action>, within: nat, later: nat)
    requires MarkedWithin(states, actions, within) && within <= later
    ensures MarkedWithin(states, actions, later)
  {
  }

  lemma Attained(within: nat) returns (states: seq<State>, actions: seq<Action>)
    requires within > 0
    ensures IsRun(states, actions) && MarkedWithin(states, actions, within)
    ensures |states[|actions|].sends| == MaxSends(within)
  {
    BackoffTable();
    var k := if within <= 70 * SECOND then 0 else if within <= 150 * SECOND then 4 else 5;
    states, actions := SlowMarkRun(k);
    LaterDeadline(states, actions, 1 + if k == 0 then 0 else BackoffsUpTo(k - 1), within);
  }

  /** Five sends are enough if and only if the inline mark is certain to land less than 70 s after
      the creation, six if and only if it is less than 150 s, seven in any case. */
  lemma SufficeIffMarkedInTime(n: nat, within: nat)
    requires within > 0
    ensures Suffice(n, within) <==> n >= MaxSends(within)
  {
    if n >= MaxSends(within) {
      forall states: seq<State>, actions: seq<Action> | IsRun(states, actions) && MarkedWithin(states, actions, within)
        ensures |states[|actions|].sends| <= n
      {
        SendsWithin(states, actions, within);
      }
    } else {
      var states, actions := Attained(within);
    }
  }
}
