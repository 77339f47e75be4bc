/** services/usage-webhooks/internal/dispatcher and the delivery tables of its repository. */
module Dispatch {
  import opened Webhooks
  import Model

  type EndpointId = nat
  type DeliveryId = nat

  datatype Endpoint = Endpoint(tenant: Model.Tenant, url: string, secret: string, active: bool)

  /** The JSON object that is encoded, signed and stored. */
  datatype Payload = Payload(event: string, op: Model.OpId, tenant: Model.Tenant, at: nat, data: Model.Option<string>)

  datatype Delivery = Delivery(webhook: EndpointId, op: Model.OpId, event: string, payload: Payload, row: Row)

  type Endpoints = map<EndpointId, Endpoint>
  type Deliveries = map<DeliveryId, Delivery>

  datatype DueDelivery = DueDelivery(id: DeliveryId, url: string, secret: string, payload: Payload, count: nat)

  /** A POST as the customer sees it; the signature is determined by secret and payload. */
  datatype Post = Post(delivery: DeliveryId, url: string, secret: string, payload: Payload)

  /** What one attempt meets: its outcome, when the backoff clock is read, when the update runs. */
  datatype Try = Try(outcome: Outcome, at: nat, now: nat)

  const SWEEP_LIMIT: nat := 50

  // ---- what the queries may answer ----

  ghost predicate IsActiveList(endpoints: Endpoints, tenant: Model.Tenant, rows: seq<EndpointId>) {
    && (forall i, j :: 0 <= i < j < |rows| ==> rows[i] != rows[j])
    && (forall e :: e in rows <==> e in endpoints && endpoints[e].tenant == tenant && endpoints[e].active)
  }

  predicate IsDue(endpoints: Endpoints, deliveries: Deliveries, now: nat, id: DeliveryId) {
    && id in deliveries && deliveries[id].webhook in endpoints
    && deliveries[id].row.status == Pending && deliveries[id].row.next <= now
  }

  /** ORDER BY next_attempt_at ASC LIMIT: the most overdue rows, all of them if they fit. */
  ghost predicate IsDueBatch(endpoints: Endpoints, deliveries: Deliveries, now: nat, limit: nat,
      rows: seq<DeliveryId>) {
    && |rows| <= limit
    && (forall i :: 0 <= i < |rows| ==> IsDue(endpoints, deliveries, now, rows[i]))
    && (forall i, j :: 0 <= i < j < |rows| ==>
              rows[i] != rows[j] &&
              deliveries[rows[i]].row.next <= deliveries[rows[j]].row.next)
    && (forall id :: IsDue(endpoints, deliveries, now, id) && id !in rows ==>
          |rows| == limit && forall i :: 0 <= i < |rows| ==> deliveries[rows[i]].row.next <= deliveries[id].row.next)
  }

  function NewRow(now: nat): Row { Row(Pending, 0, now, 0) }

  function Updated(deliveries: Deliveries, id: DeliveryId, row: Row): Deliveries
    requires id in deliveries
  {
    deliveries[id := deliveries[id].(row := row)]
  }

  class WebhookRepository {
    var endpoints: Endpoints
    var deliveries: Deliveries

    constructor ()
      ensures endpoints == map[] && deliveries == map[]
    {
      endpoints, deliveries := map[], map[];
    }

    method ActiveWebhooksForTenant(tenant: Model.Tenant, rows: seq<EndpointId>) returns (out: seq<Endpoint>)
      requires IsActiveList(endpoints, tenant, rows)
      ensures |out| == |rows|
      ensures forall i :: 0 <= i < |rows| ==>
                rows[i] in endpoints && out[i] == endpoints[rows[i]] &&
                out[i].tenant == tenant && out[i].active
    {
      out := [];
      for i := 0 to |rows|
        invariant |out| == i
        invariant forall k :: 0 <= k < i ==> rows[k] in endpoints && out[k] == endpoints[rows[k]]
      {
        assert rows[i] in rows;
        out := out + [endpoints[rows[i]]];
      }
      assert forall i :: 0 <= i < |rows| ==> rows[i] in rows;
    }

    method CreateDelivery(id: DeliveryId, webhook: EndpointId, op: Model.OpId, event: string, payload: Payload,
        now: nat)
      requires id !in deliveries
      modifies this`deliveries
      ensures deliveries == old(deliveries)[id := Delivery(webhook, op, event, payload, NewRow(now))]
    {
      deliveries := deliveries[id := Delivery(webhook, op, event, payload, Row(Pending, 0, now, 0))];
    }

    method MarkDeliverySuccess(id: DeliveryId, now: nat)
      modifies this`deliveries
      ensures id !in old(deliveries) ==> deliveries == old(deliveries)
      ensures id in old(deliveries) ==>
                deliveries == Updated(old(deliveries), id, MarkedSuccess(old(deliveries)[id].row, now))
    {
      if id in deliveries {
        var row := deliveries[id].row;
        row := row.(status := Delivered, last := now);
        row := row.(count := row.count + 1);
        deliveries := deliveries[id := deliveries[id].(row := row)];
      }
    }

    method MarkDeliveryFailedAndReschedule(id: DeliveryId, next: nat, now: nat)
      modifies this`deliveries
      ensures id !in old(deliveries) ==> deliveries == old(deliveries)
      ensures id in old(deliveries) ==>
                deliveries == Updated(old(deliveries), id, MarkedRescheduled(old(deliveries)[id].row, next, now))
    {
      if id in deliveries {
        var row := deliveries[id].row;
        row := row.(status := Pending, last := now, next := next);
        row := row.(count := row.count + 1);
        deliveries := deliveries[id := deliveries[id].(row := row)];
      }
    }

    method MarkDeliveryPermanentlyFailed(id: DeliveryId, now: nat)
      modifies this`deliveries
      ensures id !in old(deliveries) ==> deliveries == old(deliveries)
      ensures id in old(deliveries) ==>
                deliveries == Updated(old(deliveries), id, MarkedFailed(old(deliveries)[id].row, now))
    {
      if id in deliveries {
        var row := deliveries[id].row;
        row := row.(status := Failed, last := now);
        row := row.(count := row.count + 1);
        deliveries := deliveries[id := deliveries[id].(row := row)];
      }
    }

    method DueDeliveriesWithEndpoint(limit: nat, now: nat, rows: seq<DeliveryId>) returns (out: seq<DueDelivery>)
      requires IsDueBatch(endpoints, deliveries, now, limit, rows)
      ensures |out| == |rows|
      ensures forall i :: 0 <= i < |rows| ==>
                IsDue(endpoints, deliveries, now, rows[i]) &&
                out[i] == Joined(endpoints, deliveries, rows[i])
    {
      out := [];
      for i := 0 to |rows|
        invariant |out| == i
        invariant forall k :: 0 <= k < i ==>
                  IsDue(endpoints, deliveries, now, rows[k]) &&
                  out[k] == Joined(endpoints, deliveries, rows[k])
      {
        var d := deliveries[rows[i]];
        var e := endpoints[d.webhook];
        out := out + [DueDelivery(rows[i], e.url, e.secret, d.payload, d.row.count)];
      }
    }
  }

  /** The endpoint's current URL and secret beside the payload stored at creation. */
  function Joined(endpoints: Endpoints, deliveries: Deliveries, id: DeliveryId): DueDelivery
    requires id in deliveries && deliveries[id].webhook in endpoints
  {
    var d := deliveries[id];
    DueDelivery(id, endpoints[d.webhook].url, endpoints[d.webhook].secret, d.payload, d.row.count)
  }

  function Posting(outcome: Outcome, post: Post): seq<Post> { if outcome.BadRequest? then [] else [post] }

  /** attemptDelivery: an UPDATE of a row that does not exist changes nothing. */
  function Attempted(deliveries: Deliveries, id: DeliveryId, attempt: nat, try: Try): Deliveries {
    if id in deliveries then Updated(deliveries, id, Marked(deliveries[id].row, attempt, try.outcome, try.at, try.now))
    else deliveries
  }

  // ---- Dispatch ----

  /** Per endpoint: the generated key, the payload's timestamp, whether it is encoded and inserted, the
      attempt. */
  datatype Slot = Slot(id: DeliveryId, stamp: nat, inserted: bool, try: Try)

  /** What the caller asks to be delivered. */
  datatype Notice = Notice(tenant: Model.Tenant, op: Model.OpId, event: string, data: Model.Option<string>)

  function PayloadOf(notice: Notice, stamp: nat): Payload {
    Payload(notice.event, notice.op, notice.tenant, stamp, notice.data)
  }

  /** The table after the first n endpoints. */
  function Dispatched(deliveries: Deliveries, notice: Notice, active: seq<EndpointId>, slots: seq<Slot>, now: nat,
      n: nat): Deliveries
    requires |slots| == |active| && n <= |active|
  {
    if n == 0 then deliveries else
    var before, slot := Dispatched(deliveries, notice, active, slots, now, n - 1), slots[n - 1];
    if !slot.inserted then before
    else before[slot.id := Delivery(active[n - 1], notice.op, notice.event, PayloadOf(notice, slot.stamp),
                                    Marked(NewRow(now), 1, slot.try.outcome, slot.try.at, slot.try.now))]
  }

  /** What it sends: one POST per endpoint whose delivery row could be inserted. */
  function FirstPosts(notice: Notice, endpoints: seq<Endpoint>, slots: seq<Slot>, n: nat): seq<Post>
    requires |slots| == |endpoints| && n <= |slots|
  {
    if n == 0 then [] else
    var slot := slots[n - 1];
    FirstPosts(notice, endpoints, slots, n - 1) +
    if !slot.inserted then []
    else Posting(slot.try.outcome, Post(slot.id, endpoints[n - 1].url, endpoints[n - 1].secret,
                                        PayloadOf(notice, slot.stamp)))
  }

  ghost predicate FreshKeys(deliveries: Deliveries, slots: seq<Slot>) {
    && (forall i :: 0 <= i < |slots| ==> slots[i].id !in deliveries)
    && (forall i, j :: 0 <= i < j < |slots| ==> slots[i].id != slots[j].id)
  }

  lemma {:induction false} DispatchedKeys(deliveries: Deliveries, notice: Notice, active: seq<EndpointId>,
      slots: seq<Slot>, now: nat, n: nat, id: DeliveryId)
    requires |slots| == |active| && n <= |active| && FreshKeys(deliveries, slots)
    ensures id in Dispatched(deliveries, notice, active, slots, now, n) <==>
              id in deliveries || exists i :: 0 <= i < n && slots[i].inserted && slots[i].id == id
    ensures id in deliveries ==> Dispatched(deliveries, notice, active, slots, now, n)[id] == deliveries[id]
  {
    hide Marked;
    if n > 0 { DispatchedKeys(deliveries, notice, active, slots, now, n - 1, id); }
  }

  /** What one attempt leaves of a row: counted, dated, closed by an answer in 2xx, by an unusable URL
      or by the fifth failure, and otherwise due again after 5 s times the square of its number. */
  predicate AfterAttempt(row: Row, row': Row, attempt: nat, try: Try) {
    && row'.count == row.count + 1 && row'.last == try.now
    && match try.outcome
       case BadRequest => row'.status == Failed && row'.next == row.next
       case Answer(true) => row'.status == Delivered && row'.next == row.next
       case Answer(false) =>
         if attempt >= 5 then row'.status == Failed && row'.next == row.next
         else row'.status == Pending && row'.next == try.at + attempt * attempt * 5 * 1_000_000_000
  }

  lemma MarkedAfter(row: Row, attempt: nat, try: Try)
    ensures AfterAttempt(row, Marked(row, attempt, try.outcome, try.at, try.now), attempt, try)
  {
  }

  /** Every active endpoint whose INSERT succeeds gets one delivery of the notice, attempted once. */
  lemma {:induction false} DispatchedRow(deliveries: Deliveries, notice: Notice, active: seq<EndpointId>,
      slots: seq<Slot>, now: nat, n: nat, i: nat)
    requires |slots| == |active| && i < n <= |active| && FreshKeys(deliveries, slots) && slots[i].inserted
    ensures var after, slot := Dispatched(deliveries, notice, active, slots, now, n), slots[i];
            slot.id in after &&
            var d := after[slot.id];
            d.webhook == active[i] && d.op == notice.op && d.event == notice.event &&
            d.payload == Payload(notice.event, notice.op, notice.tenant, slot.stamp, notice.data) &&
            AfterAttempt(Row(Pending, 0, now, 0), d.row, 1, slot.try)
  {
    if i < n - 1 {
      DispatchedRow(deliveries, notice, active, slots, now, n - 1, i);
    } else {
      MarkedAfter(NewRow(now), 1, slots[i].try);
    }
    hide Marked, AfterAttempt;
  }

  // ---- which requests go out ----

  /** The places where a flag is set, in order. */
  function Places(flags: seq<bool>): (places: seq<nat>)
    ensures forall m :: 0 <= m < |places| ==> places[m] < |flags| && flags[places[m]]
    ensures forall i: nat :: i < |flags| && flags[i] ==> i in places
    ensures forall l, m :: 0 <= l < m < |places| ==> places[l] < places[m]
  {
    if flags == [] then [] else
    var n := |flags| - 1;
    Places(flags[..n]) + if flags[n] then [n] else []
  }

  lemma OneMorePlace(flags: seq<bool>, n: nat)
    requires 0 < n <= |flags|
    ensures Places(flags[..n]) == Places(flags[..n - 1]) + if flags[n - 1] then [n - 1] else []
  {
    assert flags[..n][..n - 1] == flags[..n - 1];
  }

  /** With all flags set these are all the places. */
  lemma {:induction false} AllPlaces(flags: seq<bool>)
    requires forall i :: 0 <= i < |flags| ==> flags[i]
    ensures |Places(flags)| == |flags| && forall i :: 0 <= i < |flags| ==> Places(flags)[i] == i
  {
    if flags != [] { AllPlaces(flags[..|flags| - 1]); }
  }

  /** A request is made for an endpoint whose delivery could be inserted, unless its URL is unusable. */
  function Sends(slots: seq<Slot>): seq<bool> {
    seq(|slots|, i requires 0 <= i < |slots| => slots[i].inserted && slots[i].try.outcome.Answer?)
  }

  function Answers(tries: seq<Try>): seq<bool> {
    seq(|tries|, i requires 0 <= i < |tries| => tries[i].outcome.Answer?)
  }

  /** The requests of a dispatch: to each endpoint's own URL under its own secret, in order. */
  lemma {:induction false} FirstPostsAre(notice: Notice, endpoints: seq<Endpoint>, slots: seq<Slot>, n: nat)
    requires |slots| == |endpoints| && n <= |slots|
    ensures var posts, sent := FirstPosts(notice, endpoints, slots, n), Places(Sends(slots)[..n]);
            |posts| == |sent| &&
            forall m :: 0 <= m < |sent| ==>
              var i := sent[m];
              posts[m] == Post(slots[i].id, endpoints[i].url, endpoints[i].secret,
                               Payload(notice.event, notice.op, notice.tenant, slots[i].stamp, notice.data))
  {
    if n > 0 {
      FirstPostsAre(notice, endpoints, slots, n - 1);
      assert Sends(slots)[..n][..n - 1] == Sends(slots)[..n - 1];
    }
  }

  // ---- RetryDue ----

  /** The first n rows of the batch, each with the attempt number its snapshot gives. */
  function Swept(deliveries: Deliveries, due: seq<DueDelivery>, tries: seq<Try>, n: nat): (after: Deliveries)
    requires n <= |due| == |tries|
    ensures after.Keys == deliveries.Keys
  {
    if n == 0 then deliveries
    else Attempted(Swept(deliveries, due, tries, n - 1), due[n - 1].id, due[n - 1].count + 1, tries[n - 1])
  }

  function PostOf(d: DueDelivery): Post { Post(d.id, d.url, d.secret, d.payload) }

  /** What it sends: every row of the batch once, in order, unless its URL is unusable. */
  function Resends(due: seq<DueDelivery>, tries: seq<Try>, n: nat): seq<Post>
    requires n <= |due| == |tries|
  {
    if n == 0 then [] else
    Resends(due, tries, n - 1) + Posting(tries[n - 1].outcome, PostOf(due[n - 1]))
  }

  lemma {:induction false} SweptElsewhere(deliveries: Deliveries, due: seq<DueDelivery>, tries: seq<Try>, n: nat,
      id: DeliveryId)
    requires n <= |due| == |tries| && id in deliveries && forall i :: 0 <= i < n ==> due[i].id != id
    ensures Swept(deliveries, due, tries, n)[id] == deliveries[id]
  {
    hide Marked;
    if n > 0 { SweptElsewhere(deliveries, due, tries, n - 1, id); }
  }

  /** Every row of a batch is updated exactly once, with the attempt number its own count gives. */
  lemma {:induction false} SweptOnce(deliveries: Deliveries, due: seq<DueDelivery>, tries: seq<Try>, n: nat, k: nat)
    requires k < n <= |due| == |tries|
    requires due[k].id in deliveries && due[k].count == deliveries[due[k].id].row.count
    requires forall i, j :: 0 <= i < j < |due| ==> due[i].id != due[j].id
    ensures var d := deliveries[due[k].id];
            Swept(deliveries, due, tries, n)[due[k].id] ==
              d.(row := Marked(d.row, d.row.count + 1, tries[k].outcome, tries[k].at, tries[k].now))
  {
    hide Marked;
    if k < n - 1 {
      SweptOnce(deliveries, due, tries, n - 1, k);
    } else {
      SweptElsewhere(deliveries, due, tries, k, due[k].id);
    }
  }

  /** The requests of a sweep, as the batch gives them. */
  lemma {:induction false} ResendsAre(due: seq<DueDelivery>, tries: seq<Try>, n: nat)
    requires n <= |due| == |tries|
    ensures |Resends(due, tries, n)| == |Places(Answers(tries)[..n])|
    ensures forall m :: 0 <= m < |Resends(due, tries, n)| ==>
              Resends(due, tries, n)[m] == PostOf(due[Places(Answers(tries)[..n])[m]])
  {
    if n == 0 {
      NothingSwept(map[], due, tries);
    } else {
      ResendsAre(due, tries, n - 1);
      OneMoreSwept(map[], due, tries, n - 1);
      OneMorePlace(Answers(tries), n);
      hide Resends, Places;
    }
  }

  ghost predicate IsJoin(endpoints: Endpoints, deliveries: Deliveries, now: nat, rows: seq<DeliveryId>,
      due: seq<DueDelivery>) {
    |due| == |rows| && forall i :: 0 <= i < |rows| ==>
              IsDue(endpoints, deliveries, now, rows[i]) &&
              due[i] == Joined(endpoints, deliveries, rows[i])
  }

  lemma BatchFits(endpoints: Endpoints, deliveries: Deliveries, now: nat, rows: seq<DeliveryId>)
    requires IsDueBatch(endpoints, deliveries, now, SWEEP_LIMIT, rows)
    ensures |rows| <= SWEEP_LIMIT && forall i, j :: 0 <= i < j < |rows| ==> rows[i] != rows[j]
  {
  }

  lemma NothingSwept(deliveries: Deliveries, due: seq<DueDelivery>, tries: seq<Try>)
    requires |due| == |tries|
    ensures Swept(deliveries, due, tries, 0) == deliveries && Resends(due, tries, 0) == []
  {
  }

  lemma OneMoreSwept(deliveries: Deliveries, due: seq<DueDelivery>, tries: seq<Try>, i: nat)
    requires i < |due| == |tries|
    ensures Swept(deliveries, due, tries, i + 1) ==
            Attempted(Swept(deliveries, due, tries, i), due[i].id, due[i].count + 1, tries[i])
    ensures Resends(due, tries, i + 1) ==
            Resends(due, tries, i) + Posting(tries[i].outcome, PostOf(due[i]))
  {
  }

  // ---- a sweep in terms of the tables ----

  /** The request carries the delivery's stored payload to the current URL of its own endpoint, under
      that endpoint's secret. */
  predicate Resent(endpoints: Endpoints, deliveries: Deliveries, id: DeliveryId, post: Post) {
    id in deliveries && deliveries[id].webhook in endpoints &&
    post.delivery == id && post.payload == deliveries[id].payload &&
    post.url == endpoints[deliveries[id].webhook].url && post.secret == endpoints[deliveries[id].webhook].secret
  }

  /** One request per row whose attempt gets an answer, in the order of the rows; none for the others. */
  ghost predicate SweepSends(endpoints: Endpoints, deliveries: Deliveries, rows: seq<DeliveryId>, tries: seq<Try>,
      posts: seq<Post>)
    requires |tries| == |rows|
  {
    var sent := Places(Answers(tries));
    |posts| == |sent| &&
    forall m :: 0 <= m < |sent| ==> Resent(endpoints, deliveries, rows[sent[m]], posts[m])
  }

  /** Each row has had one attempt, numbered by its own count; nothing else has changed. */
  ghost predicate SweepLeaves(deliveries: Deliveries, rows: seq<DeliveryId>, tries: seq<Try>, after: Deliveries)
    requires |tries| == |rows|
  {
    && after.Keys == deliveries.Keys
    && (forall id :: id in deliveries && id !in rows ==> after[id] == deliveries[id])
    && (forall k :: 0 <= k < |rows| ==>
          rows[k] in deliveries &&
          var d, d' := deliveries[rows[k]], after[rows[k]];
          d' == d.(row := d'.row) && AfterAttempt(d.row, d'.row, d.row.count + 1, tries[k]))
  }

  /** The rows are pending and due at `now`, at most 50 of them, and no row left out has been due longer. */
  ghost predicate SweepTakes(endpoints: Endpoints, deliveries: Deliveries, now: nat, rows: seq<DeliveryId>) {
    && |rows| <= 50
    && (forall i, j :: 0 <= i < j < |rows| ==> rows[i] != rows[j])
    && (forall k :: 0 <= k < |rows| ==>
          rows[k] in deliveries && deliveries[rows[k]].row.status == Pending && deliveries[rows[k]].row.next <= now)
    && (forall id :: id in deliveries && deliveries[id].webhook in endpoints && deliveries[id].row.status == Pending &&
                     deliveries[id].row.next <= now && id !in rows ==>
          |rows| == 50 &&
          forall k :: 0 <= k < |rows| && rows[k] in deliveries ==>
            deliveries[rows[k]].row.next <= deliveries[id].row.next)
  }

  lemma BatchTakes(endpoints: Endpoints, deliveries: Deliveries, now: nat, rows: seq<DeliveryId>)
    requires IsDueBatch(endpoints, deliveries, now, SWEEP_LIMIT, rows)
    ensures SweepTakes(endpoints, deliveries, now, rows)
  {
    forall id | id in deliveries && deliveries[id].webhook in endpoints && deliveries[id].row.status == Pending &&
                deliveries[id].row.next <= now && id !in rows
      ensures |rows| == 50 && forall k :: 0 <= k < |rows| ==> deliveries[rows[k]].row.next <= deliveries[id].row.next
    {
      assert IsDue(endpoints, deliveries, now, id);
    }
  }

  lemma JoinedResent(endpoints: Endpoints, deliveries: Deliveries, now: nat, rows: seq<DeliveryId>,
      due: seq<DueDelivery>, i: nat)
    requires IsJoin(endpoints, deliveries, now, rows, due) && i < |rows|
    ensures |due| == |rows| && Resent(endpoints, deliveries, rows[i], PostOf(due[i]))
  {
  }

  lemma BatchSends(endpoints: Endpoints, deliveries: Deliveries, now: nat, rows: seq<DeliveryId>,
      due: seq<DueDelivery>, tries: seq<Try>)
    requires IsJoin(endpoints, deliveries, now, rows, due) && |tries| == |rows| == |due|
    ensures SweepSends(endpoints, deliveries, rows, tries, Resends(due, tries, |due|))
  {
    ResendsAre(due, tries, |due|);
    var sent := Places(Answers(tries));
    assert Answers(tries)[..|due|] == Answers(tries);
    hide Resends, Answers, Places, IsJoin, Resent, PostOf;
    forall m | 0 <= m < |sent|
      ensures Resent(endpoints, deliveries, rows[sent[m]], Resends(due, tries, |due|)[m])
    {
      JoinedResent(endpoints, deliveries, now, rows, due, sent[m]);
    }
  }

  lemma BatchLeaves(endpoints: Endpoints, deliveries: Deliveries, now: nat, rows: seq<DeliveryId>,
      due: seq<DueDelivery>, tries: seq<Try>)
    requires IsDueBatch(endpoints, deliveries, now, SWEEP_LIMIT, rows)
    requires IsJoin(endpoints, deliveries, now, rows, due) && |tries| == |rows|
    ensures SweepLeaves(deliveries, rows, tries, Swept(deliveries, due, tries, |due|))
  {
    hide Marked, AfterAttempt, Swept, IsDueBatch;
    BatchFits(endpoints, deliveries, now, rows);
    var after := Swept(deliveries, due, tries, |due|);
    forall id | id in deliveries && id !in rows
      ensures after[id] == deliveries[id]
    {
      SweptElsewhere(deliveries, due, tries, |due|, id);
    }
    forall k | 0 <= k < |rows|
      ensures rows[k] in deliveries
      ensures var d, d' := deliveries[rows[k]], after[rows[k]];
              d' == d.(row := d'.row) && AfterAttempt(d.row, d'.row, d.row.count + 1, tries[k])
    {
      BatchReady(endpoints, deliveries, now, rows, due, k);
      SweptOnce(deliveries, due, tries, |due|, k);
      MarkedAfter(deliveries[rows[k]].row, deliveries[rows[k]].row.count + 1, tries[k]);
    }
  }

  lemma AllSent(endpoints: Endpoints, deliveries: Deliveries, rows: seq<DeliveryId>, tries: seq<Try>, posts: seq<Post>)
    requires |tries| == |rows| && SweepSends(endpoints, deliveries, rows, tries, posts)
    requires forall k :: 0 <= k < |tries| ==> tries[k].outcome.Answer?
    ensures |posts| == |rows| && forall k :: 0 <= k < |rows| ==> Resent(endpoints, deliveries, rows[k], posts[k])
  {
    AllPlaces(Answers(tries));
  }

  // ---- a dispatch in terms of the tables ----

  /** The endpoints named are the tenant's active ones, each once. */
  ghost predicate NamesActive(endpoints: Endpoints, tenant: Model.Tenant, active: seq<EndpointId>) {
    && (forall i, j :: 0 <= i < j < |active| ==> active[i] != active[j])
    && (forall i :: 0 <= i < |active| ==>
          active[i] in endpoints && endpoints[active[i]].tenant == tenant && endpoints[active[i]].active)
    && (forall e :: e in endpoints && endpoints[e].tenant == tenant && endpoints[e].active ==> e in active)
  }

  /** Each endpoint whose INSERT succeeds has a new delivery of the notice with one attempt made;
      nothing else has changed. */
  ghost predicate DispatchLeaves(deliveries: Deliveries, notice: Notice, active: seq<EndpointId>, slots: seq<Slot>,
      now: nat, after: Deliveries)
    requires |slots| == |active|
  {
    && (forall id :: id in after <==>
          id in deliveries || exists i :: 0 <= i < |slots| && slots[i].inserted && slots[i].id == id)
    && (forall id :: id in deliveries ==> id in after && after[id] == deliveries[id])
    && (forall i :: 0 <= i < |slots| && slots[i].inserted ==>
          slots[i].id in after &&
          var d := after[slots[i].id];
          d.webhook == active[i] && d.op == notice.op && d.event == notice.event &&
          d.payload == Payload(notice.event, notice.op, notice.tenant, slots[i].stamp, notice.data) &&
          AfterAttempt(Row(Pending, 0, now, 0), d.row, 1, slots[i].try))
  }

  /** One request per endpoint whose delivery could be inserted and whose URL is usable, in order, to
      that endpoint's own URL under its own secret. */
  ghost predicate DispatchSends(endpoints: Endpoints, notice: Notice, active: seq<EndpointId>, slots: seq<Slot>,
      posts: seq<Post>)
    requires |slots| == |active|
  {
    var sent := Places(Sends(slots));
    |posts| == |sent| &&
    forall m :: 0 <= m < |sent| ==>
      var i := sent[m];
      active[i] in endpoints && posts[m].delivery == slots[i].id &&
      posts[m].url == endpoints[active[i]].url && posts[m].secret == endpoints[active[i]].secret &&
      posts[m].payload == Payload(notice.event, notice.op, notice.tenant, slots[i].stamp, notice.data)
  }

  lemma ActiveNames(endpoints: Endpoints, tenant: Model.Tenant, active: seq<EndpointId>)
    requires IsActiveList(endpoints, tenant, active)
    ensures NamesActive(endpoints, tenant, active)
  {
    assert forall i :: 0 <= i < |active| ==> active[i] in active;
  }

  lemma SlotsLeave(deliveries: Deliveries, notice: Notice, active: seq<EndpointId>, slots: seq<Slot>, now: nat)
    requires |slots| == |active| && FreshKeys(deliveries, slots)
    ensures DispatchLeaves(deliveries, notice, active, slots, now,
                           Dispatched(deliveries, notice, active, slots, now, |active|))
  {
    hide Dispatched, AfterAttempt;
    var after := Dispatched(deliveries, notice, active, slots, now, |active|);
    forall id: DeliveryId
      ensures id in after <==>
              id in deliveries || exists i :: 0 <= i < |slots| && slots[i].inserted && slots[i].id == id
      ensures id in deliveries ==> id in after && after[id] == deliveries[id]
    {
      DispatchedKeys(deliveries, notice, active, slots, now, |active|, id);
    }
    forall i | 0 <= i < |slots| && slots[i].inserted
      ensures slots[i].id in after
      ensures var d := after[slots[i].id];
              d.webhook == active[i] && d.op == notice.op && d.event == notice.event &&
              d.payload == Payload(notice.event, notice.op, notice.tenant, slots[i].stamp, notice.data) &&
              AfterAttempt(Row(Pending, 0, now, 0), d.row, 1, slots[i].try)
    {
      DispatchedRow(deliveries, notice, active, slots, now, |active|, i);
    }
  }

  lemma SlotsSend(endpoints: Endpoints, notice: Notice, active: seq<EndpointId>, slots: seq<Slot>, eps: seq<Endpoint>)
    requires |slots| == |active| == |eps|
    requires forall i :: 0 <= i < |active| ==> active[i] in endpoints && eps[i] == endpoints[active[i]]
    ensures DispatchSends(endpoints, notice, active, slots, FirstPosts(notice, eps, slots, |active|))
  {
    FirstPostsAre(notice, eps, slots, |active|);
    assert Sends(slots)[..|active|] == Sends(slots);
    hide FirstPosts, Sends, Places;
  }

  class Dispatcher {
    const repo: WebhookRepository
    var posted: seq<Post>

    constructor (repo: WebhookRepository)
      ensures this.repo == repo && posted == []
    {
      this.repo := repo;
      posted := [];
    }

    method AttemptDelivery(id: DeliveryId, url: string, secret: string, body: Payload, attempt: nat, try: Try)
      modifies repo`deliveries, this`posted
      ensures repo.deliveries == Attempted(old(repo.deliveries), id, attempt, try)
      ensures posted == old(posted) + Posting(try.outcome, Post(id, url, secret, body))
      ensures posted == if try.outcome == BadRequest then old(posted) else old(posted) + [Post(id, url, secret, body)]
      ensures repo.deliveries.Keys == old(repo.deliveries).Keys
      ensures forall other :: other in repo.deliveries && other != id ==>
                repo.deliveries[other] == old(repo.deliveries)[other]
      ensures id in old(repo.deliveries) ==>
                var d, d' := old(repo.deliveries)[id], repo.deliveries[id];
                d' == d.(row := d'.row) && AfterAttempt(d.row, d'.row, attempt, try)
    {
      if try.outcome.BadRequest? {
        repo.MarkDeliveryPermanentlyFailed(id, try.now);
        return;
      }
      posted := posted + [Post(id, url, secret, body)];
      if try.outcome.ok {
        repo.MarkDeliverySuccess(id, try.now);
        return;
      }
      if attempt >= MAX_ATTEMPTS {
        repo.MarkDeliveryPermanentlyFailed(id, try.now);
        return;
      }
      var backoff := attempt * attempt * 5 * SECOND;
      repo.MarkDeliveryFailedAndReschedule(id, try.at + backoff, try.now);
    }

    /** `active` answers the endpoint query. */
    method Dispatch(notice: Notice, active: seq<EndpointId>, slots: seq<Slot>, now: nat)
      returns (ghost endpoints: seq<Endpoint>)
      requires IsActiveList(repo.endpoints, notice.tenant, active)
      requires |slots| == |active| && FreshKeys(repo.deliveries, slots)
      modifies repo`deliveries, this`posted
      ensures repo.deliveries == Dispatched(old(repo.deliveries), notice, active, slots, now, |active|)
      ensures |endpoints| == |active|
      ensures forall i :: 0 <= i < |active| ==> active[i] in repo.endpoints && endpoints[i] == repo.endpoints[active[i]]
      ensures posted == old(posted) + FirstPosts(notice, endpoints, slots, |active|)
      ensures NamesActive(repo.endpoints, notice.tenant, active)
      ensures DispatchLeaves(old(repo.deliveries), notice, active, slots, now, repo.deliveries)
      ensures old(posted) <= posted
      ensures DispatchSends(repo.endpoints, notice, active, slots, posted[|old(posted)|..])
    {
      hide Marked, IsActiveList, NamesActive, DispatchLeaves, DispatchSends;
      ActiveNames(repo.endpoints, notice.tenant, active);
      ghost var before := repo.deliveries;
      var eps := repo.ActiveWebhooksForTenant(notice.tenant, active);
      endpoints := eps;
      for i := 0 to |eps|
        invariant repo.deliveries == Dispatched(before, notice, active, slots, now, i)
        invariant posted == old(posted) + FirstPosts(notice, eps, slots, i)
      {
        var slot := slots[i];
        if slot.inserted {
          DispatchedKeys(before, notice, active, slots, now, i, slot.id);
          var body := Payload(notice.event, notice.op, notice.tenant, slot.stamp, notice.data);
          repo.CreateDelivery(slot.id, active[i], notice.op, notice.event, body, now);
          AttemptDelivery(slot.id, eps[i].url, eps[i].secret, body, 1, slot.try);
        }
      }
      SlotsLeave(before, notice, active, slots, now);
      SlotsSend(repo.endpoints, notice, active, slots, eps);
      assert posted[|old(posted)|..] == FirstPosts(notice, eps, slots, |active|);
    }

    /** `rows` answers the due query, which runs at `now`. */
    method RetryDue(now: nat, rows: seq<DeliveryId>, tries: seq<Try>) returns (swept: nat, ghost due: seq<DueDelivery>)
      requires IsDueBatch(repo.endpoints, repo.deliveries, now, SWEEP_LIMIT, rows) && |tries| == |rows|
      modifies repo`deliveries, this`posted
      ensures swept == |rows| <= SWEEP_LIMIT && |due| == |rows|
      ensures IsJoin(repo.endpoints, old(repo.deliveries), now, rows, due)
      ensures repo.deliveries == Swept(old(repo.deliveries), due, tries, |due|)
      ensures posted == old(posted) + Resends(due, tries, |due|)
      ensures SweepTakes(repo.endpoints, old(repo.deliveries), now, rows)
      ensures SweepLeaves(old(repo.deliveries), rows, tries, repo.deliveries)
      ensures old(posted) <= posted
      ensures SweepSends(repo.endpoints, old(repo.deliveries), rows, tries, posted[|old(posted)|..])
    {
      hide Attempted, IsDueBatch, IsDue, Joined, SweepTakes, SweepLeaves, SweepSends, Swept, Resends;
      BatchFits(repo.endpoints, repo.deliveries, now, rows);
      BatchTakes(repo.endpoints, repo.deliveries, now, rows);
      ghost var before := repo.deliveries;
      var batch := repo.DueDeliveriesWithEndpoint(SWEEP_LIMIT, now, rows);
      due := batch;
      NothingSwept(before, batch, tries);
      for i := 0 to |batch|
        invariant repo.deliveries == Swept(before, batch, tries, i)
        invariant posted == old(posted) + Resends(batch, tries, i)
      {
        var item := batch[i];
        AttemptDelivery(item.id, item.url, item.secret, item.payload, item.count + 1, tries[i]);
        OneMoreSwept(before, batch, tries, i);
      }
      BatchLeaves(repo.endpoints, before, now, rows, batch, tries);
      BatchSends(repo.endpoints, before, now, rows, batch, tries);
      assert posted[|old(posted)|..] == Resends(batch, tries, |batch|);
      return |batch|, due;
    }
  }

  /** What the query returns meets the conditions of SweptOnce, with the payload stored at creation. */
  lemma BatchReady(endpoints: Endpoints, deliveries: Deliveries, now: nat, rows: seq<DeliveryId>,
      due: seq<DueDelivery>, k: nat)
    requires IsDueBatch(endpoints, deliveries, now, SWEEP_LIMIT, rows) &&
             IsJoin(endpoints, deliveries, now, rows, due) && k < |rows|
    ensures due[k].id == rows[k] && rows[k] in deliveries
    ensures due[k].count == deliveries[rows[k]].row.count && due[k].payload == deliveries[rows[k]].payload
    ensures forall i, j :: 0 <= i < j < |due| ==> due[i].id != due[j].id
  {
    BatchFits(endpoints, deliveries, now, rows);
    hide IsDueBatch;
    assert forall i :: 0 <= i < |due| ==> due[i].id == rows[i];
  }
}
