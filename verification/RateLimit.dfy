/** gateway/src/middleware/rateLimit.ts: a fixed-window limiter whose windows are Redis counters
    that expire.  Times are milliseconds. */
module RateLimit {
  import opened Model

  const WINDOW: nat := 60_000

  function Bucket(at: nat): nat { at / WINDOW }

  type Key = (Tenant, nat)

  /** A counter key; `expiresAt` is None when its EXPIRE never arrives. */
  datatype Window = Window(count: nat, expiresAt: Option<nat>)

  /** A request; its EXPIRE, if it sends one, is executed `lag` after its INCR. */
  datatype Request = Request(tenant: Tenant, at: nat, lag: Option<nat>)

  predicate Alive(w: Window, now: nat) { w.expiresAt.Some? ==> now < w.expiresAt.value }

  /** The counter as a client finds it: a missing or expired key reads as zero. */
  function Current(windows: map<Key, Window>, key: Key, now: nat): Window {
    if key in windows && Alive(windows[key], now) then windows[key] else Window(0, None)
  }

  function Count(windows: map<Key, Window>, key: Key, now: nat): nat { Current(windows, key, now).count }

  /** INCR, then EXPIRE if the counter was new. */
  function Hit(windows: map<Key, Window>, r: Request): map<Key, Window> {
    var key := (r.tenant, Bucket(r.at));
    var w := Current(windows, key, r.at);
    var expiresAt := if w.count == 0 && r.lag.Some? then Some(r.at + r.lag.value + WINDOW) else w.expiresAt;
    windows[key := Window(w.count + 1, expiresAt)]
  }

  class RateLimiter {
    var windows: map<Key, Window>

    constructor ()
      ensures windows == map[]
    {
      windows := map[];
    }

    method Admit(r: Request, rpm: int) returns (admitted: bool)
      modifies this
      ensures windows == Hit(old(windows), r)
      ensures admitted <==> Count(windows, (r.tenant, Bucket(r.at)), r.at) <= rpm
      ensures var key := (r.tenant, r.at / 60_000);
              var found := if key in old(windows) &&
                              (old(windows)[key].expiresAt == None || r.at < old(windows)[key].expiresAt.value)
                           then old(windows)[key] else Window(0, None);
              key in windows && windows == old(windows)[key := windows[key]] &&
              windows[key].count == found.count + 1 && (admitted <==> found.count + 1 <= rpm) &&
              windows[key].expiresAt == if found.count == 0 && r.lag.Some? then Some(r.at + r.lag.value + 60_000)
                                        else found.expiresAt
    {
      var key := (r.tenant, Bucket(r.at));
      var w := Current(windows, key, r.at);
      var count := w.count + 1;
      windows := windows[key := w.(count := count)];
      if count == 1 && r.lag.Some? {
        windows := windows[key := Window(count, Some(r.at + r.lag.value + 60_000))];
      }
      if count > rpm { return false; }
      return true;
    }
  }

  // ---- runs ----

  ghost predicate InOrder(rs: seq<Request>) { forall i, j :: 0 <= i < j < |rs| ==> rs[i].at <= rs[j].at }

  /** The counters after the first n requests. */
  function After(rs: seq<Request>, n: nat): map<Key, Window>
    requires n <= |rs|
  {
    if n == 0 then map[] else Hit(After(rs, n - 1), rs[n - 1])
  }

  predicate Admitted(rs: seq<Request>, rpm: int, i: nat)
    requires i < |rs|
  {
    Count(After(rs, i + 1), (rs[i].tenant, Bucket(rs[i].at)), rs[i].at) <= rpm
  }

  /** How many of the first n requests this tenant made in this minute. */
  function Arrivals(rs: seq<Request>, n: nat, key: Key): nat
    requires n <= |rs|
  {
    if n == 0 then 0 else
    Arrivals(rs, n - 1, key) + if (rs[n - 1].tenant, Bucket(rs[n - 1].at)) == key then 1 else 0
  }

  function AdmittedIn(rs: seq<Request>, rpm: int, n: nat, key: Key): nat
    requires n <= |rs|
  {
    if n == 0 then 0 else
    AdmittedIn(rs, rpm, n - 1, key) +
    if (rs[n - 1].tenant, Bucket(rs[n - 1].at)) == key && Admitted(rs, rpm, n - 1) then 1 else 0
  }

  /** A counter holds the minute's arrivals and outlives its minute. */
  predicate Exact(rs: seq<Request>, n: nat, key: Key)
    requires n <= |rs|
  {
    var ws := After(rs, n);
    if Arrivals(rs, n, key) == 0 then key !in ws
    else key in ws && ws[key].count == Arrivals(rs, n, key) &&
         (ws[key].expiresAt.Some? ==> ws[key].expiresAt.value >= (key.1 + 1) * WINDOW)
  }

  lemma {:induction false} CountersExact(rs: seq<Request>, n: nat, key: Key)
    requires n <= |rs|
    ensures Exact(rs, n, key)
  {
    if n > 0 {
      CountersExact(rs, n - 1, key);
      assert rs[n - 1].at < (Bucket(rs[n - 1].at) + 1) * WINDOW <= rs[n - 1].at + WINDOW;
    }
  }

  /** Expiry is never seen inside a minute: the value a request reads is its rank among the
      tenant's requests of that minute. */
  lemma CountIsRank(rs: seq<Request>, i: nat)
    requires i < |rs|
    ensures var key := (rs[i].tenant, Bucket(rs[i].at));
            Count(After(rs, i + 1), key, rs[i].at) == Arrivals(rs, i + 1, key)
  {
    CountersExact(rs, i + 1, (rs[i].tenant, Bucket(rs[i].at)));
    assert rs[i].at < (Bucket(rs[i].at) + 1) * WINDOW;
  }

  function Max0(rpm: int): nat { if rpm < 0 then 0 else rpm }

  function Min(a: nat, b: nat): nat { if a < b then a else b }

  /** Per tenant and minute exactly the first rpm requests are admitted. */
  lemma {:induction false} AdmitsExactly(rs: seq<Request>, rpm: int, n: nat, key: Key)
    requires n <= |rs|
    ensures AdmittedIn(rs, rpm, n, key) == Min(Arrivals(rs, n, key), Max0(rpm))
  {
    if n > 0 {
      AdmitsExactly(rs, rpm, n - 1, key);
      CountIsRank(rs, n - 1);
    }
  }

  // ---- arbitrary intervals ----

  /** Requests of the tenant admitted in [from, from + length). */
  function AdmittedWithin(rs: seq<Request>, rpm: int, n: nat, tenant: Tenant, from: nat, length: nat): nat
    requires n <= |rs|
  {
    if n == 0 then 0 else
    AdmittedWithin(rs, rpm, n - 1, tenant, from, length) +
    if rs[n - 1].tenant == tenant && from <= rs[n - 1].at < from + length && Admitted(rs, rpm, n - 1) then 1 else 0
  }

  /** Admissions in k consecutive minutes. */
  function AdmittedOver(rs: seq<Request>, rpm: int, n: nat, tenant: Tenant, first: nat, k: nat): nat
    requires n <= |rs|
  {
    if k == 0 then 0
    else AdmittedOver(rs, rpm, n, tenant, first, k - 1) + AdmittedIn(rs, rpm, n, (tenant, first + k - 1))
  }

  lemma {:induction false} OverIsLimited(rs: seq<Request>, rpm: int, n: nat, tenant: Tenant, first: nat, k: nat)
    requires n <= |rs|
    ensures AdmittedOver(rs, rpm, n, tenant, first, k) <= k * Max0(rpm)
  {
    if k > 0 {
      OverIsLimited(rs, rpm, n, tenant, first, k - 1);
      AdmitsExactly(rs, rpm, n, (tenant, first + k - 1));
      OneMore(k - 1, Max0(rpm));
      hide AdmittedIn, Max0;
    }
  }

  lemma OneMore(k: nat, m: nat)
    ensures (k + 1) * m == k * m + m
  {
  }

  /** One more request counts once in the minutes that contain it. */
  lemma {:induction false} OverGrows(rs: seq<Request>, rpm: int, n: nat, tenant: Tenant, first: nat, k: nat)
    requires 0 < n <= |rs|
    ensures var hit := rs[n - 1].tenant == tenant && first <= Bucket(rs[n - 1].at) < first + k &&
            Admitted(rs, rpm, n - 1);
            AdmittedOver(rs, rpm, n, tenant, first, k) ==
              AdmittedOver(rs, rpm, n - 1, tenant, first, k) + if hit then 1 else 0
  {
    if k > 0 { OverGrows(rs, rpm, n, tenant, first, k - 1); }
  }

  lemma {:induction false} WithinIsOver(rs: seq<Request>, rpm: int, n: nat, tenant: Tenant, from: nat,
      length: nat, k: nat)
    requires n <= |rs| && from + length <= (Bucket(from) + k) * WINDOW
    ensures AdmittedWithin(rs, rpm, n, tenant, from, length) <= AdmittedOver(rs, rpm, n, tenant, Bucket(from), k)
  {
    if n > 0 {
      WithinIsOver(rs, rpm, n - 1, tenant, from, length, k);
      OverGrows(rs, rpm, n, tenant, Bucket(from), k);
      if from <= rs[n - 1].at < from + length {
        BucketBetween(from, rs[n - 1].at, k);
      }
    }
  }

  lemma BucketBetween(from: nat, at: nat, k: nat)
    requires from <= at < (Bucket(from) + k) * WINDOW
    ensures Bucket(from) <= Bucket(at) < Bucket(from) + k
  {
  }

  function CeilWindows(length: nat): nat { (length + WINDOW - 1) / WINDOW }

  /** Any interval of that length, aligned or not. */
  lemma IntervalBound(rs: seq<Request>, rpm: int, tenant: Tenant, from: nat, length: nat)
    ensures AdmittedWithin(rs, rpm, |rs|, tenant, from, length) <= Max0(rpm) * (CeilWindows(length) + 1)
    ensures length == 60_000 ==> AdmittedWithin(rs, rpm, |rs|, tenant, from, length) <= 2 * Max0(rpm)
  {
    var k := CeilWindows(length) + 1;
    assert from < (Bucket(from) + 1) * WINDOW && length <= CeilWindows(length) * WINDOW;
    assert (Bucket(from) + k) * WINDOW == (Bucket(from) + 1) * WINDOW + CeilWindows(length) * WINDOW;
    WithinIsOver(rs, rpm, |rs|, tenant, from, length, k);
    OverIsLimited(rs, rpm, |rs|, tenant, Bucket(from), k);
    assert CeilWindows(WINDOW) == 1;
  }

  // ---- the bound is attained ----

  /** k requests at one instant. */
  function Burst(tenant: Tenant, at: nat, k: nat): (rs: seq<Request>)
    ensures |rs| == k && forall i :: 0 <= i < k ==> rs[i] == Request(tenant, at, Some(0))
  {
    if k == 0 then [] else Burst(tenant, at, k - 1) + [Request(tenant, at, Some(0))]
  }

  lemma {:induction false} BurstArrivals(rs: seq<Request>, n: nat, key: Key, from: nat)
    requires n <= |rs|
    requires forall i :: 0 <= i < n ==> ((rs[i].tenant, Bucket(rs[i].at)) == key <==> i >= from)
    ensures Arrivals(rs, n, key) == if n >= from then n - from else 0
  {
    if n > 0 { BurstArrivals(rs, n - 1, key, from); }
  }

  lemma {:induction false} AllWithin(rs: seq<Request>, rpm: nat, n: nat, tenant: Tenant, from: nat, length: nat)
    requires n <= |rs| && forall i :: 0 <= i < n ==>
              rs[i].tenant == tenant &&
              from <= rs[i].at < from + length && Admitted(rs, rpm, i)
    ensures AdmittedWithin(rs, rpm, n, tenant, from, length) == n
  {
    if n > 0 { AllWithin(rs, rpm, n - 1, tenant, from, length); }
  }

  /** Two bursts across a minute boundary: 2 * rpm requests admitted within two milliseconds. */
  lemma DoubleBurst(rpm: nat, tenant: Tenant) returns (rs: seq<Request>)
    ensures InOrder(rs) && |rs| == 2 * rpm
    ensures AdmittedWithin(rs, rpm, |rs|, tenant, 59_999, 2) == 2 * rpm
  {
    rs := Burst(tenant, WINDOW - 1, rpm) + Burst(tenant, WINDOW, rpm);
    forall i: nat | i < |rs|
      ensures Admitted(rs, rpm, i)
    {
      CountIsRank(rs, i);
      assert Bucket(WINDOW - 1) == 0 && Bucket(WINDOW) == 1;
      if i < rpm {
        BurstArrivals(rs, i + 1, (tenant, 0), 0);
      } else {
        BurstArrivals(rs, i + 1, (tenant, 1), rpm);
      }
    }
    AllWithin(rs, rpm, |rs|, tenant, WINDOW - 1, 2);
  }
}
