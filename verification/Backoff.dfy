/** BackoffDelay of services/operations/internal/queue in wrapping int64 nanoseconds.
    The jitter fraction is a whole number of thousandths, so the float product
    d * 0.2 * fraction becomes d * jitter / 5000. */
module Backoff {

  const SECOND: int := 1_000_000_000
  const BASE := 2 * SECOND
  const CAP := 60 * SECOND
  const TWO63: int := 0x8000_0000_0000_0000
  const TWO64: int := 0x1_0000_0000_0000_0000

  function Pow2(n: nat): (p: int)
    ensures p >= 1
  {
    if n == 0 then 1 else 2 * Pow2(n - 1)
  }

  /** Two's complement int64. */
  function Wrap64(x: int): (r: int)
    ensures -TWO63 <= r < TWO63
    ensures (r - x) % TWO64 == 0
    ensures -TWO63 <= x < TWO63 ==> r == x
  {
    (x + TWO63) % TWO64 - TWO63
  }

  /** 1 << uint(attempt): a shift count of 64 or more (in particular a negative attempt
      converted to uint) leaves no bit. */
  function ShiftedOne(attempt: int): int {
    if 0 <= attempt < 64 then Wrap64(Pow2(attempt)) else 0
  }

  /** Go division of a possibly negative duration truncates toward zero. */
  function TruncDiv(x: int, d: int): int
    requires d > 0
  {
    if x >= 0 then x / d else -((-x) / d)
  }

  function UncappedDelay(attempt: int): int {
    Wrap64(BASE * ShiftedOne(attempt))
  }

  function CappedDelay(attempt: int): int {
    var d := UncappedDelay(attempt);
    if d > CAP then CAP else d
  }

  function BackoffDelay(attempt: int, jitter: nat): int {
    var d := CappedDelay(attempt);
    Wrap64(d + TruncDiv(d * jitter, 5000))
  }

  /** What the schedule is meant to be, in unbounded integers. */
  function IdealDelay(attempt: nat): int {
    var d := BASE * Pow2(attempt);
    if d > CAP then CAP else d
  }

  lemma {:induction false} Pow2Monotone(a: nat, b: nat)
    requires a <= b
    ensures Pow2(a) <= Pow2(b)
    decreases b
  {
    if a < b { Pow2Monotone(a, b - 1); }
  }

  lemma {:induction false} Pow2Sum(a: nat, b: nat)
    ensures Pow2(a + b) == Pow2(a) * Pow2(b)
  {
    if a > 0 {
      Pow2Sum(a - 1, b);
      assert Pow2(a + b) == 2 * Pow2(a + b - 1);
      assert a + b - 1 == (a - 1) + b;
    }
  }

  lemma Pow2Table()
    ensures Pow2(32) == 0x1_0000_0000 && Pow2(33) == 0x2_0000_0000
  {
    assert Pow2(2) == 4 && Pow2(4) == 16;
    Pow2Sum(4, 4);
    Pow2Sum(8, 8);
    Pow2Sum(16, 16);
  }

  lemma JitterBound(d: int, jitter: nat)
    requires d > 0 && jitter < 1000
    ensures 0 <= d * jitter / 5000
    ensures 5 * (d * jitter / 5000) < d
  {
    var p := d * jitter;
    assert 0 <= p <= d * 999;
    assert 5000 * (p / 5000) <= p;
  }

  /** Up to attempt 32 nothing wraps, so the int64 code computes the ideal schedule. */
  lemma NoWrapUpTo32(attempt: nat)
    requires attempt <= 32
    ensures CappedDelay(attempt) == IdealDelay(attempt)
    ensures 0 < IdealDelay(attempt) <= CAP
  {
    Pow2Monotone(attempt, 32);
    Pow2Table();
  }

  /** The delay lies in [ideal, 1.2 * ideal). */
  lemma DelayWindow(attempt: nat, jitter: nat)
    requires attempt <= 32 && jitter < 1000
    ensures IdealDelay(attempt) <= BackoffDelay(attempt, jitter)
    ensures 5 * BackoffDelay(attempt, jitter) < 6 * IdealDelay(attempt)
  {
    NoWrapUpTo32(attempt);
    JitterBound(IdealDelay(attempt), jitter);
    assert IdealDelay(attempt) * jitter >= 0;
  }

  lemma IdealAtCap(attempt: nat)
    requires attempt >= 5
    ensures IdealDelay(attempt) == CAP
  {
    Pow2Monotone(5, attempt);
    assert Pow2(5) == 32;
  }

  /** Below the cap the ideal delay grows by more than jitter can add. */
  lemma IdealGrows(attempt: nat)
    requires attempt <= 4
    ensures 6 * IdealDelay(attempt) <= 5 * IdealDelay(attempt + 1)
  {
    assert Pow2(0) == 1 && Pow2(1) == 2 && Pow2(2) == 4 && Pow2(3) == 8 && Pow2(4) == 16 && Pow2(5) == 32;
  }

  /** Any two jitters leave the first five delays strictly increasing. */
  lemma StrictlyIncreasing(attempt: nat, j: nat, j': nat)
    requires attempt <= 4 && j < 1000 && j' < 1000
    ensures BackoffDelay(attempt, j) < BackoffDelay(attempt + 1, j')
  {
    hide BackoffDelay, IdealDelay;
    DelayWindow(attempt, j);
    DelayWindow(attempt + 1, j');
    IdealGrows(attempt);
  }

  /** The attempts whose wrapped product is the cap or exceeds it as a positive int64. */
  predicate WrapsAboveCap(attempt: int) { attempt in {36, 40, 41, 44, 46, 49, 50, 52} }

  /** The attempts whose wrapped product is negative: the cap does not catch it. */
  predicate WrapsNegative(attempt: int) { attempt in {33, 34, 35, 37, 38, 39, 42, 43, 45, 47, 48, 51, 53} }

  /** The attempts that get the base delay the schedule means them to have. */
  predicate OnSchedule(attempt: int) { 0 <= attempt <= 32 || WrapsAboveCap(attempt) }

  lemma Pow2Below63(attempt: nat)
    requires attempt <= 62
    ensures 1 <= Pow2(attempt) < TWO63
  {
    Pow2Monotone(attempt, 62);
    Pow2Sum(29, 33);
    Pow2Table();
    assert Pow2(29) == 0x2000_0000;
  }

  /** A shift below 63 is a positive int64, so only the product can wrap. */
  lemma UncappedIs(attempt: nat)
    requires attempt <= 62
    ensures UncappedDelay(attempt) == Wrap64(BASE * Pow2(attempt))
  {
    Pow2Below63(attempt);
  }

  /** Doubling an int64. */
  function Double64(d: int): int {
    if 2 * d >= TWO63 then 2 * d - TWO64 else if 2 * d < -TWO63 then 2 * d + TWO64 else 2 * d
  }

  lemma WrapDoubles(x: int)
    ensures Wrap64(2 * x) == Double64(Wrap64(x))
  {
    var q := (x + TWO63) / TWO64;
    assert x == q * TWO64 + Wrap64(x);
    WrapUnique(2 * x, 2 * q + (if 2 * Wrap64(x) >= TWO63 then 1 else if 2 * Wrap64(x) < -TWO63 then -1 else 0),
               Double64(Wrap64(x)));
  }

  lemma WrapUnique(x: int, q: int, r: int)
    requires x == q * TWO64 + r && -TWO63 <= r < TWO63
    ensures Wrap64(x) == r
  {
    assert (x + TWO63) / TWO64 == q;
  }

  lemma NextDoubles(attempt: nat)
    requires attempt <= 61
    ensures UncappedDelay(attempt + 1) == Double64(UncappedDelay(attempt))
  {
    UncappedIs(attempt);
    UncappedIs(attempt + 1);
    hide UncappedDelay, Double64;
    WrapDoubles(BASE * Pow2(attempt));
    assert Pow2(attempt + 1) == 2 * Pow2(attempt);
    assert BASE * Pow2(attempt + 1) == 2 * (BASE * Pow2(attempt));
  }

  lemma WrapsAt33()
    ensures UncappedDelay(33) == BASE * 0x2_0000_0000 - TWO64 < 0
  {
    Pow2Table();
  }

  /** The two attempts whose negative delay is so long that jitter can wrap it again. */
  const LONG48 := -7_782_220_156_096_217_088
  const LONG53 := -TWO63

  lemma WrappedTo43(attempt: nat)
    requires 33 <= attempt <= 43
    ensures if WrapsAboveCap(attempt) then UncappedDelay(attempt) > CAP
            else WrapsNegative(attempt) && -5 * TWO63 < 6 * UncappedDelay(attempt) < 0
    ensures UncappedDelay(43) == -6_007_801_902_912_241_664
  {
    WrapsAt33();
    hide UncappedDelay;
    NextDoubles(33);
    NextDoubles(34);
    NextDoubles(35);
    NextDoubles(36);
    NextDoubles(37);
    NextDoubles(38);
    NextDoubles(39);
    NextDoubles(40);
    NextDoubles(41);
    NextDoubles(42);
  }

  lemma WrappedTo48(attempt: nat)
    requires 43 < attempt <= 48
    ensures if WrapsAboveCap(attempt) then UncappedDelay(attempt) > CAP
            else WrapsNegative(attempt) && (attempt != 48 ==> -5 * TWO63 < 6 * UncappedDelay(attempt) < 0)
    ensures UncappedDelay(48) == LONG48
  {
    WrappedTo43(43);
    hide UncappedDelay;
    NextDoubles(43);
    NextDoubles(44);
    NextDoubles(45);
    NextDoubles(46);
    NextDoubles(47);
  }

  lemma WrappedTo53(attempt: nat)
    requires 48 < attempt <= 53
    ensures if WrapsAboveCap(attempt) then UncappedDelay(attempt) > CAP
            else WrapsNegative(attempt) && (attempt != 53 ==> -5 * TWO63 < 6 * UncappedDelay(attempt) < 0)
    ensures UncappedDelay(53) == LONG53
  {
    WrappedTo48(48);
    hide UncappedDelay;
    NextDoubles(48);
    NextDoubles(49);
    NextDoubles(50);
    NextDoubles(51);
    NextDoubles(52);
  }

  lemma WrappedBase(attempt: nat)
    requires 33 <= attempt <= 53
    ensures WrapsNegative(attempt) || WrapsAboveCap(attempt)
    ensures WrapsNegative(attempt) ==> UncappedDelay(attempt) < 0
    ensures WrapsNegative(attempt) && attempt !in {48, 53} ==> 6 * UncappedDelay(attempt) > -5 * TWO63
    ensures WrapsAboveCap(attempt) ==> UncappedDelay(attempt) > CAP
    ensures UncappedDelay(48) == LONG48 && UncappedDelay(53) == LONG53
  {
    hide UncappedDelay;
    WrappedTo48(48);
    WrappedTo53(53);
    if attempt <= 43 {
      WrappedTo43(attempt);
    } else if attempt <= 48 {
      WrappedTo48(attempt);
    } else {
      WrappedTo53(attempt);
    }
  }

  /** From 54 on the product is a multiple of 2^64, and doubling zero leaves zero. */
  lemma {:induction false} ZeroFrom54(attempt: nat)
    requires 54 <= attempt <= 62
    ensures UncappedDelay(attempt) == 0
  {
    if attempt == 54 { WrappedBase(53); } else { ZeroFrom54(attempt - 1); }
    NextDoubles(attempt - 1);
  }

  /** From 64 on, as for negative attempts, the shift itself leaves nothing. */
  lemma NothingLeft(attempt: int)
    requires attempt < 0 || attempt >= 54
    ensures UncappedDelay(attempt) == 0
  {
    if 54 <= attempt <= 62 {
      ZeroFrom54(attempt);
    } else if attempt == 63 {
      Pow2Sum(30, 33);
      Pow2Table();
      assert Pow2(30) == 0x4000_0000;
      assert ShiftedOne(63) == -TWO63;
      WrapUnique(BASE * -TWO63, -1_000_000_000, 0);
    }
  }

  /** For every attempt: the base delay is the scheduled one up to 32 and for eight later attempts
      whose product wraps to a positive value above the cap; for the others from 33 to 53 it is
      negative; from 54 on it is zero. */
  lemma BaseDelayOfEveryAttempt(attempt: int)
    ensures attempt >= 0 ==> (CappedDelay(attempt) == IdealDelay(attempt) <==> OnSchedule(attempt))
    ensures CappedDelay(attempt) < 0 <==> WrapsNegative(attempt)
    ensures CappedDelay(attempt) == 0 <==> attempt < 0 || attempt >= 54
  {
    if 0 <= attempt <= 32 {
      NoWrapUpTo32(attempt);
    } else if 33 <= attempt <= 53 {
      WrappedBase(attempt);
      IdealAtCap(attempt);
    } else {
      NothingLeft(attempt);
      if attempt >= 0 { IdealAtCap(attempt); }
    }
  }

  /** 33 is the first attempt whose product wraps. */
  lemma FirstWrapIs33(attempt: nat)
    ensures (forall a: nat :: a <= attempt ==> CappedDelay(a) == IdealDelay(a)) <==> attempt < 33
  {
    forall a: nat | a <= attempt && attempt < 33
      ensures CappedDelay(a) == IdealDelay(a)
    {
      NoWrapUpTo32(a);
    }
    BaseDelayOfEveryAttempt(33);
  }

  // ---- with jitter ----

  /** Jitter wraps a negative delay to a positive one when it is long enough. */
  predicate JitterWraps(attempt: int, jitter: nat) {
    (attempt == 48 && jitter >= 926) || (attempt == 53 && jitter >= 1)
  }

  lemma NegativeWithJitter(d: int, jitter: nat)
    requires -TWO63 <= d < 0 && jitter < 1000
    requires 6 * d > -5 * TWO63 || jitter == 0
    ensures Wrap64(d + TruncDiv(d * jitter, 5000)) < 0
  {
    assert d * jitter == -((-d) * jitter);
    JitterBound(-d, jitter);
  }

  lemma LongWithJitter(jitter: nat)
    requires jitter < 1000
    ensures var delay := Wrap64(LONG48 + TruncDiv(LONG48 * jitter, 5000));
            if jitter < 926 then delay < 0 else delay > 2 * CAP
    ensures var delay := Wrap64(LONG53 + TruncDiv(LONG53 * jitter, 5000));
            if jitter < 1 then delay < 0 else delay > 2 * CAP
  {
  }

  lemma OnScheduleWithJitter(attempt: nat, jitter: nat)
    requires OnSchedule(attempt) && jitter < 1000
    ensures IdealDelay(attempt) <= BackoffDelay(attempt, jitter)
    ensures 5 * BackoffDelay(attempt, jitter) < 6 * IdealDelay(attempt)
  {
    BaseDelayOfEveryAttempt(attempt);
    if attempt <= 32 {
      DelayWindow(attempt, jitter);
    } else {
      IdealAtCap(attempt);
      JitterBound(CAP, jitter);
    }
  }

  /** Jitter adds its share, in thousandths, of a fifth of the delay, rounded down. */
  lemma JitterAdds(attempt: nat, jitter: nat)
    requires OnSchedule(attempt) && jitter < 1000
    ensures var ideal, delay := IdealDelay(attempt), BackoffDelay(attempt, jitter);
            5000 * (delay - ideal) <= ideal * jitter < 5000 * (delay - ideal + 1)
  {
    BaseDelayOfEveryAttempt(attempt);
    IdealPositive(attempt);
    var d := CappedDelay(attempt);
    JitterBound(d, jitter);
    assert BackoffDelay(attempt, jitter) == d + d * jitter / 5000 by { assert d * jitter >= 0; }
    hide BackoffDelay, IdealDelay, CappedDelay;
    Rounded(d * jitter);
  }

  lemma Rounded(p: int)
    ensures 5000 * (p / 5000) <= p < 5000 * (p / 5000 + 1)
  {
  }

  /** On schedule more jitter always means a longer delay. */
  lemma MoreJitterLonger(attempt: nat, j: nat, j': nat)
    requires OnSchedule(attempt) && j < j' < 1000
    ensures BackoffDelay(attempt, j) < BackoffDelay(attempt, j')
  {
    JitterAdds(attempt, j);
    JitterAdds(attempt, j');
    var ideal := IdealDelay(attempt);
    assert ideal >= 2 * SECOND by { IdealTable(attempt); }
    var delay, delay' := BackoffDelay(attempt, j), BackoffDelay(attempt, j');
    hide BackoffDelay, IdealDelay;
    LargerProduct(ideal, j, j');
  }

  lemma {:induction false} LargerProduct(d: int, j: nat, j': nat)
    requires d > 0 && j < j'
    ensures d * j' >= d * j + d
  {
    assert d * j' == d * (j' - 1) + d;
    if j < j' - 1 { LargerProduct(d, j, j' - 1); }
  }

  /** The schedule in seconds. */
  lemma IdealTable(attempt: nat)
    ensures IdealDelay(attempt) == 1_000_000_000 * match attempt
                                                   case 0 => 2
                                                   case 1 => 4
                                                   case 2 => 8
                                                   case 3 => 16
                                                   case 4 => 32
                                                   case _ => 60
  {
    if attempt >= 5 { IdealAtCap(attempt); }
    assert Pow2(0) == 1 && Pow2(1) == 2 && Pow2(2) == 4 && Pow2(3) == 8 && Pow2(4) == 16;
  }

  lemma NegativeDelay(attempt: nat, jitter: nat)
    requires WrapsNegative(attempt) && jitter < 1000
    ensures if JitterWraps(attempt, jitter) then BackoffDelay(attempt, jitter) > 2 * CAP
            else BackoffDelay(attempt, jitter) < 0
  {
    WrappedBase(attempt);
    assert CappedDelay(attempt) == UncappedDelay(attempt);
    hide CappedDelay, UncappedDelay, Wrap64, TruncDiv;
    if attempt in {48, 53} {
      LongWithJitter(jitter);
    } else {
      NegativeWithJitter(UncappedDelay(attempt), jitter);
    }
  }

  lemma ZeroDelay(attempt: int, jitter: nat)
    requires attempt < 0 || attempt >= 54
    ensures BackoffDelay(attempt, jitter) == 0
  {
    NothingLeft(attempt);
  }

  lemma IdealPositive(attempt: nat)
    ensures 0 < IdealDelay(attempt) <= CAP
  {
    if attempt <= 32 { NoWrapUpTo32(attempt); } else { IdealAtCap(attempt); }
  }

  predicate InWindow(attempt: nat, jitter: nat) {
    IdealDelay(attempt) <= BackoffDelay(attempt, jitter) && 5 * BackoffDelay(attempt, jitter) < 6 * IdealDelay(attempt)
  }

  /** For every attempt and jitter: the delay lies in [ideal, 1.2 ideal) exactly on schedule; off
      schedule it is zero, or negative, or, when the jitter wraps it once more, above the cap. */
  lemma DelayOfEveryAttempt(attempt: int, jitter: nat)
    requires jitter < 1000
    ensures attempt >= 0 ==> (InWindow(attempt, jitter) <==> OnSchedule(attempt))
    ensures BackoffDelay(attempt, jitter) < 0 <==> WrapsNegative(attempt) && !JitterWraps(attempt, jitter)
    ensures BackoffDelay(attempt, jitter) == 0 <==> attempt < 0 || attempt >= 54
    ensures BackoffDelay(attempt, jitter) > 2 * CAP <==> JitterWraps(attempt, jitter)
  {
    hide BackoffDelay, IdealDelay;
    if attempt >= 0 { IdealPositive(attempt); }
    if OnSchedule(attempt) {
      OnScheduleWithJitter(attempt, jitter);
    } else if WrapsNegative(attempt) {
      NegativeDelay(attempt, jitter);
    } else {
      ZeroDelay(attempt, jitter);
    }
  }

  // ---- when the next delay is longer ----

  predicate Longer(attempt: int, j: nat, j': nat) { BackoffDelay(attempt, j) < BackoffDelay(attempt + 1, j') }

  /** Whatever the two jitters, the next delay is longer. */
  ghost predicate IncreasesFrom(attempt: int) {
    forall j: nat, j': nat | j < 1000 && j' < 1000 :: Longer(attempt, j, j')
  }

  /** Negative, never rescued by jitter, and followed by an attempt whose product is above the cap. */
  predicate LeavesNegative(attempt: int) { attempt in {35, 39, 43, 45, 51} }

  lemma NoJitter(attempt: int)
    ensures BackoffDelay(attempt, 0) == CappedDelay(attempt)
  {
  }

  /** Between two negative attempts the product has doubled. */
  lemma NegativeDoubles(attempt: nat)
    requires WrapsNegative(attempt) && WrapsNegative(attempt + 1)
    ensures !Longer(attempt, 0, 0)
  {
    NoJitter(attempt);
    NoJitter(attempt + 1);
    NextDoubles(attempt);
    BaseDelayOfEveryAttempt(attempt);
    BaseDelayOfEveryAttempt(attempt + 1);
    assert CappedDelay(attempt + 1) == UncappedDelay(attempt + 1) == Double64(UncappedDelay(attempt));
    hide UncappedDelay, BackoffDelay;
  }

  lemma AlwaysLonger(attempt: int, j: nat, j': nat)
    requires -1 <= attempt <= 4 || LeavesNegative(attempt)
    requires j < 1000 && j' < 1000
    ensures Longer(attempt, j, j')
  {
    if 0 <= attempt <= 4 {
      StrictlyIncreasing(attempt, j, j');
    } else {
      hide BackoffDelay, IdealDelay;
      DelayOfEveryAttempt(attempt, j);
      OnScheduleWithJitter(attempt + 1, j');
      IdealPositive(attempt + 1);
    }
  }

  /** Jitters that make the next delay no longer. */
  lemma NotAlwaysLonger(attempt: int) returns (j: nat, j': nat)
    requires attempt <= -2 || (attempt >= 5 && !LeavesNegative(attempt))
    ensures j < 1000 && j' < 1000 && !Longer(attempt, j, j')
  {
    j, j' := 999, 0;
    hide BackoffDelay, IdealDelay;
    if OnSchedule(attempt) && OnSchedule(attempt + 1) {
      IdealAtCap(attempt);
      IdealAtCap(attempt + 1);
      OnScheduleWithJitter(attempt, 999);
      NoJitter(attempt + 1);
      BaseDelayOfEveryAttempt(attempt + 1);
    } else if WrapsNegative(attempt) && WrapsNegative(attempt + 1) {
      j := 0;
      NegativeDoubles(attempt);
    } else {
      DelayOfEveryAttempt(attempt, 999);
      DelayOfEveryAttempt(attempt + 1, 0);
      if attempt == 48 {
        OnScheduleWithJitter(49, 0);
        IdealAtCap(49);
      } else if OnSchedule(attempt) {
        IdealPositive(attempt);
      }
    }
  }

  /** For every attempt: the next delay is longer whatever the jitters exactly below the cap, where
      the first attempt follows a zero delay, and where a wrapped product leaves the negative
      numbers for the cap. */
  lemma IncreasesIff(attempt: int)
    ensures IncreasesFrom(attempt) <==> -1 <= attempt <= 4 || LeavesNegative(attempt)
  {
    hide Longer;
    if -1 <= attempt <= 4 || LeavesNegative(attempt) {
      forall j: nat, j': nat | j < 1000 && j' < 1000
        ensures Longer(attempt, j, j')
      {
        AlwaysLonger(attempt, j, j');
      }
    } else {
      var j, j' := NotAlwaysLonger(attempt);
    }
  }
}
