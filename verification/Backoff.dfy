/**
  Retrying a query with exponential backoff: how often it is made, how long the
  sleeps between are, and for which caps the computed durations fit 64 bits.
  Durations are in nanoseconds; 1.5 to the power n is taken as an exact fraction,
  rounded down. What a conversion of a too large number yields is a parameter.
 */
module Backoff {
  import opened Decimal

  const SECOND: nat := 1_000_000_000

  function Pow(b: nat, n: nat): nat {
    if n == 0 then 1 else b * Pow(b, n - 1)
  }

  lemma {:induction false} PowPositive(b: nat, n: nat)
    requires b > 0
    ensures Pow(b, n) > 0
  {
    if n > 0 {
      PowPositive(b, n - 1);
    }
  }

  /** One second times 1.5 to the power n. */
  function Raw(n: nat): nat {
    PowPositive(2, n);
    Pow(3, n) * SECOND / Pow(2, n)
  }

  lemma QuotientBounds(x: nat, y: nat)
    requires y > 0
    ensures x / y * y <= x < (x / y + 1) * y
  {
    assert x == x / y * y + x % y;
  }

  lemma QuotientAtLeast(x: nat, y: nat, q: nat)
    requires y > 0 && q * y <= x
    ensures q <= x / y
  {
    QuotientBounds(x, y);
    if q > x / y {
      TimesMonotone(x / y + 1, q, y);
    }
  }

  lemma TimesMonotone(a: nat, b: nat, y: nat)
    requires a <= b
    ensures a * y <= b * y
  {
  }

  /** The durations grow, each at most by half of the one before rounded up. */
  lemma RawGrows(n: nat)
    ensures Raw(n) <= Raw(n + 1)
    ensures 2 * Raw(n + 1) < 3 * (Raw(n) + 1)
  {
    PowPositive(2, n);
    PowPositive(2, n + 1);
    var x, y, r := Pow(3, n) * SECOND, Pow(2, n), Raw(n);
    assert Pow(3, n + 1) * SECOND == 3 * x && Pow(2, n + 1) == 2 * y;
    QuotientBounds(x, y);
    assert r * (2 * y) == 2 * (r * y);
    QuotientAtLeast(3 * x, 2 * y, r);
    NextBelow(x, y, r);
  }

  lemma CancelLess(a: nat, b: nat, y: nat)
    requires a * y < b * y
    ensures a < b
  {
    if b <= a {
      TimesMonotone(b, a, y);
    }
  }

  lemma NextBelow(x: nat, y: nat, r: nat)
    requires y > 0 && x < (r + 1) * y
    ensures 2 * (3 * x / (2 * y)) < 3 * (r + 1)
  {
    var q := 3 * x / (2 * y);
    QuotientBounds(3 * x, 2 * y);
    assert q * (2 * y) == 2 * q * y;
    assert 3 * (r + 1) * y == 3 * ((r + 1) * y);
    CancelLess(2 * q, 3 * (r + 1), y);
  }

  lemma {:induction false} RawMonotone(m: nat, n: nat)
    requires m <= n
    ensures Raw(m) <= Raw(n)
  {
    if m < n {
      RawMonotone(m, n - 1);
      RawGrows(n - 1);
    }
  }

  lemma {:induction false} PowAdd(b: nat, m: nat, n: nat)
    ensures Pow(b, m + n) == Pow(b, m) * Pow(b, n)
  {
    if m > 0 {
      PowAdd(b, m - 1, n);
      assert b * (Pow(b, m - 1) * Pow(b, n)) == b * Pow(b, m - 1) * Pow(b, n);
    }
  }

  lemma PowDouble(b: nat, n: nat)
    ensures Pow(b, 2 * n) == Pow(b, n) * Pow(b, n)
  {
    PowAdd(b, n, n);
  }

  /** The last duration that fits 64 bits is that of attempt 56. */
  const LAST_FITTING: nat := 56
  const LONGEST: nat := 7262907400875658575

  lemma PowersOfThree()
    ensures Pow(3, 56) == 523347633027360537213511521
    ensures Pow(3, 57) == 3 * 523347633027360537213511521
  {
    assert Pow(3, 7) == 2187;
    PowDouble(3, 7);
    PowDouble(3, 14);
    PowDouble(3, 28);
  }

  lemma PowersOfTwo()
    ensures Pow(2, 56) == 72057594037927936
    ensures Pow(2, 57) == 2 * 72057594037927936
  {
    assert Pow(2, 7) == 128;
    PowDouble(2, 7);
    PowDouble(2, 14);
    PowDouble(2, 28);
  }

  lemma Fits()
    ensures Raw(LAST_FITTING) == LONGEST <= MAX_INT64 < Raw(LAST_FITTING + 1)
  {
    PowersOfThree();
    PowersOfTwo();
  }

  // ---------------------------------------------------------------- computed durations

  /** What converting a number outside of 64 bits gives. */
  type Conversion = nat -> int

  /** The duration computed for each number of attempts. */
  type Durations = nat -> int

  function Computed(junk: Conversion): Durations {
    (n: nat) => if Raw(n) <= MAX_INT64 then Raw(n) else junk(n)
  }

  datatype Wait = Wait(duration: int, maxReached: bool)

  function GetBackoffDurationForAttempts(attempts: nat, cap: nat, durations: Durations): (w: Wait)
    ensures 0 <= w.duration <= cap
    ensures w.maxReached <==> durations(attempts) < 0 || durations(attempts) > cap
    ensures w.duration == if w.maxReached then cap else durations(attempts)
  {
    var d := durations(attempts);
    if d > cap || d < 0 then Wait(cap, true) else Wait(d, false)
  }

  /** The wait before retry i: recomputed until the cap was reached once. */
  function WaitAt(i: nat, cap: nat, durations: Durations): (w: Wait)
    ensures 0 <= w.duration <= cap
    ensures w.maxReached ==> w.duration == cap
  {
    if i == 0 then GetBackoffDurationForAttempts(0, cap, durations)
    else
      var before := WaitAt(i - 1, cap, durations);
      if before.maxReached then before else GetBackoffDurationForAttempts(i, cap, durations)
  }

  /** The first n waits. */
  function Waits(n: nat, cap: nat, durations: Durations): (waits: seq<int>)
    ensures |waits| == n && forall i | 0 <= i < n :: waits[i] == WaitAt(i, cap, durations).duration
  {
    if n == 0 then [] else Waits(n - 1, cap, durations) + [WaitAt(n - 1, cap, durations).duration]
  }

  function Min(a: int, b: int): int {
    if a < b then a else b
  }

  /** Once reached, the cap is kept, for every cap. */
  lemma {:induction false} CapIsKept(i: nat, j: nat, cap: nat, durations: Durations)
    requires i <= j && WaitAt(i, cap, durations).maxReached
    ensures WaitAt(j, cap, durations) == Wait(cap, true)
  {
    if i < j {
      CapIsKept(i, j - 1, cap, durations);
    }
  }

  /** Below the last fitting duration, a cap makes every wait the lesser of the exact duration and the cap. */
  lemma {:induction false} WaitIsExact(i: nat, cap: nat, junk: Conversion)
    requires cap < LONGEST
    ensures WaitAt(i, cap, Computed(junk)) == Wait(Min(Raw(i), cap), Raw(i) > cap)
  {
    Fits();
    if i == 0 {
      RawMonotone(0, LAST_FITTING);
    } else {
      WaitIsExact(i - 1, cap, junk);
      RawGrows(i - 1);
      if Raw(i - 1) <= cap {
        if i > LAST_FITTING {
          RawMonotone(LAST_FITTING, i - 1);
        } else {
          RawMonotone(i, LAST_FITTING);
        }
      }
    }
  }

  predicate NeverShorter(cap: nat, junk: Conversion, i: nat) {
    WaitAt(i, cap, Computed(junk)).duration <= WaitAt(i + 1, cap, Computed(junk)).duration
  }

  /** A conversion that gives the same number for everything out of range, as processors do. */
  function Always(j: int): Conversion {
    (n: nat) => j
  }

  lemma {:induction false} LargeCap(i: nat, cap: nat, junk: Conversion)
    requires cap >= LONGEST && i <= LAST_FITTING
    ensures WaitAt(i, cap, Computed(junk)) == Wait(Raw(i), false)
  {
    Fits();
    RawMonotone(i, LAST_FITTING);
    if i > 0 {
      LargeCap(i - 1, cap, junk);
    }
  }

  lemma PastFitting(i: nat)
    requires i > LAST_FITTING
    ensures Raw(i) > MAX_INT64
  {
    Fits();
    RawMonotone(LAST_FITTING + 1, i);
  }

  /** Past the last fitting duration a large cap leaves every wait at what the conversion gives. */
  lemma {:induction false} LargeCapPast(i: nat, cap: nat, j: int)
    requires cap >= LONGEST && i > LAST_FITTING
    ensures WaitAt(i, cap, Computed(Always(j))) == if j < 0 || j > cap then Wait(cap, true) else Wait(j, false)
  {
    PastFitting(i);
    if i == LAST_FITTING + 1 {
      LargeCap(LAST_FITTING, cap, Always(j));
    } else {
      LargeCapPast(i - 1, cap, j);
    }
  }

  lemma SafeCap(cap: nat, junk: Conversion, i: nat)
    requires cap < LONGEST
    ensures NeverShorter(cap, junk, i)
  {
    WaitIsExact(i, cap, junk);
    WaitIsExact(i + 1, cap, junk);
    RawGrows(i);
  }

  lemma LargeCapGrows(cap: nat, j: int, i: nat)
    requires cap >= LONGEST && (j < 0 || j >= LONGEST)
    ensures NeverShorter(cap, Always(j), i)
  {
    Fits();
    if i < LAST_FITTING {
      LargeCap(i, cap, Always(j));
      LargeCap(i + 1, cap, Always(j));
      RawGrows(i);
    } else {
      if i == LAST_FITTING {
        LargeCap(i, cap, Always(j));
      } else {
        LargeCapPast(i, cap, j);
      }
      LargeCapPast(i + 1, cap, j);
    }
  }

  /**
    Exactly when the waits never get shorter: the cap is below the last duration
    that fits, or a conversion out of range gives something negative or at least that long.
   */
  lemma NeverShorterIff(cap: nat, j: int)
    ensures (forall i: nat :: NeverShorter(cap, Always(j), i)) <==> cap < LONGEST || j < 0 || j >= LONGEST
  {
    if cap < LONGEST || j < 0 || j >= LONGEST {
      forall i: nat ensures NeverShorter(cap, Always(j), i) {
        if cap < LONGEST {
          SafeCap(cap, Always(j), i);
        } else {
          LargeCapGrows(cap, j, i);
        }
      }
    } else {
      Fits();
      LargeCap(LAST_FITTING, cap, Always(j));
      LargeCapPast(LAST_FITTING + 1, cap, j);
      assert !NeverShorter(cap, Always(j), LAST_FITTING);
    }
  }

  predicate IsMin(cap: nat, j: int, i: nat) {
    WaitAt(i, cap, Computed(Always(j))).duration == Min(Raw(i), cap)
  }

  lemma LargeCapIsMin(cap: nat, j: int, i: nat)
    requires LONGEST <= cap <= MAX_INT64 && (j < 0 || j >= cap)
    ensures IsMin(cap, j, i)
  {
    Fits();
    if i <= LAST_FITTING {
      LargeCap(i, cap, Always(j));
      RawMonotone(i, LAST_FITTING);
    } else {
      LargeCapPast(i, cap, j);
      PastFitting(i);
    }
  }

  /**
    Exactly when every wait is the lesser of the exact duration and the cap: the
    cap is below the last duration that fits, or a conversion out of range gives
    something negative or not below the cap.
   */
  lemma WaitIsMinIff(cap: nat, j: int)
    requires cap <= MAX_INT64
    ensures (forall i: nat :: IsMin(cap, j, i)) <==> cap < LONGEST || j < 0 || j >= cap
  {
    if cap < LONGEST || j < 0 || j >= cap {
      forall i: nat ensures IsMin(cap, j, i) {
        if cap < LONGEST {
          WaitIsExact(i, cap, Always(j));
        } else {
          LargeCapIsMin(cap, j, i);
        }
      }
    } else {
      Fits();
      LargeCapPast(LAST_FITTING + 1, cap, j);
      assert !IsMin(cap, j, LAST_FITTING + 1);
    }
  }

  /**
    A conversion to the least 64-bit number, or one that saturates, is safe for
    every cap there is: waits are exact and never get shorter.
   */
  lemma ProcessorsAreSafe(cap: nat, j: int, i: nat)
    requires cap <= MAX_INT64 && (j == -MAX_INT64 - 1 || j == MAX_INT64)
    ensures IsMin(cap, j, i) && NeverShorter(cap, Always(j), i)
  {
    Fits();
    WaitIsMinIff(cap, j);
    NeverShorterIff(cap, j);
  }

  /** The guard keeps what is computed below 1.5 times the cap and a nanosecond, or at the first duration. */
  lemma ComputedBounded(i: nat, cap: nat, junk: Conversion)
    requires i > 0 && !WaitAt(i - 1, cap, Computed(junk)).maxReached && cap < LONGEST
    ensures 2 * Raw(i) < 3 * (cap + 1) && Raw(i) <= MAX_INT64
  {
    WaitIsExact(i - 1, cap, junk);
    RawGrows(i - 1);
    Fits();
    if i > LAST_FITTING {
      RawMonotone(LAST_FITTING, i - 1);
    } else {
      RawMonotone(i, LAST_FITTING);
    }
  }

  /** Caps of up to two thirds of the 64-bit range are among the safe ones. */
  lemma TwoThirdsIsSafe(cap: nat)
    requires 3 * (cap + 1) <= 2 * (MAX_INT64 + 1)
    ensures cap < LONGEST
  {
    RawGrows(LAST_FITTING);
    Fits();
  }

  // ---------------------------------------------------------------------- the retry loop

  /** Two's complement of 64 bits. */
  function Wrap(x: int): (w: int)
    ensures -MAX_INT64 - 1 <= w <= MAX_INT64
    ensures (w - x) % (2 * (MAX_INT64 + 1)) == 0
  {
    (x + MAX_INT64 + 1) % (2 * (MAX_INT64 + 1)) - MAX_INT64 - 1
  }

  /** The configured maximum wait, at least 2 seconds; a product that wraps below zero stands for 30. */
  function Cap(maxWaitSeconds: nat): nat {
    var product := Wrap((if maxWaitSeconds < 2 then 2 else maxWaitSeconds) * SECOND);
    if product < 0 then 30 * SECOND else product
  }

  /** For waits of up to about 292 years the cap is what is configured, and 2 seconds at least. */
  lemma CapIs(maxWaitSeconds: nat)
    ensures maxWaitSeconds <= 9_223_372_036 ==>
              Cap(maxWaitSeconds) == 1_000_000_000 * if maxWaitSeconds < 2 then 2 else maxWaitSeconds
    ensures maxWaitSeconds == 9_223_372_037 ==> Cap(maxWaitSeconds) == 30_000_000_000
  {
  }

  /** With a cap of 30 seconds the first waits are 1, 1.5 and 2.25 seconds, and from the tenth on they are 30. */
  lemma FirstWaits(junk: Conversion)
    ensures Waits(3, 30_000_000_000, Computed(junk)) == [1_000_000_000, 1_500_000_000, 2_250_000_000]
    ensures WaitAt(9, 30_000_000_000, Computed(junk)).duration == 30_000_000_000
  {
    var cap, durations := 30_000_000_000, Computed(junk);
    assert Raw(0) == 1_000_000_000 && Raw(1) == 1_500_000_000 && Raw(2) == 2_250_000_000;
    assert WaitAt(0, cap, durations).duration == 1_000_000_000;
    assert WaitAt(1, cap, durations).duration == 1_500_000_000;
    assert WaitAt(2, cap, durations).duration == 2_250_000_000;
    assert Pow(3, 9) == 19683 && Pow(2, 9) == 512;
    WaitIsExact(9, cap, junk);
  }

  predicate FirstSuccess(answers: nat -> bool, n: nat) {
    answers(n) && forall i | 0 <= i < n :: !answers(i)
  }

  /** How many calls are made, and the result of the last. */
  predicate Called(answers: nat -> bool, limit: int, ok: bool, calls: nat) {
    && calls >= 1 && ok == answers(calls - 1) && (!ok ==> calls == limit + 1)
    && (limit >= 0 ==> calls <= limit + 1)
    && forall i | 0 <= i < calls - 1 :: !answers(i)
  }

  /** The number of calls is that of the first success, or one more than the limit if that comes first. */
  lemma CallsAreMin(answers: nat -> bool, limit: int, ok: bool, calls: nat, first: nat)
    requires Called(answers, limit, ok, calls) && FirstSuccess(answers, first)
    ensures calls == if limit < 0 then first + 1 else Min(first + 1, limit + 1)
    ensures ok <==> limit < 0 || first <= limit
  {
  }

  lemma {:induction false} FirstOrNone(answers: nat -> bool, n: nat) returns (first: nat)
    ensures first <= n && (first == n || FirstSuccess(answers, first)) && forall i | 0 <= i < first :: !answers(i)
  {
    if n == 0 {
      first := 0;
    } else {
      first := FirstOrNone(answers, n - 1);
      if first == n - 1 && !answers(n - 1) {
        first := n;
      }
    }
  }

  /** Exactly when the calls come to an end: there is a limit, or some call succeeds. */
  lemma CallsEndIff(answers: nat -> bool, limit: int)
    ensures (exists ok, calls :: Called(answers, limit, ok, calls)) <==> limit >= 0 || exists n: nat :: answers(n)
  {
    if limit >= 0 {
      var first := FirstOrNone(answers, limit + 1);
      var calls := if first <= limit then first + 1 else limit + 1;
      assert Called(answers, limit, answers(calls - 1), calls);
    } else if n: nat :| answers(n) {
      var first := FirstOrNone(answers, n);
      assert Called(answers, limit, true, first + 1);
    }
  }

  /**
    A limit of 0 means a single call; a negative one means calls until one
    succeeds, the n-th of which does. calls counts them, sleeps lists the waits.
   */
  method GetBlockResultWithRetry(answers: nat -> bool, limit: int, maxWaitSeconds: nat, durations: Durations,
                                 ghost n: nat)
      returns (ok: bool, calls: nat, sleeps: seq<int>)
    requires limit < 0 ==> answers(n)
    ensures Called(answers, limit, ok, calls)
    ensures sleeps == Waits(calls - 1, Cap(maxWaitSeconds), durations)
  {
    if limit == 0 {
      return answers(0), 1, [];
    }
    var cap := Cap(maxWaitSeconds);
    sleeps := [];
    calls := 0;
    var wait := GetBackoffDurationForAttempts(calls, cap, durations);
    while true
      invariant sleeps == Waits(calls, cap, durations) && wait == WaitAt(calls, cap, durations)
      invariant forall i | 0 <= i < calls :: !answers(i)
      invariant limit >= 0 ==> calls <= limit
      invariant limit < 0 ==> calls <= n
      decreases if limit < 0 then n - calls else limit - calls
    {
      ok := answers(calls);
      calls := calls + 1;
      if !ok && (limit < 0 || calls <= limit) {
        sleeps := sleeps + [wait.duration];
        if !wait.maxReached {
          wait := GetBackoffDurationForAttempts(calls, cap, durations);
        }
      } else {
        return;
      }
    }
  }
}
