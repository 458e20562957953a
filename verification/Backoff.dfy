/** Exponential backoff, over the reals: the delay is base * multiplier^attempt nanoseconds, cut to
    a whole number. */
module Backoff {

  const TWO63: int := 0x8000_0000_0000_0000

  function Pow(m: real, n: nat): real
  {
    if n == 0 then 1.0 else m * Pow(m, n - 1)
  }

  /** Conversion to an integer, towards zero. */
  function Truncate(x: real): int
  {
    if x >= 0.0 then x.Floor else -((-x).Floor)
  }

  /** `backoffDuration`. */
  function Delay(attempt: int, base: int, m: real): int
  {
    if attempt <= 0 then base else Truncate(base as real * Pow(m, attempt))
  }

  /** A duration is a 64-bit integer. */
  predicate IsDuration(d: int)
  {
    -TWO63 <= d < TWO63
  }

  /** A full wait of `delay`. A negative one is over at once; one that does not fit a duration comes
      out as the platform converts it, as any duration. */
  predicate Waits(slept: int, delay: int)
  {
    0 <= slept < TWO63 && (IsDuration(delay) ==> slept == if delay < 0 then 0 else delay)
  }

  /** A wait of `delay` that was cut short. */
  predicate WaitsPart(slept: int, delay: int)
  {
    0 <= slept < TWO63 && (IsDuration(delay) ==> slept <= if delay < 0 then 0 else delay)
  }

  /** The delays of a full sequential run of retries: attempts 0 to max - 1. */
  function TotalSleep(max: nat, base: int, m: real): int
  {
    if max == 0 then 0 else TotalSleep(max - 1, base, m) + Delay(max - 1, base, m)
  }

  lemma MulMonotone(x: real, y: real, z: real)
    requires x <= y && z >= 0.0
    ensures x * z <= y * z && z * x <= z * y
  {
    assert (y - x) * z >= 0.0;
  }

  lemma {:induction false} PowGrows(m: real, n: nat)
    requires m >= 1.0
    ensures Pow(m, n) >= 1.0 && Pow(m, n + 1) >= Pow(m, n)
  {
    if n == 0 {
    } else {
      PowGrows(m, n - 1);
    }
    MulMonotone(1.0, m, Pow(m, n));
  }

  lemma FloorMonotone(x: real, y: real)
    requires x <= y
    ensures x.Floor <= y.Floor
  {
  }

  lemma Untruncated(attempt: nat, base: int, m: real)
    requires base >= 0 && m >= 1.0
    ensures base as real * Pow(m, attempt) >= base as real
    ensures Delay(attempt, base, m) == (base as real * Pow(m, attempt)).Floor
  {
    PowGrows(m, attempt);
    MulMonotone(1.0, Pow(m, attempt), base as real);
  }

  lemma Scaled(b: real, p: real, q: real)
    requires b >= 0.0 && 1.0 <= p <= q
    ensures b <= b * p <= b * q
  {
    MulMonotone(1.0, p, b);
    MulMonotone(p, q, b);
  }

  /** The delay is the exact product, cut towards zero to a whole number; without retries it is the base. */
  lemma DelayExact(attempt: int, base: int, m: real)
    ensures attempt <= 0 ==> Delay(attempt, base, m) == base
    ensures attempt >= 0 ==>
      var x, d := base as real * Pow(m, attempt), Delay(attempt, base, m);
      if x >= 0.0 then d as real <= x < (d + 1) as real else (d - 1) as real < x <= d as real
  {
    if attempt == 0 {
      assert base as real * 1.0 == base as real;
    }
  }

  /** The delay before it is cut to a whole number. */
  function Uncut(attempt: nat, base: int, m: real): real
  {
    base as real * Pow(m, attempt)
  }

  lemma DelayIs(attempt: nat, base: int, m: real, x: real)
    requires base >= 0 && m >= 1.0 && x == Uncut(attempt, base, m)
    ensures base as real <= x && Delay(attempt, base, m) == x.Floor
  {
    Untruncated(attempt, base, m);
  }

  lemma UncutGrows(attempt: nat, base: int, m: real)
    requires base >= 0 && m >= 1.0
    ensures Uncut(attempt, base, m) <= Uncut(attempt + 1, base, m)
  {
    PowGrows(m, attempt);
    Scaled(base as real, Pow(m, attempt), Pow(m, attempt + 1));
  }

  /** The delay is at least the base and grows with the attempt. */
  lemma DelayGrows(attempt: nat, base: int, m: real)
    requires base >= 0 && m >= 1.0
    ensures base <= Delay(attempt, base, m) <= Delay(attempt + 1, base, m)
  {
    var x, y := Uncut(attempt, base, m), Uncut(attempt + 1, base, m);
    UncutGrows(attempt, base, m);
    DelayIs(attempt, base, m, x);
    DelayIs(attempt + 1, base, m, y);
    FloorMonotone(x, y);
    FloorMonotone(base as real, x);
  }

  lemma {:induction false} DelayMonotone(i: int, j: int, base: int, m: real)
    requires base >= 0 && m >= 1.0 && i <= j
    ensures base <= Delay(i, base, m) <= Delay(j, base, m)
    decreases j - i
  {
    if 0 < j && i < j {
      DelayMonotone(i, j - 1, base, m);
      DelayGrows(j - 1, base, m);
    } else if 0 < i {
      DelayGrows(i, base, m);
    }
  }

  /** A delay fits the 64-bit duration if and only if the exact product is below 2^63. */
  lemma DelayFitsIff(attempt: nat, base: int, m: real)
    requires 0 <= base < TWO63 && m >= 1.0
    ensures Delay(attempt, base, m) < TWO63 <==> base as real * Pow(m, attempt) < TWO63 as real
  {
    Untruncated(attempt, base, m);
  }

  /** Every delay of a run fits when the last one does. */
  lemma RunFits(max: nat, attempt: nat, base: int, m: real)
    requires base >= 0 && m >= 1.0 && attempt < max
    requires base as real * Pow(m, max - 1) < TWO63 as real
    ensures 0 <= Delay(attempt, base, m) < TWO63
  {
    DelayMonotone(attempt, max - 1, base, m);
    Untruncated(max - 1, base, m);
  }

  /** The geometric bound on a sum, without dividing. */
  predicate Within(total: real, b: real, p: real, m: real)
  {
    total * (m - 1.0) <= b * (p - 1.0)
  }

  predicate AtMost(d: real, b: real, p: real)
  {
    d <= b * p
  }

  /** One more delay `d` keeps the sum within the geometric bound. */
  lemma SumStep(total: real, d: real, b: real, p: real, m: real)
    requires Within(total, b, p, m) && AtMost(d, b, p) && m >= 1.0
    ensures Within(total + d, b, m * p, m)
  {
    MulMonotone(d, b * p, m - 1.0);
    assert (total + d) * (m - 1.0) == total * (m - 1.0) + d * (m - 1.0);
    Expand(b, p, m);
  }

  lemma Expand(b: real, p: real, m: real)
    ensures b * (p - 1.0) + b * p * (m - 1.0) == b * (m * p - 1.0)
  {
    assert b * p * (m - 1.0) == b * p * m - b * p;
    assert b * (p - 1.0) == b * p - b;
    assert b * p * m == b * (m * p);
  }

  lemma DelayAtMost(attempt: nat, base: int, m: real)
    requires base >= 0 && m >= 1.0
    ensures AtMost(Delay(attempt, base, m) as real, base as real, Pow(m, attempt))
  {
    Untruncated(attempt, base, m);
  }

  lemma SleepStep(total: int, k: nat, base: int, m: real, p: real)
    requires base >= 0 && m >= 1.0 && p == Pow(m, k) && Within(total as real, base as real, p, m)
    ensures Within((total + Delay(k, base, m)) as real, base as real, m * p, m)
  {
    var d := Delay(k, base, m);
    DelayAtMost(k, base, m);
    SumStep(total as real, d as real, base as real, p, m);
    assert (total + d) as real == total as real + d as real;
  }

  lemma {:induction false} SleepTimesGap(max: nat, base: int, m: real)
    requires base >= 0 && m >= 1.0
    ensures Within(TotalSleep(max, base, m) as real, base as real, Pow(m, max), m)
  {
    if max == 0 {
      assert Pow(m, 0) - 1.0 == 0.0 && TotalSleep(0, base, m) as real == 0.0;
    } else {
      var total, p := TotalSleep(max - 1, base, m), Pow(m, max - 1);
      SleepTimesGap(max - 1, base, m);
      SleepStep(total, max - 1, base, m, p);
      SameBound((total + Delay(max - 1, base, m)) as real, TotalSleep(max, base, m) as real, base as real, m * p,
                Pow(m, max), m);
    }
  }

  lemma SameBound(t: real, t': real, b: real, p: real, p': real, m: real)
    requires Within(t, b, p, m) && t == t' && p == p'
    ensures Within(t', b, p', m)
  {
  }

  lemma {:induction false} PowOne(n: nat)
    ensures Pow(1.0, n) == 1.0
  {
    if n == 0 {
    } else {
      PowOne(n - 1);
    }
  }

  lemma {:induction false} ConstantSleep(max: nat, base: int)
    requires base >= 0
    ensures TotalSleep(max, base, 1.0) == max * base
  {
    if max == 0 {
    } else {
      ConstantSleep(max - 1, base);
      PowOne(max - 1);
      Untruncated(max - 1, base, 1.0);
      assert base as real * 1.0 == base as real;
    }
  }

  /** The total sleep of a full sequential run is at most base * (m^max - 1) / (m - 1), and exactly
      max * base when the multiplier is one. */
  lemma SleepBound(max: nat, base: int, m: real)
    requires base >= 0 && m >= 1.0
    ensures m > 1.0 ==> TotalSleep(max, base, m) as real <= base as real * (Pow(m, max) - 1.0) / (m - 1.0)
    ensures m == 1.0 ==> TotalSleep(max, base, m) == max * base
  {
    if m > 1.0 {
      SleepTimesGap(max, base, m);
      DivideBound(TotalSleep(max, base, m) as real, base as real * (Pow(m, max) - 1.0), m - 1.0);
    } else {
      ConstantSleep(max, base);
    }
  }

  lemma MulStrict(x: real, y: real, z: real)
    requires x > y && z > 0.0
    ensures x * z > y * z
  {
    assert (x - y) * z > 0.0;
  }

  lemma DivideBound(x: real, y: real, z: real)
    requires z > 0.0 && x * z <= y
    ensures x <= y / z
  {
    var q := y / z;
    assert q * z == y;
    if x > q {
      MulStrict(x, q, z);
    }
  }

  /** At attempt `k` the delay is at least the base and does not exceed the next one. */
  predicate GrowsAt(k: nat, base: int, m: real)
  {
    base <= Delay(k, base, m) <= Delay(k + 1, base, m)
  }

  lemma PowerStep(p: real, k: real, d: real)
    requires p >= 1.0 && d >= 0.0 && p >= 1.0 + k * d
    ensures (1.0 + d) * p >= 1.0 + (k + 1.0) * d
  {
    MulMonotone(1.0, p, d);
    assert (1.0 + d) * p == p + p * d;
    assert (k + 1.0) * d == k * d + d;
  }

  lemma {:induction false} PowAtLeast(m: real, n: nat)
    requires m >= 1.0
    ensures Pow(m, n) >= 1.0 + n as real * (m - 1.0)
  {
    if n > 0 {
      PowAtLeast(m, n - 1);
      PowGrows(m, n - 1);
      PowerStep(Pow(m, n - 1), (n - 1) as real, m - 1.0);
      assert (n - 1) as real + 1.0 == n as real;
    } else {
      assert n as real == 0.0;
    }
  }

  /** Some power of a multiplier above one is at least two. */
  lemma PowDoubles(m: real) returns (n: nat)
    requires m > 1.0
    ensures n > 0 && Pow(m, n) >= 2.0
  {
    var q := 1.0 / (m - 1.0);
    assert q * (m - 1.0) == 1.0 && q >= 0.0;
    n := q.Floor + 1;
    MulMonotone(q, n as real, m - 1.0);
    PowAtLeast(m, n);
  }

  /** A negative delay is below its base once the power has doubled. */
  lemma NegativeShrinks(base: int, m: real, n: nat)
    requires base < 0 && n > 0 && Pow(m, n) >= 2.0
    ensures Delay(n, base, m) < base
  {
    var x := base as real * Pow(m, n);
    MulMonotone(2.0, Pow(m, n), (-base) as real);
    assert -x == (-base) as real * Pow(m, n) >= (-2 * base) as real;
    FloorMonotone((-2 * base) as real, -x);
  }

  /** The configuration checks the multiplier but not the base. With a multiplier of at least one,
      every delay is at least the base and no less than the one before if and only if the base is
      not negative or the multiplier is one. */
  lemma DelaysGrowIff(base: int, m: real)
    requires m >= 1.0
    ensures (forall k: nat :: GrowsAt(k, base, m)) <==> base >= 0 || m == 1.0
  {
    if base >= 0 {
      forall k: nat ensures GrowsAt(k, base, m) {
        DelayGrows(k, base, m);
      }
    } else if m == 1.0 {
      forall k: nat ensures GrowsAt(k, base, m) {
        PowOne(k);
        PowOne(k + 1);
        assert base as real * 1.0 == base as real;
      }
    } else {
      var n := PowDoubles(m);
      NegativeShrinks(base, m, n);
      assert !GrowsAt(n, base, m);
    }
  }
}
