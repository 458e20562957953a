/** The few facts about quotients and remainders that the round-robin counter needs. */
module Division {
  import opened Base

  lemma Distribute(a: int, b: int, n: int)
    ensures (a - b) * n == a * n - b * n
  {
  }

  lemma OneMore(k: nat, n: nat)
    ensures (k + 1) * n == k * n + n && k * n >= 0
  {
  }

  lemma TimesMonotone(j: nat, k: nat, n: nat)
    requires j <= k
    ensures j * n <= k * n
  {
    Distribute(k, j, n);
  }

  lemma AtLeast(d: int, n: int)
    requires d >= 1 && n > 0
    ensures d * n >= n
  {
    Distribute(d, 1, n);
    assert (d - 1) * n >= 0;
  }

  /** Quotient and remainder are unique. */
  lemma Unique(n: int, q: int, r: int, q': int, r': int)
    requires 0 <= r < n && 0 <= r' < n && q * n + r == q' * n + r'
    ensures q == q' && r == r'
  {
    Distribute(q, q', n);
    Distribute(q', q, n);
    if q > q' {
      AtLeast(q - q', n);
    } else if q < q' {
      AtLeast(q' - q, n);
    }
  }

  lemma QuotientIs(x: int, n: int, q: int, r: int)
    requires n > 0 && 0 <= r < n && x == q * n + r
    ensures x / n == q && x % n == r
  {
    Unique(n, q, r, x / n, x % n);
  }

  lemma SameRemainder(x: int, y: int, n: int)
    requires n > 0 && x < y && x % n == y % n
    ensures y - x >= n
  {
    var q, p := x / n, y / n;
    Distribute(p, q, n);
    assert y - x == (p - q) * n;
    if p > q {
      AtLeast(p - q, n);
    } else {
    }
  }

  lemma Step(x: int, n: int)
    requires n > 0
    ensures (x + 1) / n == x / n + Bit((x + 1) % n == 0)
  {
    var q, r := x / n, x % n;
    if r + 1 < n {
      QuotientIs(x + 1, n, q, r + 1);
    } else {
      Distribute(q + 1, 1, n);
      QuotientIs(x + 1, n, q + 1, 0);
    }
  }

  lemma Shift(x: int, n: int, e: int)
    requires n > 0 && 0 <= e < n
    ensures x % n == e <==> (x - e) % n == 0
  {
    if x % n == e {
      QuotientIs(x - e, n, x / n, 0);
    }
    if (x - e) % n == 0 {
      QuotientIs(x, n, (x - e) / n, e);
    }
  }

  lemma CongruentIff(x: int, y: int, n: int)
    requires n > 0
    ensures x % n == y % n <==> (y - x) % n == 0
  {
    if x % n == y % n {
      Distribute(y / n, x / n, n);
      QuotientIs(y - x, n, y / n - x / n, 0);
    }
    if (y - x) % n == 0 {
      var d := (y - x) / n;
      assert (x / n + d) * n == x / n * n + d * n;
      QuotientIs(y, n, x / n + d, x % n);
    }
  }

  lemma Difference(x: int, k: nat, n: nat)
    requires n > 0
    ensures k / n <= (x + k) / n - x / n <= k / n + Bit(k % n != 0)
  {
    var q, r, p, t := x / n, x % n, k / n, k % n;
    Distribute(q + p, p, n);
    assert x + k == (q + p) * n + (r + t);
    if r + t < n {
      QuotientIs(x + k, n, q + p, r + t);
    } else {
      Distribute(q + p + 1, 1, n);
      QuotientIs(x + k, n, q + p + 1, r + t - n);
    }
  }
}
