/**
  The arithmetic of the demo driver's interval timer: the period register for an
  interval, its two 16-bit halves, and the interval computed back from it.
 */
module IntervalTimer {
  // ---------- periods and intervals ----------

  type Word = x: nat | x < 0x1_0000_0000

  /** The 32-bit period for an interval, in interrupts a second; 0 means stopped. */
  function NewPeriod(rate: Word, n: nat): Word {
    if n == 0 then rate else (rate / n - 1) % 0x1_0000_0000
  }

  function Low(p: Word): (h: nat) ensures h < 0x1_0000 { p % 0x1_0000 }
  function High(p: Word): (h: nat) ensures h < 0x1_0000 { p / 0x1_0000 }
  function Join(lo: nat, hi: nat): nat { lo + hi * 0x1_0000 }

  lemma JoinHalves(p: Word)
    ensures Join(Low(p), High(p)) == p
  {}

  datatype Reading = Interval(n: nat) | DividedByZero

  /** The interval computed from the period registers of a running timer. */
  function ReadInterval(rate: Word, period: nat): Reading {
    var divisor := (period + 1) % 0x1_0000_0000;
    if divisor == 0 then DividedByZero else Interval(rate / divisor)
  }

  lemma QuotientOfQuotient(rate: nat, n: nat)
    requires 0 < n <= rate
    ensures rate / n > 0
    ensures rate / (rate / n) == n + (rate % n) / (rate / n)
  {
    var q, r := rate / n, rate % n;
    assert rate == q * n + r;
    var k, m := r / q, r % q;
    assert r == q * k + m && 0 <= m < q;
    assert q * n + q * k == q * (n + k);
    Quotient(rate, q, n + k, m);
  }

  lemma Quotient(x: nat, q: nat, k: nat, m: nat)
    requires x == q * k + m && m < q
    ensures x / q == k
  {
    var d := x / q;
    assert x == q * d + x % q;
    if d < k { assert q * (d + 1) <= q * k by { Monotone(q, d + 1, k); } }
    if d > k { assert q * (k + 1) <= q * d by { Monotone(q, k + 1, d); } }
  }

  lemma Monotone(q: nat, a: nat, b: nat)
    requires a <= b
    ensures q * a <= q * b
  {}

  lemma PeriodPlusOne(rate: Word, n: nat)
    requires n > 0
    ensures (NewPeriod(rate, n) + 1) % 0x1_0000_0000 == rate / n
  {
    AtMost(rate, n);
  }

  /** An interval reads back as itself exactly when the remainder of the clock rate
      is below its quotient. */
  lemma ReadBack(rate: Word, n: nat)
    requires n > 0
    ensures ReadInterval(rate, NewPeriod(rate, n)) == Interval(n) <==> rate % n < rate / n
    ensures ReadInterval(rate, NewPeriod(rate, n)) == DividedByZero <==> rate < n
  {
    hide NewPeriod;
    PeriodPlusOne(rate, n);
    if rate < n {
      Quotient(rate, n, 0, rate);
    } else {
      QuotientOfQuotient(rate, n);
      if rate % n < rate / n {
        Quotient(rate % n, rate / n, 0, rate % n);
      } else {
        PositiveQuotient(rate % n, rate / n);
      }
    }
  }

  lemma AtMost(x: nat, n: nat)
    requires n > 0
    ensures x / n <= x
  {
    var d := x / n;
    assert x == n * d + x % n;
    Monotone(d, 1, n);
  }

  lemma PositiveQuotient(x: nat, q: nat)
    requires 0 < q <= x
    ensures x / q > 0
  {
    assert x == q * (x / q) + x % q;
  }

  lemma QuotientAtLeast(x: nat, n: nat)
    requires n > 0 && x >= n * n
    ensures x / n >= n
  {
    var d := x / n;
    assert x == n * d + x % n;
    if d < n {
      Monotone(n, d + 1, n);
      assert false;
    }
  }

  /** Every rate of at least n*n reads n back. */
  lemma ReadBackFromSquare(rate: Word, n: nat)
    requires n > 0 && rate >= n * n
    ensures ReadInterval(rate, NewPeriod(rate, n)) == Interval(n)
  {
    ReadBack(rate, n);
    QuotientAtLeast(rate, n);
  }

  /** The bound is sharp: one less reads the next interval. */
  lemma BelowSquareReadsNext(rate: Word, n: nat)
    requires n >= 2 && rate == n * n - 1
    ensures ReadInterval(rate, NewPeriod(rate, n)) == Interval(n + 1)
  {
    hide NewPeriod;
    SquareMinusOne(n);
    Quotient(rate, n, n - 1, n - 1);
    Quotient(rate, n - 1, n + 1, 0);
    PeriodPlusOne(rate, n);
  }

  lemma SquareMinusOne(n: nat)
    requires n > 0
    ensures n * n - 1 == n * (n - 1) + (n - 1) && n * n - 1 == (n - 1) * (n + 1) + 0
  {}
}
