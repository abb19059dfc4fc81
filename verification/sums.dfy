/**
 The bounded sum every compute component speaks of: the sum over i < n of (i mod 1000)^2. The
 worker accumulates it, the hosts use a closed form, the application adds whole periods; all of them
 agree for every n a 64-bit counter holds.
 */
module Sums {
  import opened Machine

  const MAXIMUM_ITERATIONS: nat := 100_000_000

  function Term(i: nat): nat {
    (i % 1000) * (i % 1000)
  }

  /** The definition: one term after another. */
  function SumTo(n: nat): nat {
    if n == 0 then 0 else SumTo(n - 1) + Term(n - 1)
  }

  /** What is left of a number in a `std::uint64_t`. */
  function Wrap(n: nat): U64 {
    n % 0x1_0000_0000_0000_0000
  }

  /** (r - 1) r (2r - 1), six times the sum of the first r squares. */
  function Cubic(r: nat): nat {
    if r == 0 then 0 else (r - 1) * r * (2 * r - 1)
  }

  /** The closed form of the hosts, in their wrapping arithmetic. */
  function ExpectedSum(n: U64): U64 {
    Wrap(Wrap(n / 1000 * 332833500) + Cubic(n % 1000) / 6)
  }

  /** The first r squares, added up. */
  function SquareSum(r: nat): nat {
    if r == 0 then 0 else SquareSum(r - 1) + (r - 1) * (r - 1)
  }

  lemma CubicStep(k: nat)
    ensures Cubic(k + 1) == Cubic(k) + 6 * (k * k)
  {
    if k > 0 {
      var kk := k * k;
      assert (k - 1) * k == kk - k;
      assert k * (k + 1) == kk + k;
      assert (kk - k) * (2 * k - 1) == 2 * (kk * k) - 3 * kk + k by { Expand(kk, k, -1); }
      assert (kk + k) * (2 * k + 1) == 2 * (kk * k) + 3 * kk + k by { Expand(kk, k, 1); }
    }
  }

  lemma Expand(kk: int, k: int, s: int)
    requires kk == k * k && (s == 1 || s == -1)
    ensures (kk + s * k) * (2 * k + s) == 2 * (kk * k) + 3 * s * kk + k
  {
  }

  lemma {:induction false} SquareSumIsCubic(r: nat)
    ensures 6 * SquareSum(r) == Cubic(r)
  {
    if r == 0 {
    } else {
      SquareSumIsCubic(r - 1);
      CubicStep(r - 1);
    }
  }

  lemma PeriodSum()
    ensures SquareSum(1000) == 332833500
  {
    hide SquareSum;
    SquareSumIsCubic(1000);
  }

  lemma TermWithinPeriod(q: nat, r: nat)
    requires r < 1000
    ensures Term(1000 * q + r) == r * r
  {
  }

  lemma {:induction false} SumWithinPeriod(q: nat, r: nat)
    requires r <= 1000
    ensures SumTo(1000 * q + r) == SumTo(1000 * q) + SquareSum(r)
  {
    hide Term;
    if r == 0 {
    } else {
      SumWithinPeriod(q, r - 1);
      TermWithinPeriod(q, r - 1);
    }
  }

  lemma {:induction false} SumOfPeriods(q: nat)
    ensures SumTo(1000 * q) == 332833500 * q
  {
    if q == 0 {
    } else {
      SumOfPeriods(q - 1);
      AddPeriod(q - 1);
    }
  }

  lemma AddPeriod(q: nat)
    ensures SumTo(1000 * (q + 1)) == SumTo(1000 * q) + 332833500
  {
    hide SumTo, SquareSum;
    SumWithinPeriod(q, 1000);
    PeriodSum();
  }

  lemma SumSplits(n: nat)
    ensures SumTo(n) == n / 1000 * 332833500 + SquareSum(n % 1000)
  {
    hide SumTo, SquareSum;
    SumWithinPeriod(n / 1000, n % 1000);
    SumOfPeriods(n / 1000);
  }

  lemma WrapAbsorbs(a: nat, b: nat)
    ensures Wrap(Wrap(a) + b) == Wrap(a + b)
  {
  }

  /** For every 64-bit count the closed form is the sum, reduced as 64-bit arithmetic reduces it. */
  lemma ExpectedSumIsSum(n: U64)
    ensures ExpectedSum(n) == Wrap(SumTo(n))
  {
    hide SumTo, SquareSum, Wrap, Cubic;
    SumSplits(n);
    SquareSumIsCubic(n % 1000);
    WrapAbsorbs(n / 1000 * 332833500, SquareSum(n % 1000));
  }

  lemma SquareIsBounded(a: nat, bound: nat)
    requires a <= bound
    ensures a * a <= bound * bound
  {
  }

  lemma {:induction false} SumIsBounded(n: nat)
    ensures SumTo(n) <= 998001 * n
  {
    if n == 0 {
    } else {
      SumIsBounded(n - 1);
      SquareIsBounded((n - 1) % 1000, 999);
    }
  }

  lemma {:induction false} SquareSumIsBounded(r: nat)
    requires r <= 1000
    ensures SquareSum(r) <= 1000000 * r
  {
    if r == 0 {
    } else {
      SquareSumIsBounded(r - 1);
      SquareIsBounded(r - 1, 1000);
    }
  }

  /**
   Within the supported count nothing wraps: the partial sums, the period product and the cubic
   all fit, and the closed form is the sum itself.
   */
  lemma SupportedSumsDoNotWrap(n: nat)
    requires n <= MAXIMUM_ITERATIONS
    ensures SumTo(n) <= MAX_U64 && n / 1000 * 332833500 <= MAX_U64 && Cubic(n % 1000) <= MAX_U64
    ensures ExpectedSum(n) == SumTo(n)
  {
    hide SumTo, SquareSum, Cubic, ExpectedSum;
    SumIsBounded(n);
    SumSplits(n);
    SquareSumIsBounded(n % 1000);
    SquareSumIsCubic(n % 1000);
    ExpectedSumIsSum(n);
  }

  lemma {:induction false} SumIsMonotone(a: nat, b: nat)
    requires a <= b
    ensures SumTo(a) <= SumTo(b)
  {
    if a == b {
    } else {
      SumIsMonotone(a, b - 1);
    }
  }

  /** The application's own check: one period summed directly, and the remainder beside it. */
  method ReferenceSum(iterations: U64) returns (sum: U64)
    ensures sum == Wrap(SumTo(iterations))
    ensures sum == ExpectedSum(iterations)
  {
    hide SumTo, Wrap, ExpectedSum;
    var period, remainder := 0, 0;
    var r := iterations % 1000;
    for i := 0 to 1000
      invariant period == SquareSum(i)
      invariant remainder == SquareSum(if i < r then i else r)
    {
      period := period + i * i;
      if i < r {
        remainder := remainder + i * i;
      }
    }
    PeriodSum();
    SumSplits(iterations);
    ExpectedSumIsSum(iterations);
    WrapAbsorbs(iterations / 1000 * period, remainder);
    sum := Wrap(Wrap(iterations / 1000 * period) + remainder);
  }
}
