/**
 * The Gini formula shared by the simulation and the analyzer: for the values
 * sorted ascending, `2 * sum((i+1) * v_i) / (n * sum(v)) - (n+1)/n`. The two
 * callers differ only in how they clamp it.
 */
module Gini {
  import opened Sorting

  /** `sum((i + w) * v for i, v in enumerate(s))`: the weights start at `w`. */
  function Weighted(s: seq<real>, w: nat): real {
    if s == [] then 0.0 else (w as real) * s[0] + Weighted(s[1..], w + 1)
  }

  /** One step of the accumulation `cumsum += (i + 1) * s[i]`. */
  lemma WeightedStep(s: seq<real>, i: nat)
    requires i < |s|
    ensures Weighted(s[i..], i + 1) == ((i + 1) as real) * s[i] + Weighted(s[i + 1..], i + 2)
  {
    assert s[i..][0] == s[i];
    assert s[i..][1..] == s[i + 1..];
  }

  /** `(2 * cumsum) / (n * total) - (n + 1) / n`. */
  function GiniFormula(cumsum: real, n: real, total: real): real
    requires n > 0.0 && total != 0.0
  {
    (2.0 * cumsum) / (n * total) - (n + 1.0) / n
  }

  /** The unclamped coefficient, defined where the code does not short-cut to 0. */
  function RawGini(values: seq<real>): real
    requires |values| > 0 && Sum(values) != 0.0
  {
    var s := Sort(values);
    GiniFormula(Weighted(s, 1), |s| as real, Sum(s))
  }

  /** On values already in ascending order the formula applies directly. */
  lemma RawGiniOfAscending(s: seq<real>)
    requires Ascending(s) && |s| > 0 && Sum(s) != 0.0
    ensures RawGini(s) == GiniFormula(Weighted(s, 1), |s| as real, Sum(s))
  {
    SortAscending(s);
  }

  /** The coefficient depends on the values only, not on their order. */
  lemma RawGiniPermutation(a: seq<real>, b: seq<real>)
    requires multiset(a) == multiset(b)
    requires |a| > 0 && Sum(a) != 0.0
    ensures |b| > 0 && Sum(b) != 0.0
    ensures RawGini(a) == RawGini(b)
  {
    SortPermutation(a, b);
    SameElementsSameLength(a, b);
  }

  lemma DivIs(x: real, d: real, q: real)
    requires d != 0.0 && x == q * d
    ensures x / d == q
  {
  }

  lemma DivAtMost(x: real, d: real, k: real)
    requires d > 0.0 && x <= k * d
    ensures x / d <= k
  {
  }

  predicate NonNegative(s: seq<real>) {
    forall i :: 0 <= i < |s| ==> s[i] >= 0.0
  }

  lemma {:induction false} SumNonNegative(s: seq<real>)
    requires NonNegative(s)
    ensures Sum(s) >= 0.0
  {
    if s != [] {
      SumNonNegative(s[1..]);
    }
  }

  /** With non-negative values every weight is at most the last one, `w + |s| - 1`. */
  lemma {:induction false} WeightedAtMost(s: seq<real>, w: nat)
    requires w >= 1 && NonNegative(s)
    ensures Weighted(s, w) <= ((w + |s|) as real - 1.0) * Sum(s)
  {
    if s != [] {
      var t := s[1..];
      WeightedAtMost(t, w + 1);
      SumNonNegative(t);
      var m := (w + |t|) as real;
      assert m * s[0] == (w as real) * s[0] + (|t| as real) * s[0];
      assert (|t| as real) * s[0] >= 0.0;
      assert m * Sum(s) == m * s[0] + m * Sum(t);
    }
  }

  /** The formula is below 1 when the weighted sum is at most `n * total`. */
  lemma FormulaBelowOne(cumsum: real, m: nat, total: real)
    requires m > 0 && total > 0.0
    requires cumsum <= ((1 + m) as real - 1.0) * total
    ensures GiniFormula(cumsum, m as real, total) < 1.0
  {
    var n := m as real;
    assert (1 + m) as real - 1.0 == n;
    var d := n * total;
    assert d > 0.0;
    assert cumsum <= d;
    DivAtMost(2.0 * cumsum, d, 2.0);
    assert (2.0 * cumsum) / d <= 2.0;
    QuotientAboveOne(n + 1.0, n);
    assert (n + 1.0) / n > 1.0;
    assert GiniFormula(cumsum, n, total) == (2.0 * cumsum) / d - (n + 1.0) / n;
  }

  /** For non-negative values (not all zero) the coefficient is below 1. */
  lemma RawGiniBelowOne(values: seq<real>)
    requires |values| > 0 && Sum(values) != 0.0
    requires NonNegative(values)
    ensures RawGini(values) < 1.0
  {
    SortedNonNegative(values);
    SortedBelowOne(Sort(values));
  }

  lemma SortedBelowOne(s: seq<real>)
    requires |s| > 0 && NonNegative(s) && Sum(s) > 0.0
    ensures GiniFormula(Weighted(s, 1), |s| as real, Sum(s)) < 1.0
  {
    WeightedAtMost(s, 1);
    FormulaBelowOne(Weighted(s, 1), |s|, Sum(s));
  }

  lemma SortedNonNegative(values: seq<real>)
    requires NonNegative(values)
    ensures NonNegative(Sort(values))
    ensures Sum(values) != 0.0 ==> Sum(Sort(values)) > 0.0
  {
    var s := Sort(values);
    forall i | 0 <= i < |s| ensures s[i] >= 0.0 {
      assert s[i] in multiset(values);
    }
    SumNonNegative(s);
  }

  function Repeat(c: real, k: nat): (r: seq<real>)
    ensures |r| == k && forall i :: 0 <= i < k ==> r[i] == c
  {
    seq(k, _ => c)
  }

  lemma {:induction false} SumRepeat(c: real, k: nat)
    ensures Sum(Repeat(c, k)) == (k as real) * c
  {
    if k > 0 {
      assert Repeat(c, k)[1..] == Repeat(c, k - 1);
      SumRepeat(c, k - 1);
    }
  }

  lemma {:induction false} WeightedRepeat(c: real, k: nat, w: nat)
    ensures Weighted(Repeat(c, k), w) == c * (k as real) * ((w as real) + ((k as real) - 1.0) / 2.0)
  {
    if k > 0 {
      assert Repeat(c, k)[1..] == Repeat(c, k - 1);
      WeightedRepeat(c, k - 1, w + 1);
      var K, W := k as real, w as real;
      calc {
        Weighted(Repeat(c, k), w);
        W * c + c * (K - 1.0) * ((W + 1.0) + (K - 2.0) / 2.0);
        c * (W + (K - 1.0) * W + (K - 1.0) * (1.0 + (K - 2.0) / 2.0));
        c * (K * W + (K - 1.0) * K / 2.0);
        c * K * (W + (K - 1.0) / 2.0);
      }
    }
  }

  /** The formula is 0 when the weighted sum is `total * (n + 1) / 2`, as for equal values. */
  lemma FormulaOfEqualValues(c: real, n: real)
    requires c != 0.0 && n > 0.0
    ensures n * c != 0.0
    ensures GiniFormula(c * n * (1.0 + (n - 1.0) / 2.0), n, n * c) == 0.0
  {
    assert n * c != 0.0;
    var d := n * (n * c);
    var x := c * n * (1.0 + (n - 1.0) / 2.0);
    assert 2.0 * x == ((n + 1.0) / n) * d;
    DivIs(2.0 * x, d, (n + 1.0) / n);
  }

  lemma RepeatFormula(c: real, k: nat)
    requires c != 0.0 && k > 0
    ensures Sum(Repeat(c, k)) != 0.0
    ensures GiniFormula(Weighted(Repeat(c, k), 1), k as real, Sum(Repeat(c, k))) == 0.0
  {
    var n := k as real;
    SumRepeat(c, k);
    WeightedRepeat(c, k, 1);
    FormulaOfEqualValues(c, n);
  }

  /** Equal values, all nonzero, have coefficient 0. */
  lemma RawGiniOfEqualValues(c: real, k: nat)
    requires c != 0.0 && k > 0
    ensures Sum(Repeat(c, k)) != 0.0
    ensures RawGini(Repeat(c, k)) == 0.0
  {
    SortAscending(Repeat(c, k));
    RepeatFormula(c, k);
  }

  lemma {:induction false} WeightedConcat(a: seq<real>, b: seq<real>, w: nat)
    ensures Weighted(a + b, w) == Weighted(a, w) + Weighted(b, w + |a|)
  {
    if a == [] {
      assert a + b == b;
    } else {
      assert (a + b)[0] == a[0];
      assert (a + b)[1..] == a[1..] + b;
      WeightedConcat(a[1..], b, w + 1);
    }
  }

  /** `k` holders of nothing followed by one holder of `c`. */
  function SingleHolder(c: real, k: nat): (s: seq<real>)
    ensures |s| == k + 1 && s[k] == c && forall i :: 0 <= i < k ==> s[i] == 0.0
  {
    Repeat(0.0, k) + [c]
  }

  lemma SingleHolderSums(c: real, k: nat)
    requires c > 0.0
    ensures Ascending(SingleHolder(c, k))
    ensures Sum(SingleHolder(c, k)) == c
    ensures Weighted(SingleHolder(c, k), 1) == (|SingleHolder(c, k)| as real) * c
  {
    var s := SingleHolder(c, k);
    SumAppend(Repeat(0.0, k), c);
    SumRepeat(0.0, k);
    WeightedConcat(Repeat(0.0, k), [c], 1);
    WeightedRepeat(0.0, k, 1);
    assert [c][1..] == [];
  }

  /** `2 * n * c / (n * c) - (n + 1) / n = (n - 1) / n`, for `n = m + 1`. */
  lemma FormulaOfSingleHolder(cumsum: real, n: real, total: real, m: real)
    requires total > 0.0 && m >= 0.0
    requires n == m + 1.0 && cumsum == n * total
    ensures GiniFormula(cumsum, n, total) == m / (m + 1.0)
  {
    DivIs(2.0 * (n * total), n * total, 2.0);
    assert 2.0 - (n + 1.0) / n == m / n;
  }

  /** Any ascending sequence with the single holder's sums has its coefficient. */
  lemma RawGiniOfConcentrated(s: seq<real>, c: real, k: nat)
    requires c > 0.0 && |s| == k + 1 && Ascending(s)
    requires Sum(s) == c && Weighted(s, 1) == (|s| as real) * c
    ensures RawGini(s) == (k as real) / (k as real + 1.0)
  {
    var n, m, w := |s| as real, k as real, Weighted(s, 1);
    assert n == m + 1.0 && w == n * c;
    FormulaOfSingleHolder(w, n, c, m);
    RawGiniOfAscending(s);
    assert RawGini(s) == GiniFormula(w, n, c);
  }

  /**
   * When one of `k + 1` holds everything the coefficient is `k / (k + 1)`,
   * the largest it gets for non-negative values; 0.75 for four.
   */
  lemma RawGiniOfSingleHolder(c: real, k: nat)
    requires c > 0.0
    ensures Sum(SingleHolder(c, k)) == c
    ensures RawGini(SingleHolder(c, k)) == (k as real) / (k as real + 1.0)
  {
    SingleHolderSums(c, k);
    RawGiniOfConcentrated(SingleHolder(c, k), c, k);
  }

  /** Negative values can push the coefficient above 1. */
  lemma RawGiniWithNegativeValue()
    ensures Sum([-1.0, 2.0]) == 1.0
    ensures RawGini([-1.0, 2.0]) == 1.5
  {
    var s := [-1.0, 2.0];
    SortAscending(s);
    assert Weighted(s, 1) == 3.0;
    assert GiniFormula(3.0, 2.0, 1.0) == 1.5;
  }

  /** With all values negative the formula itself can be negative. */
  lemma RawGiniOfNegativeValues()
    ensures Sum([-2.0, -1.0]) == -3.0
    ensures RawGini([-2.0, -1.0]) == -1.0 / 6.0
  {
    var s := [-2.0, -1.0];
    SortAscending(s);
    assert Weighted(s, 1) == -4.0;
    assert GiniFormula(-4.0, 2.0, -3.0) == -1.0 / 6.0;
  }

  /** Dividing by a positive number smaller than the dividend gives more than 1. */
  lemma QuotientAboveOne(x: real, d: real)
    requires 0.0 < d < x
    ensures x / d > 1.0
  {
    assert (x / d) * d == x;
  }
}
