/** JavaScript numbers where the model needs them. Finite values are exact rationals
    (`real`); floating-point rounding error is not modelled, but the non-finite
    results the source can produce (NaN, ±Infinity) are. */
module Numbers {

  datatype Num = NaN | NegInfinity | PosInfinity | Finite(value: real)

  /** `Math.round(x)`: the nearest integer, halves rounded up. */
  function Round(x: real): (r: int)
    ensures r as real - 0.5 <= x < r as real + 0.5
  {
    (x + 0.5).Floor
  }

  /** `x / y` on finite operands, with JavaScript's results for a zero divisor. */
  function Divide(x: real, y: real): (r: Num)
    ensures y != 0.0 ==> r == Finite(x / y)
    ensures y == 0.0 ==> (r == NaN <==> x == 0.0)
    ensures y == 0.0 ==> (r == PosInfinity <==> x > 0.0)
  {
    if y != 0.0 then Finite(x / y)
    else if x > 0.0 then PosInfinity
    else if x < 0.0 then NegInfinity
    else NaN
  }

  /** `Math.round` lifted to possibly non-finite numbers: NaN and ±Infinity are kept. */
  function RoundNum(n: Num): (r: Num)
    ensures n.Finite? <==> r.Finite?
    ensures n.Finite? ==> r == Finite(Round(n.value) as real)
    ensures !n.Finite? ==> r == n
  {
    match n
    case Finite(v) => Finite(Round(v) as real)
    case _ => n
  }

  function Sum(s: seq<int>): int
  {
    if |s| == 0 then 0 else Sum(s[..|s| - 1]) + s[|s| - 1]
  }

  /** The largest element of a non-empty sequence. */
  function MaxInt(s: seq<int>): (m: int)
    requires |s| > 0
    ensures m in s
    ensures forall i :: 0 <= i < |s| ==> s[i] <= m
  {
    if |s| == 1 then s[0]
    else
      var m' := MaxInt(s[..|s| - 1]);
      assert forall i :: 0 <= i < |s| - 1 ==> s[..|s| - 1][i] == s[i];
      if s[|s| - 1] > m' then s[|s| - 1] else m'
  }

  /** The smallest element of a non-empty sequence. */
  function MinInt(s: seq<int>): (m: int)
    requires |s| > 0
    ensures m in s
    ensures forall i :: 0 <= i < |s| ==> m <= s[i]
  {
    if |s| == 1 then s[0]
    else
      var m' := MinInt(s[..|s| - 1]);
      assert forall i :: 0 <= i < |s| - 1 ==> s[..|s| - 1][i] == s[i];
      if s[|s| - 1] < m' then s[|s| - 1] else m'
  }

  /** `Math.max(...s)`: -Infinity for no arguments. */
  function SpreadMax(s: seq<int>): (r: Num)
    ensures |s| == 0 <==> r == NegInfinity
    ensures |s| > 0 ==> r.Finite? && r.value.Floor in s
    ensures |s| > 0 ==> exists i :: 0 <= i < |s| && r == Finite(s[i] as real)
    ensures forall i :: 0 <= i < |s| ==> r.Finite? && s[i] as real <= r.value
  {
    if |s| == 0 then NegInfinity else Finite(MaxInt(s) as real)
  }

  /** `Math.min(...s)`: +Infinity for no arguments. */
  function SpreadMin(s: seq<int>): (r: Num)
    ensures |s| == 0 <==> r == PosInfinity
    ensures |s| > 0 ==> r.Finite? && r.value.Floor in s
    ensures |s| > 0 ==> exists i :: 0 <= i < |s| && r == Finite(s[i] as real)
    ensures forall i :: 0 <= i < |s| ==> r.Finite? && r.value <= s[i] as real
  {
    if |s| == 0 then PosInfinity else Finite(MinInt(s) as real)
  }

  lemma {:induction false} SumAppend(a: seq<int>, b: seq<int>)
    ensures Sum(a + b) == Sum(a) + Sum(b)
    decreases |b|
  {
    if |b| > 0 {
      assert (a + b)[..|a + b| - 1] == a + b[..|b| - 1];
      SumAppend(a, b[..|b| - 1]);
    } else {
      assert a + b == a;
    }
  }

  lemma ModSmall(i: int, n: int)
    requires 0 <= i < n
    ensures i % n == i
  {
  }

  lemma MulAtLeast(k: int, n: nat)
    requires k >= 1
    ensures k * n >= n
  {
    assert k * n == (k - 1) * n + n;
    assert (k - 1) * n >= 0;
  }

  /** A remainder is fixed by any quotient and remainder that rebuild the number. */
  lemma ModUnique(a: int, n: int, q: int, r: int)
    requires 0 <= r < n && a == q * n + r
    ensures a % n == r
  {
    var q', r' := a / n, a % n;
    assert q * n + r == q' * n + r';
    assert (q - q') * n == r' - r;
    if q > q' {
      MulAtLeast(q - q', n);
    } else if q < q' {
      MulAtLeast(q' - q, n);
    }
  }

  /** Counting on by one, modulo `n`. */
  lemma ModNext(m: nat, n: nat)
    requires n >= 1
    ensures (m % n + 1) % n == (m + 1) % n
  {
    var q, r := m / n, m % n;
    if r + 1 < n {
      ModUnique(m + 1, n, q, r + 1);
      ModUnique(r + 1, n, 0, r + 1);
    } else {
      ModUnique(m + 1, n, q + 1, 0);
      ModUnique(r + 1, n, 1, 0);
    }
  }

  /** `Math.round(x * 10) / 10`: rounding to one decimal place. */
  function RoundTenth(x: real): real
  {
    Round(x * 10.0) as real / 10.0
  }

  /** Rounding to one decimal stays within integer bounds of its argument. */
  lemma RoundTenthBounds(x: real, lo: int, hi: int)
    requires lo as real <= x <= hi as real
    ensures lo as real <= RoundTenth(x) <= hi as real
  {
    var r := Round(x * 10.0);
    assert r > 10 * lo - 1;
    assert r < 10 * hi + 1;
  }

  /** Every element between `lo` and `hi` puts the sum between `n * lo` and `n * hi`. */
  lemma {:induction false} SumBounds(s: seq<int>, lo: int, hi: int)
    requires forall i :: 0 <= i < |s| ==> lo <= s[i] <= hi
    ensures lo * |s| <= Sum(s) <= hi * |s|
  {
    if |s| > 0 {
      SumBounds(s[..|s| - 1], lo, hi);
      assert lo * |s| == lo * (|s| - 1) + lo;
      assert hi * |s| == hi * (|s| - 1) + hi;
    }
  }

  /** The mean of a non-empty sequence lies between its least and greatest element. */
  lemma MeanBounds(s: seq<int>)
    requires |s| > 0
    ensures MinInt(s) as real <= Sum(s) as real / |s| as real <= MaxInt(s) as real
  {
    SumBounds(s, MinInt(s), MaxInt(s));
    QuotientBounds(Sum(s), |s|, MinInt(s), MaxInt(s));
  }

  lemma QuotientBounds(total: int, n: int, lo: int, hi: int)
    requires n > 0 && lo * n <= total <= hi * n
    ensures lo as real <= total as real / n as real <= hi as real
  {
    var q := total as real / n as real;
    assert q * n as real == total as real;
    assert (lo as real) * (n as real) == (lo * n) as real;
    assert (hi as real) * (n as real) == (hi * n) as real;
  }
}
