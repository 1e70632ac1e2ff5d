/**
 * Arithmetic the processing code relies on: sums and means of `f64`
 * values (modelled as reals) and Rust's integer division, which truncates
 * toward zero where Dafny's `/` is Euclidean.
 */
module Numeric {

  function Abs(x: int): nat {
    if x < 0 then -x else x
  }

  /** `iter().sum::<f64>()`, added left to right. */
  function Sum(v: seq<real>): real
    decreases |v|
  {
    if |v| == 0 then 0.0 else Sum(v[..|v| - 1]) + v[|v| - 1]
  }

  lemma {:induction false} SumAppend(a: seq<real>, b: seq<real>)
    ensures Sum(a + b) == Sum(a) + Sum(b)
    decreases |b|
  {
    if |b| > 0 {
      assert (a + b)[..|a + b| - 1] == a + b[..|b| - 1];
      SumAppend(a, b[..|b| - 1]);
    } else {
      assert a + b == a;
    }
  }

  /** `sum / len as f64` for a non-empty slice. */
  function Mean(v: seq<real>): (m: real)
    requires |v| > 0
    ensures m * (|v| as real) == Sum(v)
  {
    Sum(v) / (|v| as real)
  }

  /** Every element of `v` lies within `[lo, hi]`. */
  predicate Within(v: seq<real>, lo: real, hi: real) {
    forall i :: 0 <= i < |v| ==> lo <= v[i] <= hi
  }

  lemma {:induction false} SumWithin(v: seq<real>, lo: real, hi: real)
    requires Within(v, lo, hi)
    ensures (|v| as real) * lo <= Sum(v) <= (|v| as real) * hi
    decreases |v|
  {
    if |v| > 0 {
      var p := v[..|v| - 1];
      SumWithin(p, lo, hi);
      var n := |p| as real;
      assert Sum(v) == Sum(p) + v[|v| - 1];
      assert (|v| as real) * lo == n * lo + lo && (|v| as real) * hi == n * hi + hi;
    }
  }

  /** A mean lies between the least and the greatest element averaged. */
  lemma MeanWithin(v: seq<real>, lo: real, hi: real)
    requires |v| > 0 && Within(v, lo, hi)
    ensures lo <= Mean(v) <= hi
  {
    SumWithin(v, lo, hi);
    var m := Mean(v);
    assert m * (|v| as real) == Sum(v);
  }

  lemma {:induction false} SumConstant(v: seq<real>, c: real)
    requires forall i :: 0 <= i < |v| ==> v[i] == c
    ensures Sum(v) == (|v| as real) * c
    decreases |v|
  {
    if |v| > 0 {
      var p := v[..|v| - 1];
      SumConstant(p, c);
      assert (|v| as real) * c == (|p| as real) * c + c;
    }
  }

  /** The mean of a constant sequence is that constant. */
  lemma MeanConstant(v: seq<real>, c: real)
    requires |v| > 0 && forall i :: 0 <= i < |v| ==> v[i] == c
    ensures Mean(v) == c
  {
    SumConstant(v, c);
    var n := |v| as real;
    assert (Mean(v) - c) * n == 0.0;
  }

  /** `Sum(v[..k + 1])` in terms of `Sum(v[..k])`: the step that unrolls a concrete sum. */
  lemma SumPrefix(v: seq<real>, k: nat)
    requires k < |v|
    ensures Sum(v[..k + 1]) == Sum(v[..k]) + v[k]
  {
    assert v[..k + 1][..k] == v[..k];
  }

  /** The deviations `x - m` of the elements of `v`. */
  function Devs(v: seq<real>, m: real): (d: seq<real>)
    ensures |d| == |v| && forall i :: 0 <= i < |v| ==> d[i] == v[i] - m
  {
    seq(|v|, i requires 0 <= i < |v| => v[i] - m)
  }

  function Square(x: real): real {
    x * x
  }

  lemma SquareNonNegative(x: real)
    ensures Square(x) >= 0.0
  {
    if x < 0.0 {
      assert Square(x) == (-x) * (-x);
    }
  }

  /** The squares of the elements of `v`. */
  function Squares(v: seq<real>): (q: seq<real>)
    ensures |q| == |v| && forall i :: 0 <= i < |v| ==> q[i] == Square(v[i])
  {
    seq(|v|, i requires 0 <= i < |v| => Square(v[i]))
  }

  /** `values.iter().map(|v| (v - mean).powi(2)).sum::<f64>() / n`: the population variance. */
  function Variance(v: seq<real>): real
    requires |v| > 0
  {
    Sum(Squares(Devs(v, Mean(v)))) / (|v| as real)
  }

  lemma {:induction false} SumOfDevs(v: seq<real>, m: real)
    ensures Sum(Devs(v, m)) == Sum(v) - (|v| as real) * m
    decreases |v|
  {
    if |v| > 0 {
      var n := |v| - 1;
      SumOfDevs(v[..n], m);
      assert Devs(v, m)[..n] == Devs(v[..n], m);
    }
  }

  lemma {:induction false} SumSquaresNonNegative(v: seq<real>)
    ensures Sum(Squares(v)) >= 0.0
    decreases |v|
  {
    if |v| > 0 {
      var n := |v| - 1;
      SumSquaresNonNegative(v[..n]);
      assert Squares(v)[..n] == Squares(v[..n]);
      SquareNonNegative(v[n]);
    }
  }

  lemma VarianceNonNegative(v: seq<real>)
    requires |v| > 0
    ensures Variance(v) >= 0.0
  {
    SumSquaresNonNegative(Devs(v, Mean(v)));
  }

  /** The arithmetic step of the Cauchy–Schwarz induction. */
  lemma CauchySchwarzStep(s: real, q: real, x: real, n: real)
    requires n >= 0.0 && q >= 0.0 && s * s <= n * q
    requires n == 0.0 ==> s == 0.0 && q == 0.0
    ensures (s + x) * (s + x) <= (n + 1.0) * (q + x * x)
  {
    if n > 0.0 {
      SquareNonNegative(s - n * x);
      assert n * (q + n * x * x - 2.0 * s * x) >= (s - n * x) * (s - n * x);
      assert q + n * x * x - 2.0 * s * x >= 0.0;
    }
  }

  /** `(x₁ + … + xₙ)² ≤ n·(x₁² + … + xₙ²)`. */
  lemma {:induction false} CauchySchwarz(w: seq<real>)
    ensures Sum(w) * Sum(w) <= (|w| as real) * Sum(Squares(w))
    decreases |w|
  {
    if |w| > 0 {
      var n := |w| - 1;
      CauchySchwarz(w[..n]);
      SumSquaresNonNegative(w[..n]);
      assert Squares(w)[..n] == Squares(w[..n]);
      CauchySchwarzStep(Sum(w[..n]), Sum(Squares(w[..n])), w[n], n as real);
    }
  }

  lemma SumSingleton(x: real)
    ensures Sum([x]) == x
  {
    assert [x][..0] == [];
  }

  /** Removing the element at `i` takes it out of the sum. */
  lemma {:induction false} SumRemove(d: seq<real>, i: nat)
    requires i < |d|
    ensures Sum(d[..i] + d[i + 1..]) == Sum(d) - d[i]
  {
    var a, b := d[..i], d[i + 1..];
    assert d == a + ([d[i]] + b);
    SumAppend(a, [d[i]] + b);
    SumAppend([d[i]], b);
    SumSingleton(d[i]);
    SumAppend(a, b);
  }

  lemma SquaresRemove(d: seq<real>, i: nat)
    requires i < |d|
    ensures Squares(d[..i] + d[i + 1..]) == Squares(d)[..i] + Squares(d)[i + 1..]
  {
  }

  /** If the `k` other deviations sum to `-x` and, with `x`, square-sum to `t`, then `x² ≤ k·t/(k + 1)`. */
  lemma {:induction false} DeviationBound(w: seq<real>, x: real, k: real, t: real)
    requires Sum(w) == -x && k == |w| as real && t == Sum(Squares(w)) + Square(x)
    ensures Square(x) <= k * (t / (k + 1.0))
  {
    CauchySchwarz(w);
    SamuelsonArithmetic(Sum(w), x, Sum(Squares(w)), k, t);
  }

  /** The sum of deviations from the mean is zero. */
  lemma MeanDeviationsSumToZero(v: seq<real>)
    requires |v| > 0
    ensures Sum(Devs(v, Mean(v))) == 0.0
  {
    SumOfDevs(v, Mean(v));
  }

  /** Removing element `i` of the deviations. */
  lemma {:induction false} RemoveDeviation(d: seq<real>, i: nat)
    requires i < |d|
    ensures Sum(d[..i] + d[i + 1..]) == Sum(d) - d[i]
    ensures Sum(Squares(d[..i] + d[i + 1..])) == Sum(Squares(d)) - Square(d[i])
    ensures |d[..i] + d[i + 1..]| == |d| - 1
  {
    SumRemove(d, i);
    SquaresRemove(d, i);
    SumRemove(Squares(d), i);
  }

  lemma SamuelsonArithmetic(sw: real, x: real, qw: real, k: real, t: real)
    requires k >= 0.0 && sw == -x && t == qw + Square(x)
    requires sw * sw <= k * qw
    ensures Square(x) <= k * (t / (k + 1.0))
  {
    assert sw * sw == Square(x);
    assert (k + 1.0) * Square(x) <= k * t;
    assert k * (t / (k + 1.0)) * (k + 1.0) == k * t;
  }

  /** For `n = k + 1` deviations summing to zero, `dᵢ² ≤ k · (Σ d² / n)`. */
  lemma {:induction false} DeviationsBound(d: seq<real>, i: nat, k: real)
    requires i < |d| && Sum(d) == 0.0 && k == (|d| - 1) as real
    ensures Square(d[i]) <= k * (Sum(Squares(d)) / (k + 1.0))
  {
    var w := d[..i] + d[i + 1..];
    RemoveDeviation(d, i);
    DeviationBound(w, d[i], k, Sum(Squares(d)));
  }

  /**
   * Samuelson's inequality: no element lies further than `sqrt(n - 1)`
   * population standard deviations from the mean.
   */
  lemma {:induction false} Samuelson(v: seq<real>, i: nat)
    requires i < |v|
    ensures Square(v[i] - Mean(v)) <= ((|v| - 1) as real) * Variance(v)
  {
    var d := Devs(v, Mean(v));
    var k := (|v| - 1) as real;
    MeanDeviationsSumToZero(v);
    DeviationsBound(d, i, k);
    assert Variance(v) == Sum(Squares(d)) / (k + 1.0);
  }

  /** Rust's `/` on signed integers: the quotient truncated toward zero. */
  function TruncDiv(a: int, b: int): (q: int)
    requires b != 0
    ensures Abs(a - q * b) < Abs(b)
    ensures a - q * b == 0 || ((a - q * b) < 0 <==> a < 0)
    ensures a >= 0 && b > 0 ==> q == a / b
  {
    var q := Abs(a) / Abs(b);
    var r := Abs(a) % Abs(b);
    assert Abs(a) == Abs(b) * q + r;
    if (a < 0) == (b < 0) then
      assert q * b == (if b < 0 then -(q * Abs(b)) else q * Abs(b));
      q
    else
      assert (-q) * b == (if b < 0 then q * Abs(b) else -(q * Abs(b)));
      -q
  }

  lemma SmallMultiple(x: int, m: int)
    requires m > 0 && 0 <= x * m < m
    ensures x == 0
  {
  }

  /** A multiple of `m` is divisible by `m`. */
  lemma MultipleMod(q: int, m: int)
    requires m > 0
    ensures (q * m) % m == 0
  {
    var d := (q * m) / m;
    var r := (q * m) % m;
    assert q * m == m * d + r;
    assert (q - d) * m == r;
    SmallMultiple(q - d, m);
  }

  lemma MulLe(a: int, b: int, m: int)
    requires m > 0 && a <= b
    ensures a * m <= b * m
  {
    assert b * m - a * m == (b - a) * m;
  }

  /** Euclidean division has one quotient and remainder. */
  lemma DivUnique(x: int, m: int, q: int, r: int)
    requires m > 0 && x == m * q + r && 0 <= r < m
    ensures x / m == q
  {
    var q2 := x / m;
    var r2 := x % m;
    assert x == m * q2 + r2;
    if q2 < q {
      MulLe(q2 + 1, q, m);
    } else if q2 > q {
      MulLe(q + 1, q2, m);
    }
  }

  /** Division by a positive number is monotone. */
  lemma DivMonotone(a: int, b: int, m: int)
    requires m > 0 && a <= b
    ensures a / m <= b / m
  {
    var qa, ra := a / m, a % m;
    var qb, rb := b / m, b % m;
    assert a == m * qa + ra;
    assert b == m * qb + rb;
    if qa > qb {
      MulLe(qb + 1, qa, m);
    }
  }

  /** Moving forward by `d` moves the quotient by at most `d / m + 1`. */
  lemma DivSpan(a: int, d: int, m: int)
    requires m > 0 && d >= 0
    ensures (a + d) / m <= a / m + d / m + 1
  {
    var qa, ra := a / m, a % m;
    var qd, rd := d / m, d % m;
    assert a == m * qa + ra;
    assert d == m * qd + rd;
    assert m * (qa + qd) == m * qa + m * qd;
    if ra + rd < m {
      DivUnique(a + d, m, qa + qd, ra + rd);
    } else {
      assert m * (qa + qd + 1) == m * (qa + qd) + m;
      DivUnique(a + d, m, qa + qd + 1, ra + rd - m);
    }
  }
}
