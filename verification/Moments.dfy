/** Sums, means and scatter over a group of values: the facts the cross-sectional signals rest on. */
module Moments {
  function Square(x: real): (r: real)
    ensures r >= 0.0
  {
    x * x
  }

  function Sum(xs: seq<real>): real {
    if xs == [] then 0.0 else Sum(xs[..|xs| - 1]) + xs[|xs| - 1]
  }

  /** The sum of squared distances from c. */
  function Scatter(xs: seq<real>, c: real): (r: real)
    ensures r >= 0.0
  {
    if xs == [] then 0.0 else Scatter(xs[..|xs| - 1], c) + Square(xs[|xs| - 1] - c)
  }

  function Mean(xs: seq<real>): real
    requires xs != []
  {
    Sum(xs) / |xs| as real
  }

  /** The population variance (ddof=0). */
  function Variance(xs: seq<real>): (r: real)
    requires xs != []
    ensures r >= 0.0
  {
    Scatter(xs, Mean(xs)) / |xs| as real
  }

  /** The group without its i-th member. */
  function Without<T>(xs: seq<T>, i: nat): (r: seq<T>)
    requires i < |xs|
    ensures |r| == |xs| - 1
  {
    xs[..i] + xs[i + 1..]
  }

  function Count<T>(xs: seq<T>, p: T -> bool): (r: nat)
    ensures r <= |xs|
  {
    if xs == [] then 0 else Count(xs[..|xs| - 1], p) + if p(xs[|xs| - 1]) then 1 else 0
  }

  lemma {:induction false} SumConcat(xs: seq<real>, ys: seq<real>, c: real)
    ensures Sum(xs + ys) == Sum(xs) + Sum(ys)
    ensures Scatter(xs + ys, c) == Scatter(xs, c) + Scatter(ys, c)
  {
    hide Square;
    if ys == [] {
      assert xs + ys == xs;
    } else {
      var n := |ys| - 1;
      assert (xs + ys)[..|xs| + n] == xs + ys[..n];
      SumConcat(xs, ys[..n], c);
    }
  }

  /** Taking one member out takes its value and its squared distance out. */
  lemma SumWithout(xs: seq<real>, i: nat, c: real)
    requires i < |xs|
    ensures Sum(Without(xs, i)) == Sum(xs) - xs[i]
    ensures Scatter(Without(xs, i), c) == Scatter(xs, c) - Square(xs[i] - c)
  {
    hide Square;
    var front, back := xs[..i], xs[i + 1..];
    SumConcat(front, back, c);
    SumConcat(front + [xs[i]], back, c);
    SumConcat(front, [xs[i]], c);
    assert front + [xs[i]] + back == xs;
    assert [xs[i]][..0] == [];
  }

  lemma {:induction false} ScatterExpands(xs: seq<real>, c: real)
    ensures Scatter(xs, c) == Scatter(xs, 0.0) - 2.0 * c * Sum(xs) + |xs| as real * Square(c)
  {
    hide Square;
    if xs != [] {
      var n := |xs| - 1;
      ScatterExpands(xs[..n], c);
      OneMoreSquare(Sum(xs[..n]), xs[n], c, n as real);
      assert |xs| as real == n as real + 1.0;
      assert xs[n] - 0.0 == xs[n];
    }
  }

  lemma OneMoreSquare(s: real, x: real, c: real, k: real)
    ensures Square(x - c) == Square(x) - 2.0 * c * x + Square(c)
    ensures 2.0 * c * (s + x) == 2.0 * c * s + 2.0 * c * x
    ensures (k + 1.0) * Square(c) == k * Square(c) + Square(c)
  {
  }

  /** Around the mean, the scatter is the sum of squares less n times the squared mean. */
  lemma ScatterAroundMean(xs: seq<real>)
    requires xs != []
    ensures Sum(xs) == |xs| as real * Mean(xs)
    ensures Scatter(xs, Mean(xs)) == Scatter(xs, 0.0) - |xs| as real * Square(Mean(xs))
    ensures Scatter(xs, Mean(xs)) == |xs| as real * Variance(xs)
  {
    hide Square, Scatter, Sum;
    ScatterExpands(xs, Mean(xs));
    MeanSquared(|xs| as real, Mean(xs), Sum(xs));
  }

  lemma MeanSquared(n: real, m: real, s: real)
    requires n * m == s
    ensures 2.0 * m * s == 2.0 * (n * Square(m))
  {
    assert 2.0 * m * (n * m) == 2.0 * (n * (m * m));
  }

  /** How far member i lies from the group's mean, itself included. */
  function Deviation(xs: seq<real>, i: nat): real
    requires i < |xs|
  {
    xs[i] - Mean(xs)
  }

  /** How far member i lies from the mean of the others. */
  function LooDeviation(xs: seq<real>, i: nat): real
    requires i < |xs| && |xs| > 1
  {
    xs[i] - Mean(Without(xs, i))
  }

  /**
   Leaving member i out stretches its own deviation by n/(n-1) and takes n d*d/(n-1) out of the scatter.
   */
  lemma LeaveOneOut(xs: seq<real>, i: nat)
    requires i < |xs| && |xs| > 1
    ensures (|xs| as real - 1.0) * LooDeviation(xs, i) == |xs| as real * Deviation(xs, i)
    ensures (|xs| as real - 1.0) * (|xs| as real - 1.0) * Variance(Without(xs, i))
         == |xs| as real * ((|xs| as real - 1.0) * Variance(xs) - Square(Deviation(xs, i)))
  {
    hide Square, Scatter, Sum, Mean, Variance, Without;
    var ys := Without(xs, i);
    SumWithout(xs, i, 0.0);
    ScatterAroundMean(xs);
    ScatterAroundMean(ys);
    assert |ys| as real == |xs| as real - 1.0 && xs[i] - 0.0 == xs[i];
    LeftOutSquares(|xs| as real, |xs| as real - 1.0, xs[i], Mean(xs), Mean(ys), Scatter(xs, 0.0), Variance(xs),
                   Variance(ys));
  }

  lemma LeftOutSquares(n: real, j: real, x: real, m: real, k: real, q: real, v: real, w: real)
    requires j == n - 1.0 && j * k == n * m - x
    requires n * v == q - n * Square(m)
    requires j * w == q - Square(x) - j * Square(k)
    ensures j * (x - k) == n * (x - m)
    ensures j * j * w == n * (j * v - Square(x - m))
  {
    hide Square;
    StretchedDeviation(n, j, x, m, k);
    var y, z := j * w, n * v;
    assert j * y == j * q - j * Square(x) - Square(n * m - x) by {
      Spread3(j, q, Square(x), j * Square(k));
      ScaledSquare(j, k);
    }
    assert j * z == j * q - j * (n * Square(m)) by {
      Spread3(j, q, 0.0, n * Square(m));
    }
    SquaresBalance(n, j, x, m);
    Reassociate(j, n, w, v, Square(x - m));
  }

  lemma StretchedDeviation(n: real, j: real, x: real, m: real, k: real)
    requires j == n - 1.0 && j * k == n * m - x
    ensures j * (x - k) == n * (x - m)
  {
    assert j * (x - k) == j * x - j * k;
  }

  lemma Spread3(j: real, a: real, b: real, c: real)
    ensures j * (a - b - c) == j * a - j * b - j * c
  {
  }

  lemma ScaledSquare(j: real, k: real)
    ensures j * (j * Square(k)) == Square(j * k)
  {
    assert j * (j * (k * k)) == (j * k) * (j * k);
  }

  lemma Reassociate(j: real, n: real, w: real, v: real, d: real)
    ensures j * j * w == j * (j * w)
    ensures n * (j * v - d) == j * (n * v) - n * d
  {
  }

  lemma SquaresBalance(n: real, j: real, x: real, m: real)
    requires j == n - 1.0
    ensures j * Square(x) + Square(n * m - x) - j * (n * Square(m)) == n * Square(x - m)
  {
    var a := n * m;
    assert Square(a - x) == a * a - 2.0 * (a * x) + x * x;
    assert Square(x - m) == x * x - 2.0 * (m * x) + m * m;
    Spread3(n, x * x, 2.0 * (m * x), -(m * m));
    assert a * a == n * (n * (m * m)) && a * x == n * (m * x);
  }

  /** Samuelson's bound: no member lies more than sqrt(n - 1) standard deviations from the mean. */
  lemma Samuelson(xs: seq<real>, i: nat)
    requires i < |xs|
    ensures Square(Deviation(xs, i)) <= (|xs| as real - 1.0) * Variance(xs)
  {
    hide Square, Deviation, Variance, LooDeviation;
    if |xs| == 1 {
      NoDeviation(xs);
    } else {
      LeaveOneOut(xs, i);
      NotNegative(|xs| as real, Variance(Without(xs, i)),
                  (|xs| as real - 1.0) * Variance(xs) - Square(Deviation(xs, i)));
    }
  }

  lemma NoDeviation(xs: seq<real>)
    requires |xs| == 1
    ensures Square(Deviation(xs, 0)) == 0.0
  {
    assert xs[..0] == [] && Sum(xs) == xs[0];
    assert |xs| as real == 1.0;
    assert Mean(xs) == xs[0];
  }

  lemma NotNegative(n: real, w: real, r: real)
    requires n > 1.0 && w >= 0.0 && (n - 1.0) * (n - 1.0) * w == n * r
    ensures r >= 0.0
  {
    assert (n - 1.0) * (n - 1.0) * w >= 0.0;
  }

  /**
   Chebyshev's count: if every chosen member's squared distance from c is at least t, the scatter is at least their
   number times t.
   */
  lemma {:induction false} Chebyshev(xs: seq<real>, c: real, p: real -> bool, t: real)
    requires forall k :: 0 <= k < |xs| && p(xs[k]) ==> Square(xs[k] - c) >= t
    ensures Scatter(xs, c) >= Count(xs, p) as real * t
  {
    hide Square;
    if xs != [] {
      var n := |xs| - 1;
      Chebyshev(xs[..n], c, p, t);
      assert xs[..n] == xs[..|xs| - 1];
      if p(xs[n]) {
        OneMoreFarOut(Scatter(xs[..n], c), Square(xs[n] - c), Count(xs[..n], p), Count(xs, p), t);
      }
    }
  }

  lemma OneMoreFarOut(scatter: real, square: real, before: nat, now: nat, t: real)
    requires scatter >= before as real * t && square >= t && now == before + 1
    ensures scatter + square >= now as real * t
  {
    var k := before as real;
    assert now as real == k + 1.0;
    assert (k + 1.0) * t == k * t + t;
  }

  /** Whoever is in the group and chosen is counted. */
  lemma {:induction false} CountedMember<T>(xs: seq<T>, p: T -> bool, i: nat)
    requires i < |xs| && p(xs[i])
    ensures Count(xs, p) >= 1
  {
    if i < |xs| - 1 {
      CountedMember(xs[..|xs| - 1], p, i);
    }
  }

  /** Counting two exclusive choices separately counts their union. */
  lemma {:induction false} CountSplits<T>(xs: seq<T>, p: T -> bool, q: T -> bool, r: T -> bool)
    requires forall x :: x in xs ==> (r(x) <==> p(x) || q(x)) && !(p(x) && q(x))
    ensures Count(xs, r) == Count(xs, p) + Count(xs, q)
  {
    if xs != [] {
      var n := |xs| - 1;
      assert xs[n] in xs && forall x :: x in xs[..n] ==> x in xs;
      CountSplits(xs[..n], p, q, r);
    }
  }

  lemma {:induction false} CountAll<T>(xs: seq<T>, p: T -> bool)
    requires forall x :: x in xs ==> p(x)
    ensures Count(xs, p) == |xs|
  {
    if xs != [] {
      var n := |xs| - 1;
      assert xs[n] in xs && forall x :: x in xs[..n] ==> x in xs;
      CountAll(xs[..n], p);
    }
  }
}
