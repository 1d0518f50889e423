/**
 src/trend_breaks.py: one firm's series of one metric, in period order, compared window against window.
 The square root in the standard deviation is a parameter: nothing proved here depends on what it returns.
 */
module TrendBreaks {
  import opened Outcomes
  import opened Moments
  import opened Anomaly

  datatype Direction = NoStreak | Improving | Deteriorating | MixedStreak
  datatype SignalType = ShortHistory | StrongShift | ModerateShift | Watch

  /** What one period's windows say; a row with too short a history has none. */
  datatype Windows = Windows(priorMean: real, recentMean: real, meanShift: real, priorSlope: Option<real>,
                             recentSlope: Option<real>, slopeShift: Option<real>)

  datatype TrendRow = TrendRow(value: Option<real>, historyPoints: nat, windows: Option<Windows>, direction: Direction,
                               streak: nat, shortHistory: bool, score: real, signalType: SignalType)

  /** 0, 1, ..., n - 1. */
  function Axis(n: nat): (r: seq<real>)
    ensures |r| == n && forall k :: 0 <= k < n ==> r[k] == k as real
  {
    seq(n, k requires 0 <= k < n => k as real)
  }

  /** The sum of (x - c) * y. */
  function Cross(xs: seq<real>, ys: seq<real>, c: real): real
    requires |xs| == |ys|
  {
    if xs == [] then 0.0
    else
      var k := |xs| - 1;
      Cross(xs[..k], ys[..k], c) + (xs[k] - c) * ys[k]
  }

  function Quotient(x: real, d: real): real
    requires d > 0.0
  {
    x / d
  }

  /** The least-squares slope of the values over 0, 1, ..., n - 1. */
  function LinearSlope(ys: seq<real>): Option<real> {
    if |ys| < 2 then None
    else
      AxisSpreads(|ys|);
      Some(Quotient(Cross(Axis(|ys|), ys, Mean(Axis(|ys|))), Scatter(Axis(|ys|), Mean(Axis(|ys|)))))
  }

  lemma AxisSpreads(n: nat)
    requires n >= 2
    ensures Scatter(Axis(n), Mean(Axis(n))) > 0.0
  {
    hide Square;
    var c := Mean(Axis(n));
    FirstTwoScatter(Axis(n), c);
    ApartByOne(c);
  }

  lemma {:induction false} FirstTwoScatter(xs: seq<real>, c: real)
    requires |xs| >= 2
    ensures Scatter(xs, c) >= Square(xs[0] - c) + Square(xs[1] - c)
  {
    hide Square;
    if |xs| > 2 {
      FirstTwoScatter(xs[..|xs| - 1], c);
    } else {
      assert xs[..1][..0] == [];
    }
  }

  lemma ApartByOne(c: real)
    ensures Square(0.0 - c) + Square(1.0 - c) >= 0.5
  {
    assert (0.0 - c) * (0.0 - c) + (1.0 - c) * (1.0 - c) == 2.0 * ((c - 0.5) * (c - 0.5)) + 0.5;
    assert Square(c - 0.5) >= 0.0;
  }

  predicate Rising(ys: seq<real>) {
    forall k :: 0 < k < |ys| ==> ys[k] - ys[k - 1] > 0.0
  }

  predicate Falling(ys: seq<real>) {
    forall k :: 0 < k < |ys| ==> ys[k] - ys[k - 1] < 0.0
  }

  function StreakDirection(ys: seq<real>): (Direction, nat) {
    if |ys| < 3 then (NoStreak, 0)
    else if Rising(ys) then (Improving, |ys| - 1)
    else if Falling(ys) then (Deteriorating, |ys| - 1)
    else (MixedStreak, |ys| - 1)
  }

  function SignalTypeOf(score: real, shortHistory: bool): SignalType {
    if shortHistory then ShortHistory
    else if score >= 2.0 then StrongShift
    else if score >= 1.0 then ModerateShift
    else Watch
  }

  function MinOf(a: real, b: real): real {
    if a <= b then a else b
  }

  function MaxOf(a: real, b: real): real {
    if a >= b then a else b
  }

  function ShiftOf(prior: Option<real>, recent: Option<real>): Option<real> {
    if prior.Some? && recent.Some? then Some(recent.value - prior.value) else None
  }

  function Score(root: real -> real, prior: seq<real>, meanShift: real, slopeShift: Option<real>,
                 direction: Direction): (r: real)
    requires prior != []
    ensures 0.0 <= r <= 5.0
  {
    var deviation := MaxOf(root(Variance(prior)), 0.000000001);
    assert Abs(meanShift) / deviation >= 0.0;
    MinOf(Abs(meanShift) / deviation, 3.0)
    + (if slopeShift.Some? then MinOf(Abs(slopeShift.value), 1.5) else 0.0)
    + (if direction == Improving || direction == Deteriorating then 0.5 else 0.0)
  }

  /**
   A row with enough history: the prior window against the recent one, and the streak over the recent window and one
   more.
   */
  function WindowRow(root: real -> real, hp: nat, prior: seq<real>, recent: seq<real>, streakWindow: seq<real>,
                     value: Option<real>): TrendRow
    requires prior != [] && recent != []
  {
    var meanShift := Mean(recent) - Mean(prior);
    var slopeShift := ShiftOf(LinearSlope(prior), LinearSlope(recent));
    var (direction, streak) := StreakDirection(streakWindow);
    var score := Score(root, prior, meanShift, slopeShift, direction);
    TrendRow(value, hp, Some(Windows(Mean(prior), Mean(recent), meanShift, LinearSlope(prior), LinearSlope(recent),
                                    slopeShift)),
             direction, streak, false, score, SignalTypeOf(score, false))
  }

  /** The row of the last period of a series, from the values seen so far. */
  function RowAt(root: real -> real, priorWindow: nat, recentWindow: nat, seen: seq<real>,
                 value: Option<real>): TrendRow
    requires priorWindow > 0 && recentWindow > 0
  {
    var hp := |seen|;
    if hp < priorWindow + recentWindow then
      TrendRow(value, hp, None, NoStreak, 0, true, 0.0, SignalTypeOf(0.0, true))
    else
      WindowRow(root, hp, seen[hp - priorWindow - recentWindow..hp - recentWindow], seen[hp - recentWindow..],
                seen[hp - recentWindow - 1..], value)
  }

  /** The rows of a firm's first n periods. */
  function Rows(root: real -> real, priorWindow: nat, recentWindow: nat, series: seq<Option<real>>,
                n: nat): (r: seq<TrendRow>)
    requires priorWindow > 0 && recentWindow > 0 && n <= |series|
    ensures |r| == n
  {
    if n == 0 then []
    else
      Rows(root, priorWindow, recentWindow, series, n - 1)
      + [RowAt(root, priorWindow, recentWindow, Known(series[..n]), series[n - 1])]
  }

  /** The window loop of compute_trend_break_signals over one firm's quarters in period order. */
  method TrendRows(root: real -> real, priorWindow: nat, recentWindow: nat, series: seq<Option<real>>)
    returns (rows: seq<TrendRow>)
    requires priorWindow > 0 && recentWindow > 0
    ensures rows == Rows(root, priorWindow, recentWindow, series, |series|)
  {
    rows := [];
    for i := 0 to |series|
      invariant rows == Rows(root, priorWindow, recentWindow, series, i)
    {
      var seen := Known(series[..i + 1]);
      rows := rows + [RowAt(root, priorWindow, recentWindow, seen, series[i])];
    }
  }

  // The slope is the least-squares one

  /** The squared error of the line a + b * x. */
  function SquaredError(xs: seq<real>, ys: seq<real>, a: real, b: real): real
    requires |xs| == |ys|
  {
    if xs == [] then 0.0
    else
      var k := |xs| - 1;
      SquaredError(xs[..k], ys[..k], a, b) + Square(Residual(xs[k], ys[k], a, b))
  }

  function Residual(x: real, y: real, a: real, b: real): real {
    y - a - b * x
  }

  /** What the line a + b * x leaves of each value. */
  function Residuals(xs: seq<real>, ys: seq<real>, a: real, b: real): (r: seq<real>)
    requires |xs| == |ys|
    ensures |r| == |xs| && forall k :: 0 <= k < |r| ==> r[k] == Residual(xs[k], ys[k], a, b)
  {
    seq(|xs|, k requires 0 <= k < |xs| => Residual(xs[k], ys[k], a, b))
  }

  lemma ResidualsPrefix(xs: seq<real>, ys: seq<real>, a: real, b: real, k: nat)
    requires |xs| == |ys| && k <= |xs|
    ensures Residuals(xs, ys, a, b)[..k] == Residuals(xs[..k], ys[..k], a, b)
  {
    hide Residual;
  }

  /** Tilting and lifting the line by beta and alpha costs at least twice what they do to the two residual sums. */
  lemma {:induction false} ErrorOfOtherLine(xs: seq<real>, ys: seq<real>, a: real, b: real, c: real, alpha: real,
                                            beta: real)
    requires |xs| == |ys|
    ensures SquaredError(xs, ys, a - alpha + beta * c, b - beta)
         >= SquaredError(xs, ys, a, b) + 2.0 * alpha * Sum(Residuals(xs, ys, a, b))
            + 2.0 * beta * Cross(xs, Residuals(xs, ys, a, b), c)
  {
    hide Square, Residual;
    if xs != [] {
      var k := |xs| - 1;
      ErrorOfOtherLine(xs[..k], ys[..k], a, b, c, alpha, beta);
      var rs := Residuals(xs, ys, a, b);
      ResidualsPrefix(xs, ys, a, b, k);
      OnePointsError(ys[k], xs[k], a, b, c, alpha, beta);
      Shares(alpha, Sum(rs[..k]), rs[k]);
      Shares(beta, Cross(xs[..k], rs[..k], c), (xs[k] - c) * rs[k]);
    } else {
      assert Residuals(xs, ys, a, b) == [];
    }
  }

  lemma Shares(f: real, s: real, x: real)
    ensures 2.0 * f * (s + x) == 2.0 * f * s + 2.0 * f * x
  {
  }

  lemma OnePointsError(y: real, x: real, a: real, b: real, c: real, alpha: real, beta: real)
    ensures Square(Residual(x, y, a - alpha + beta * c, b - beta))
         >= Square(Residual(x, y, a, b)) + 2.0 * alpha * Residual(x, y, a, b)
            + 2.0 * beta * ((x - c) * Residual(x, y, a, b))
  {
    var e, d := y - a - b * x, alpha + beta * (x - c);
    assert (b - beta) * x == b * x - beta * x && beta * (x - c) == beta * x - beta * c;
    assert Residual(x, y, a - alpha + beta * c, b - beta) == e + d;
    SquareOfSum(e, d);
    assert 2.0 * e * d == 2.0 * alpha * e + 2.0 * beta * ((x - c) * e) by {
      assert e * (beta * (x - c)) == beta * ((x - c) * e);
      assert e * d == e * alpha + e * (beta * (x - c));
    }
  }

  lemma SquareOfSum(e: real, d: real)
    ensures Square(e + d) >= Square(e) + 2.0 * e * d
  {
    assert Square(e + d) == Square(e) + 2.0 * e * d + Square(d);
  }

  /** Around the means, the line with the computed slope leaves residuals that cancel out, weighted by x or not. */
  lemma ResidualsCancel(ys: seq<real>)
    requires |ys| >= 2
    ensures var axis, b := Axis(|ys|), LinearSlope(ys).value;
      var rs := Residuals(axis, ys, Intercept(ys, b), b);
      Sum(rs) == 0.0 && Cross(axis, rs, Mean(axis)) == 0.0
  {
    hide Square, Mean, Scatter, Cross, Sum, Quotient, Residuals;
    var axis, n, b := Axis(|ys|), |ys| as real, LinearSlope(ys).value;
    var c, a := Mean(axis), Intercept(ys, b);
    AxisSpreads(|ys|);
    ScatterAroundMean(axis);
    ScatterAroundMean(ys);
    SumOfResiduals(axis, ys, a, b);
    CrossOfResiduals(axis, ys, a, b, c);
    QuotientTimes(Cross(axis, ys, c), Scatter(axis, c));
    Cancelled(Sum(Residuals(axis, ys, a, b)), Cross(axis, Residuals(axis, ys, a, b), c), n, Sum(axis), Sum(ys), a, b, c,
              Mean(ys),
              Cross(axis, ys, c), Scatter(axis, c));
  }

  /** The line of this slope through the means. */
  function Intercept(ys: seq<real>, slope: real): real
    requires ys != []
  {
    Mean(ys) - slope * Mean(Axis(|ys|))
  }

  lemma QuotientTimes(x: real, d: real)
    requires d > 0.0
    ensures Quotient(x, d) * d == x
  {
  }

  lemma Cancelled(sum: real, cross: real, n: real, sx: real, sy: real, a: real, b: real, c: real, m: real, sxy: real,
                  sxx: real)
    requires sum == sy - n * a - b * sx && cross == sxy - b * sxx - (a + b * c) * (sx - n * c)
    requires sx == n * c && sy == n * m && a == m - b * c && b * sxx == sxy
    ensures sum == 0.0 && cross == 0.0
  {
    assert n * a == n * m - n * (b * c);
    assert b * sx == n * (b * c);
    assert (a + b * c) * (sx - n * c) == 0.0;
  }

  lemma {:induction false} SumOfResiduals(xs: seq<real>, ys: seq<real>, a: real, b: real)
    requires |xs| == |ys|
    ensures Sum(Residuals(xs, ys, a, b)) == Sum(ys) - |xs| as real * a - b * Sum(xs)
  {
    hide Residual;
    var rs := Residuals(xs, ys, a, b);
    if xs != [] {
      var k := |xs| - 1;
      LastResidual(xs[k], ys[k], a, b);
      SumOfResiduals(xs[..k], ys[..k], a, b);
      ResidualsPrefix(xs, ys, a, b, k);
      ResidualSpread(k as real, a, b, Sum(xs[..k]), xs[k]);
      assert |xs| as real == k as real + 1.0;
    }
  }

  lemma LastResidual(x: real, y: real, a: real, b: real)
    ensures Residual(x, y, a, b) == y - a - b * x
  {
  }

  lemma ResidualSpread(k: real, a: real, b: real, s: real, x: real)
    ensures (k + 1.0) * a == k * a + a && b * (s + x) == b * s + b * x
  {
  }

  lemma {:induction false} CrossOfResiduals(xs: seq<real>, ys: seq<real>, a: real, b: real, c: real)
    requires |xs| == |ys|
    ensures Cross(xs, Residuals(xs, ys, a, b), c)
         == Cross(xs, ys, c) - b * Scatter(xs, c) - (a + b * c) * (Sum(xs) - |xs| as real * c)
  {
    hide Square, Residual;
    var rs := Residuals(xs, ys, a, b);
    if xs != [] {
      var k := |xs| - 1;
      CrossOfResiduals(xs[..k], ys[..k], a, b, c);
      ResidualsPrefix(xs, ys, a, b, k);
      OneCross(xs[k], ys[k], a, b, c);
      CrossSpread(b, Scatter(xs[..k], c), Square(xs[k] - c), a + b * c, Sum(xs[..k]) - k as real * c, xs[k] - c);
      assert |xs| as real * c == k as real * c + c by { ResidualSpread(k as real, c, 0.0, 0.0, 0.0); }
    } else {
      assert rs == [];
      assert (a + b * c) * (0.0 - 0.0 * c) == 0.0 && b * 0.0 == 0.0;
    }
  }

  lemma CrossSpread(b: real, s: real, q: real, f: real, t: real, u: real)
    ensures b * (s + q) == b * s + b * q && f * (t + u) == f * t + f * u
  {
  }

  lemma OneCross(x: real, y: real, a: real, b: real, c: real)
    ensures (x - c) * Residual(x, y, a, b) == (x - c) * y - b * Square(x - c) - (a + b * c) * (x - c)
  {
    assert b * x == b * (x - c) + b * c;
    assert (x - c) * (b * (x - c)) == b * ((x - c) * (x - c));
    assert (x - c) * (y - a - b * x) == (x - c) * y - (x - c) * (a + b * c) - (x - c) * (b * (x - c));
  }

  /** Where the residuals cancel, no other line does better. */
  lemma OtherLine(xs: seq<real>, ys: seq<real>, best: real, slope: real, c: real, a: real, b: real)
    requires |xs| == |ys|
    requires Sum(Residuals(xs, ys, best, slope)) == 0.0 && Cross(xs, Residuals(xs, ys, best, slope), c) == 0.0
    ensures SquaredError(xs, ys, best, slope) <= SquaredError(xs, ys, a, b)
  {
    hide Sum, Cross, Residuals, SquaredError;
    var beta := slope - b;
    var alpha := best + beta * c - a;
    ErrorOfOtherLine(xs, ys, best, slope, c, alpha, beta);
    var x, y := best - alpha + beta * c, slope - beta;
    assert x == a && y == b;
    assert 2.0 * alpha * 0.0 == 0.0 && 2.0 * beta * 0.0 == 0.0;
  }

  /** No line fits the values better than the one with the computed slope. */
  lemma SlopeIsLeastSquares(ys: seq<real>, a: real, b: real)
    requires |ys| >= 2
    ensures var axis, slope := Axis(|ys|), LinearSlope(ys).value;
      SquaredError(axis, ys, Intercept(ys, slope), slope) <= SquaredError(axis, ys, a, b)
  {
    hide Square, Mean, Scatter, Cross, Sum, SquaredError, Residuals, Quotient, Axis, Intercept;
    var axis, slope := Axis(|ys|), LinearSlope(ys).value;
    var c, best := Mean(axis), Intercept(ys, slope);
    ResidualsCancel(ys);
    OtherLine(axis, ys, best, slope, c, a, b);
  }

  // No look-ahead

  /** Appending later quarters changes no earlier row. */
  lemma {:induction false} NoLookAhead(root: real -> real, priorWindow: nat, recentWindow: nat,
                                       series: seq<Option<real>>, later: seq<Option<real>>, n: nat)
    requires priorWindow > 0 && recentWindow > 0 && n <= |series|
    ensures Rows(root, priorWindow, recentWindow, series + later, |series| + |later|)[..n]
         == Rows(root, priorWindow, recentWindow, series, |series|)[..n]
         == Rows(root, priorWindow, recentWindow, series, n)
  {
    RowsPrefix(root, priorWindow, recentWindow, series + later, |series| + |later|, n);
    RowsPrefix(root, priorWindow, recentWindow, series, |series|, n);
    SamePrefix(root, priorWindow, recentWindow, series, later, n);
  }

  lemma {:induction false} RowsPrefix(root: real -> real, priorWindow: nat, recentWindow: nat,
                                      series: seq<Option<real>>, m: nat, n: nat)
    requires priorWindow > 0 && recentWindow > 0 && n <= m <= |series|
    ensures Rows(root, priorWindow, recentWindow, series, m)[..n] == Rows(root, priorWindow, recentWindow, series, n)
  {
    hide RowAt;
    if n < m {
      RowsPrefix(root, priorWindow, recentWindow, series, m - 1, n);
    }
  }

  lemma {:induction false} SamePrefix(root: real -> real, priorWindow: nat, recentWindow: nat,
                                      series: seq<Option<real>>, later: seq<Option<real>>, n: nat)
    requires priorWindow > 0 && recentWindow > 0 && n <= |series|
    ensures Rows(root, priorWindow, recentWindow, series + later, n) == Rows(root, priorWindow, recentWindow, series, n)
  {
    hide RowAt, Known;
    if n > 0 {
      SamePrefix(root, priorWindow, recentWindow, series, later, n - 1);
      assert (series + later)[..n] == series[..n];
    }
  }

  // Shifting and mirroring the series

  function Move(x: real, sign: real, offset: real): real {
    sign * x + offset
  }

  /** Two series that differ by a factor of 1 or -1 and a constant: y = sign * x + offset. */
  ghost predicate Moved(xs: seq<real>, ys: seq<real>, sign: real, offset: real) {
    |xs| == |ys| && forall k :: 0 <= k < |xs| ==> ys[k] == Move(xs[k], sign, offset)
  }

  lemma {:induction false} SumMoves(xs: seq<real>, ys: seq<real>, sign: real, offset: real)
    requires Moved(xs, ys, sign, offset)
    ensures Sum(ys) == sign * Sum(xs) + |xs| as real * offset
  {
    if xs != [] {
      var k := |xs| - 1;
      SumMoves(xs[..k], ys[..k], sign, offset);
      OneMore(sign, Sum(xs[..k]), xs[k], offset, k as real);
      assert |xs| as real == k as real + 1.0;
    }
  }

  lemma OneMore(sign: real, s: real, x: real, offset: real, k: real)
    ensures sign * (s + x) == sign * s + sign * x
    ensures (k + 1.0) * offset == k * offset + offset
  {
  }

  lemma MeanMoves(xs: seq<real>, ys: seq<real>, sign: real, offset: real)
    requires Moved(xs, ys, sign, offset) && xs != []
    ensures Mean(ys) == Move(Mean(xs), sign, offset)
  {
    SumMoves(xs, ys, sign, offset);
    MovedMean(|xs| as real, Sum(xs), sign, offset);
  }

  lemma MovedMean(n: real, s: real, sign: real, offset: real)
    requires n > 0.0
    ensures (sign * s + n * offset) / n == sign * (s / n) + offset
  {
    var q := s / n;
    assert s == q * n;
    assert sign * s + n * offset == (sign * q + offset) * n;
  }

  lemma {:induction false} ScatterMoves(xs: seq<real>, ys: seq<real>, sign: real, offset: real, c: real)
    requires Moved(xs, ys, sign, offset) && (sign == 1.0 || sign == -1.0)
    ensures Scatter(ys, Move(c, sign, offset)) == Scatter(xs, c)
  {
    hide Square, Move;
    if xs != [] {
      var k := |xs| - 1;
      ScatterMoves(xs[..k], ys[..k], sign, offset, c);
      SquareMoves(xs[k], sign, offset, c);
    }
  }

  lemma SquareMoves(x: real, sign: real, offset: real, c: real)
    requires sign == 1.0 || sign == -1.0
    ensures Square(Move(x, sign, offset) - Move(c, sign, offset)) == Square(x - c)
  {
    assert (c - x) * (c - x) == (x - c) * (x - c);
  }

  lemma VarianceMoves(xs: seq<real>, ys: seq<real>, sign: real, offset: real)
    requires Moved(xs, ys, sign, offset) && (sign == 1.0 || sign == -1.0) && xs != []
    ensures Variance(ys) == Variance(xs)
  {
    hide Mean, Scatter;
    MeanMoves(xs, ys, sign, offset);
    ScatterMoves(xs, ys, sign, offset, Mean(xs));
  }

  lemma {:induction false} CrossMoves(axis: seq<real>, xs: seq<real>, ys: seq<real>, sign: real, offset: real, c: real)
    requires Moved(xs, ys, sign, offset) && |axis| == |xs|
    ensures Cross(axis, ys, c) == sign * Cross(axis, xs, c) + offset * (Sum(axis) - |axis| as real * c)
  {
    hide Move;
    if xs != [] {
      var k := |xs| - 1;
      CrossMoves(axis[..k], xs[..k], ys[..k], sign, offset, c);
      assert |axis| as real == k as real + 1.0;
      CrossStep(Cross(axis[..k], xs[..k], c), Sum(axis[..k]), axis[k], xs[k], sign, offset, c, k as real);
    } else {
      assert 0.0 * c == 0.0 && offset * 0.0 == 0.0 && sign * 0.0 == 0.0;
    }
  }

  lemma CrossStep(q: real, s: real, a: real, x: real, sign: real, offset: real, c: real, k: real)
    ensures sign * q + offset * (s - k * c) + (a - c) * Move(x, sign, offset)
         == sign * (q + (a - c) * x) + offset * (s + a - (k + 1.0) * c)
  {
    assert (a - c) * (sign * x + offset) == sign * ((a - c) * x) + offset * (a - c);
    assert offset * (s + a - (k + 1.0) * c) == offset * (s - k * c) + offset * (a - c);
    assert sign * (q + (a - c) * x) == sign * q + sign * ((a - c) * x);
  }

  lemma SlopeMoves(xs: seq<real>, ys: seq<real>, sign: real, offset: real)
    requires Moved(xs, ys, sign, offset)
    ensures LinearSlope(xs).Some? <==> LinearSlope(ys).Some?
    ensures LinearSlope(xs).Some? ==> LinearSlope(ys).value == sign * LinearSlope(xs).value
  {
    hide Mean, Cross, Scatter, Quotient;
    if |xs| >= 2 {
      var axis := Axis(|xs|);
      AxisSpreads(|xs|);
      CrossMoves(axis, xs, ys, sign, offset, Mean(axis));
      ScatterAroundMean(axis);
      assert offset * (Sum(axis) - |axis| as real * Mean(axis)) == 0.0;
      assert Cross(axis, ys, Mean(axis)) == sign * Cross(axis, xs, Mean(axis));
      assert LinearSlope(ys) == Some(Quotient(Cross(axis, ys, Mean(axis)), Scatter(axis, Mean(axis))));
      Factored(sign, Cross(axis, xs, Mean(axis)), Cross(axis, ys, Mean(axis)), Scatter(axis, Mean(axis)));
    }
  }

  lemma Factored(sign: real, x: real, y: real, d: real)
    requires d > 0.0 && y == sign * x
    ensures Quotient(y, d) == sign * Quotient(x, d)
  {
    var q := x / d;
    assert x == q * d;
    assert sign * x == (sign * q) * d;
  }

  function Mirrored(d: Direction, sign: real): Direction {
    if sign == 1.0 then d
    else match d
      case Improving => Deteriorating
      case Deteriorating => Improving
      case _ => d
  }

  lemma StreakMoves(xs: seq<real>, ys: seq<real>, sign: real, offset: real)
    requires Moved(xs, ys, sign, offset) && (sign == 1.0 || sign == -1.0)
    ensures StreakDirection(ys) == (Mirrored(StreakDirection(xs).0, sign), StreakDirection(xs).1)
  {
    if |xs| >= 3 {
      forall k | 0 < k < |xs| ensures ys[k] - ys[k - 1] == sign * (xs[k] - xs[k - 1]) {
        assert ys[k] == sign * xs[k] + offset && ys[k - 1] == sign * xs[k - 1] + offset;
      }
      if sign == 1.0 {
        assert Rising(ys) <==> Rising(xs);
        assert Falling(ys) <==> Falling(xs);
      } else {
        assert Rising(ys) <==> Falling(xs);
        assert Falling(ys) <==> Rising(xs);
        assert !(xs[1] - xs[0] > 0.0 && xs[1] - xs[0] < 0.0);
      }
    }
  }

  /** The same row, up to where it lies and which way it points. */
  ghost predicate AlikeUpTo(r: TrendRow, m: TrendRow, sign: real, offset: real) {
    && m.historyPoints == r.historyPoints && m.shortHistory == r.shortHistory
    && m.score == r.score && m.signalType == r.signalType
    && m.direction == Mirrored(r.direction, sign) && m.streak == r.streak
    && (m.windows.Some? <==> r.windows.Some?)
    && (r.windows.Some? ==> MovedWindows(r.windows.value, m.windows.value, sign, offset))
  }

  ghost predicate MovedWindows(w: Windows, m: Windows, sign: real, offset: real) {
    && m.priorMean == Move(w.priorMean, sign, offset) && m.recentMean == Move(w.recentMean, sign, offset)
    && m.meanShift == sign * w.meanShift
    && (m.slopeShift.Some? <==> w.slopeShift.Some?)
    && (w.slopeShift.Some? ==> m.slopeShift.value == sign * w.slopeShift.value)
  }

  lemma RowMoves(root: real -> real, priorWindow: nat, recentWindow: nat, xs: seq<real>, ys: seq<real>,
                 vx: Option<real>, vy: Option<real>, sign: real, offset: real)
    requires priorWindow > 0 && recentWindow > 0
    requires Moved(xs, ys, sign, offset) && (sign == 1.0 || sign == -1.0)
    ensures AlikeUpTo(RowAt(root, priorWindow, recentWindow, xs, vx), RowAt(root, priorWindow, recentWindow, ys, vy),
                      sign, offset)
  {
    hide WindowRow, Move;
    var hp := |xs|;
    if hp >= priorWindow + recentWindow {
      var a, b := hp - priorWindow - recentWindow, hp - recentWindow;
      WindowRowMoves(root, hp, xs[a..b], xs[b..], xs[b - 1..], ys[a..b], ys[b..], ys[b - 1..], vx, vy, sign, offset);
    }
  }

  lemma WindowRowMoves(root: real -> real, hp: nat, prior: seq<real>, recent: seq<real>, streak: seq<real>,
                       prior': seq<real>, recent': seq<real>, streak': seq<real>, vx: Option<real>, vy: Option<real>,
                       sign: real, offset: real)
    requires prior != [] && recent != [] && (sign == 1.0 || sign == -1.0)
    requires Moved(prior, prior', sign, offset) && Moved(recent, recent', sign, offset)
    requires Moved(streak, streak', sign, offset)
    ensures AlikeUpTo(WindowRow(root, hp, prior, recent, streak, vx), WindowRow(root, hp, prior', recent', streak', vy),
                      sign, offset)
  {
    hide Mean, Variance, LinearSlope, StreakDirection, Score, Move, SignalTypeOf, ShiftOf, Mirrored;
    MeanMoves(prior, prior', sign, offset);
    MeanMoves(recent, recent', sign, offset);
    VarianceMoves(prior, prior', sign, offset);
    SlopeMoves(prior, prior', sign, offset);
    SlopeMoves(recent, recent', sign, offset);
    StreakMoves(streak, streak', sign, offset);
    ShiftMoves(Mean(prior), Mean(recent), LinearSlope(prior), LinearSlope(recent), LinearSlope(prior'),
               LinearSlope(recent'), sign, offset);
    ScoreMoves(root, prior, prior', Mean(recent) - Mean(prior), Mean(recent') - Mean(prior'),
               ShiftOf(LinearSlope(prior), LinearSlope(recent)), ShiftOf(LinearSlope(prior'), LinearSlope(recent')),
               StreakDirection(streak).0, sign);
  }

  lemma ShiftMoves(p: real, r: real, ps: Option<real>, rs: Option<real>, qs: Option<real>, ts: Option<real>, sign: real,
                   offset: real)
    requires (ps.Some? <==> qs.Some?) && (rs.Some? <==> ts.Some?)
    requires (ps.Some? ==> qs.value == sign * ps.value) && (rs.Some? ==> ts.value == sign * rs.value)
    ensures Move(r, sign, offset) - Move(p, sign, offset) == sign * (r - p)
    ensures ShiftOf(qs, ts).Some? <==> ShiftOf(ps, rs).Some?
    ensures ShiftOf(ps, rs).Some? ==> ShiftOf(qs, ts).value == sign * ShiftOf(ps, rs).value
  {
  }

  lemma ScoreMoves(root: real -> real, prior: seq<real>, moved: seq<real>, shift: real, movedShift: real,
                   slope: Option<real>, movedSlope: Option<real>, direction: Direction, sign: real)
    requires prior != [] && moved != [] && Variance(moved) == Variance(prior) && (sign == 1.0 || sign == -1.0)
    requires movedShift == sign * shift && (slope.Some? <==> movedSlope.Some?)
    requires slope.Some? ==> movedSlope.value == sign * slope.value
    ensures Score(root, moved, movedShift, movedSlope, Mirrored(direction, sign))
         == Score(root, prior, shift, slope, direction)
  {
    hide Variance;
    assert Abs(movedShift) == Abs(shift);
  }

  /** The known values move with the series. */
  lemma {:induction false} KnownMoves(series: seq<Option<real>>, moved: seq<Option<real>>, sign: real, offset: real)
    requires MovedSeries(series, moved, sign, offset)
    ensures Moved(Known(series), Known(moved), sign, offset)
  {
    if series != [] {
      var k := |series| - 1;
      KnownMoves(series[..k], moved[..k], sign, offset);
    }
  }

  ghost predicate MovedSeries(series: seq<Option<real>>, moved: seq<Option<real>>, sign: real, offset: real) {
    |series| == |moved| && forall k :: 0 <= k < |series| ==>
      (series[k].Some? <==> moved[k].Some?)
      && (series[k].Some? ==> moved[k].value == Move(series[k].value, sign, offset))
  }

  /**
   Adding a constant to the series changes no score, type, slope or direction; negating it keeps every score and
   type and swaps improving with deteriorating.
   */
  lemma TrendMoves(root: real -> real, priorWindow: nat, recentWindow: nat, series: seq<Option<real>>,
                   moved: seq<Option<real>>, sign: real, offset: real, k: nat)
    requires priorWindow > 0 && recentWindow > 0 && k < |series|
    requires MovedSeries(series, moved, sign, offset) && (sign == 1.0 || sign == -1.0)
    ensures AlikeUpTo(Rows(root, priorWindow, recentWindow, series, |series|)[k],
                      Rows(root, priorWindow, recentWindow, moved, |series|)[k], sign, offset)
  {
    hide RowAt, AlikeUpTo, Known, Move;
    RowsPrefix(root, priorWindow, recentWindow, series, |series|, k + 1);
    RowsPrefix(root, priorWindow, recentWindow, moved, |series|, k + 1);
    KnownMoves(series[..k + 1], moved[..k + 1], sign, offset);
    RowMoves(root, priorWindow, recentWindow, Known(series[..k + 1]), Known(moved[..k + 1]), series[k], moved[k], sign,
             offset);
  }
}
