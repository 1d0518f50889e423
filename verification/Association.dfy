/**
 agentic/experiments/stats.py: Cramer's V of a contingency table, and the evidence strength read off a test's summary.
 V is kept as its square, so that no square root is needed.
 */
module Association {
  import opened Outcomes
  import opened Moments

  /** A two-dimensional array: its second dimension, and its rows. */
  datatype Grid = Grid(width: nat, rows: seq<seq<real>>) {
    predicate Shaped() {
      forall i :: 0 <= i < |rows| ==> |rows[i]| == width
    }
  }

  /** A contingency table counts something: no cell is negative. */
  predicate Contingency(t: Grid) {
    t.Shaped() && forall i, j :: 0 <= i < |t.rows| && 0 <= j < t.width ==> t.rows[i][j] >= 0.0
  }

  function RowSums(t: Grid): (r: seq<real>)
    ensures |r| == |t.rows| && forall i :: 0 <= i < |r| ==> r[i] == Sum(t.rows[i])
  {
    seq(|t.rows|, i requires 0 <= i < |t.rows| => Sum(t.rows[i]))
  }

  function Transpose(t: Grid): (r: Grid)
    requires t.Shaped()
    ensures r.Shaped() && r.width == |t.rows| && |r.rows| == t.width
    ensures forall i, j :: 0 <= i < |t.rows| && 0 <= j < t.width ==> r.rows[j][i] == t.rows[i][j]
  {
    Grid(|t.rows|,
         seq(t.width, j requires 0 <= j < t.width => seq(|t.rows|, i requires 0 <= i < |t.rows| => t.rows[i][j])))
  }

  function ColSums(t: Grid): (r: seq<real>)
    requires t.Shaped()
    ensures |r| == t.width
  {
    RowSums(Transpose(t))
  }

  function Total(t: Grid): real {
    Sum(RowSums(t))
  }

  /** One cell's share of chi-squared; a cell that is expected empty has none. */
  function Share(observed: real, expected: real): real {
    if expected > 0.0 then (observed - expected) * (observed - expected) / expected else 0.0
  }

  function Independent(r: real, c: real, n: real): real
    requires n != 0.0
  {
    r * c / n
  }

  /** What independence would expect in a cell. */
  function Expected(t: Grid, i: nat, j: nat): real
    requires t.Shaped() && Total(t) != 0.0 && i < |t.rows| && j < t.width
  {
    Independent(RowSums(t)[i], ColSums(t)[j], Total(t))
  }

  function ShareRow(t: Grid, i: nat): (r: seq<real>)
    requires t.Shaped() && Total(t) != 0.0 && i < |t.rows|
    ensures |r| == t.width
    ensures forall j :: 0 <= j < t.width ==> r[j] == Share(t.rows[i][j], Expected(t, i, j))
  {
    seq(t.width, j requires 0 <= j < t.width => Share(t.rows[i][j], Expected(t, i, j)))
  }

  function Shares(t: Grid): (r: Grid)
    requires t.Shaped() && Total(t) != 0.0
    ensures r.Shaped() && r.width == t.width && |r.rows| == |t.rows|
    ensures forall i :: 0 <= i < |t.rows| ==> r.rows[i] == ShareRow(t, i)
  {
    Grid(t.width, seq(|t.rows|, i requires 0 <= i < |t.rows| => ShareRow(t, i)))
  }

  function Min(a: nat, b: nat): nat {
    if a <= b then a else b
  }

  /** What cramers_v returns: chi-squared and V are not defined for an empty or one-line table. */
  datatype Strength = NoStrength(n: real) | Strength(chi2: real, vSquared: real, n: real, dof: int)

  function VSquared(chi2: real, n: real, k: int): real
    requires n != 0.0 && k > 0
  {
    chi2 / (n * k as real)
  }

  function CramersV(t: Grid): Strength
    requires t.Shaped()
  {
    var n := Total(t);
    if n == 0.0 || |t.rows| < 2 || t.width < 2 then NoStrength(n)
    else
      var chi2 := Total(Shares(t));
      Strength(chi2, VSquared(chi2, n, Min(|t.rows|, t.width) - 1), n, (|t.rows| - 1) * (t.width - 1))
  }

  // Rows and columns

  lemma {:induction false} SumAdds(xs: seq<real>, ys: seq<real>, zs: seq<real>)
    requires |xs| == |ys| == |zs| && forall k :: 0 <= k < |xs| ==> zs[k] == xs[k] + ys[k]
    ensures Sum(zs) == Sum(xs) + Sum(ys)
  {
    if xs != [] {
      var n := |xs| - 1;
      SumAdds(xs[..n], ys[..n], zs[..n]);
    }
  }

  /** Summing by rows or by columns gives the same total. */
  lemma {:induction false} TotalTransposed(t: Grid)
    requires t.Shaped()
    ensures Total(Transpose(t)) == Total(t)
    decreases |t.rows|
  {
    hide Sum, Transpose;
    if t.rows == [] {
      NoRowsNoTotal(t);
    } else {
      var n := |t.rows| - 1;
      TotalTransposed(t.(rows := t.rows[..n]));
      LastRowAdds(t);
    }
  }

  lemma NoRowsNoTotal(t: Grid)
    requires t.rows == []
    ensures Total(Transpose(t)) == Total(t) == 0.0
  {
    SumOfZeros(ColSums(t));
  }

  /** The last row's cells go into the row total and, one by one, into the column totals. */
  lemma LastRowAdds(t: Grid)
    requires t.Shaped() && t.rows != []
    ensures var n := |t.rows| - 1;
      var front := t.(rows := t.rows[..n]);
      Total(t) == Total(front) + Sum(t.rows[n]) && Total(Transpose(t)) == Total(Transpose(front)) + Sum(t.rows[n])
  {
    hide Transpose;
    var n := |t.rows| - 1;
    var front := t.(rows := t.rows[..n]);
    forall j | 0 <= j < t.width ensures ColSums(t)[j] == ColSums(front)[j] + t.rows[n][j] {
      LastCellAdds(t, j);
    }
    SumAdds(ColSums(front), t.rows[n], ColSums(t));
    assert RowSums(t)[..n] == RowSums(front);
  }

  lemma LastCellAdds(t: Grid, j: nat)
    requires t.Shaped() && t.rows != [] && j < t.width
    ensures ColSums(t)[j] == ColSums(t.(rows := t.rows[..|t.rows| - 1]))[j] + t.rows[|t.rows| - 1][j]
  {
    var n := |t.rows| - 1;
    assert Transpose(t).rows[j][..n] == Transpose(t.(rows := t.rows[..n])).rows[j];
  }

  lemma {:induction false} SumOfZeros(xs: seq<real>)
    requires forall k :: 0 <= k < |xs| ==> xs[k] == 0.0
    ensures Sum(xs) == 0.0
  {
    if xs != [] {
      SumOfZeros(xs[..|xs| - 1]);
    }
  }

  lemma {:induction false} MemberAtMostSum(xs: seq<real>, i: nat)
    requires i < |xs| && forall k :: 0 <= k < |xs| ==> xs[k] >= 0.0
    ensures 0.0 <= xs[i] <= Sum(xs)
  {
    var n := |xs| - 1;
    if i < n {
      MemberAtMostSum(xs[..n], i);
    } else if n > 0 {
      MemberAtMostSum(xs[..n], 0);
    }
  }

  /** A bound on every term bounds the sum. */
  lemma {:induction false} SumBounded(xs: seq<real>, os: seq<real>, cs: seq<real>, a: real, b: real)
    requires |xs| == |os| == |cs| && forall k :: 0 <= k < |xs| ==> xs[k] <= a * os[k] + b * cs[k]
    ensures Sum(xs) <= a * Sum(os) + b * Sum(cs)
  {
    if xs != [] {
      var n := |xs| - 1;
      SumBounded(xs[..n], os[..n], cs[..n], a, b);
      Spread(a, Sum(os[..n]), os[n]);
      Spread(b, Sum(cs[..n]), cs[n]);
    }
  }

  lemma Spread(a: real, s: real, x: real)
    ensures a * (s + x) == a * s + a * x
  {
  }

  // The bound

  /** One cell's share, where its row adds up to r, its column to c and the table to n. */
  lemma ShareBounded(o: real, r: real, c: real, n: real)
    requires 0.0 <= o <= c && r > 0.0 && n > 0.0
    ensures Share(o, Independent(r, c, n)) <= (n / r - 2.0) * o + (r / n) * c
  {
    var b := r / n;
    assert b > 0.0 && n / r * b == 1.0 by {
      assert b * n == r && n / r * r == n;
      assert n / r * (b * n) == (n / r * b) * n;
    }
    assert r * c / n == b * c;
    if c == 0.0 {
      assert b * c == 0.0 && (n / r - 2.0) * o == 0.0;
    } else {
      assert b * c > 0.0;
      ShareOfExpected(o, c, b, n / r);
    }
  }

  lemma ShareOfExpected(o: real, c: real, b: real, a: real)
    requires 0.0 <= o <= c && b * c > 0.0 && a * b == 1.0
    ensures Share(o, b * c) <= (a - 2.0) * o + b * c
  {
    var e := b * c;
    var bound := (a - 2.0) * o + e;
    assert bound * e == (a * b) * (o * c) - 2.0 * o * e + e * e by {
      assert (a - 2.0) * o * e == a * o * (b * c) - 2.0 * o * e;
      assert a * o * (b * c) == (a * b) * (o * c);
    }
    assert (o - e) * (o - e) == o * o - 2.0 * o * e + e * e;
    assert o * o <= o * c;
    Divided((o - e) * (o - e), bound, e);
  }

  lemma Divided(x: real, y: real, e: real)
    requires e > 0.0 && x <= y * e
    ensures x / e <= y
  {
    assert x / e * e == x;
    assert (y - x / e) * e >= 0.0;
  }

  lemma CellBounded(t: Grid, i: nat, j: nat)
    requires Contingency(t) && i < |t.rows| && j < t.width && Total(t) > 0.0
    requires RowSums(t)[i] > 0.0 && t.rows[i][j] <= ColSums(t)[j]
    ensures Shares(t).rows[i][j]
         <= (Total(t) / RowSums(t)[i] - 2.0) * t.rows[i][j] + (RowSums(t)[i] / Total(t)) * ColSums(t)[j]
  {
    hide Share, Total, ColSums, RowSums, Independent;
    ShareBounded(t.rows[i][j], RowSums(t)[i], ColSums(t)[j], Total(t));
    assert ShareRow(t, i)[j] == Share(t.rows[i][j], Expected(t, i, j));
  }

  /** A row's share of chi-squared is at most what the rest of the table holds. */
  lemma RowBounded(t: Grid, i: nat)
    requires Contingency(t) && i < |t.rows| && Total(t) > 0.0
    ensures Sum(Shares(t).rows[i]) <= Total(t) - RowSums(t)[i]
  {
    hide Share, Sum;
    var row, col, n := RowSums(t), ColSums(t), Total(t);
    var r, os, xs := row[i], t.rows[i], Shares(t).rows[i];
    CellsFitRowAndColumn(t, i);
    if r > 0.0 {
      forall j | 0 <= j < t.width ensures xs[j] <= (n / r - 2.0) * os[j] + (r / n) * col[j] {
        CellBounded(t, i, j);
      }
      SumBounded(xs, os, col, n / r - 2.0, r / n);
      TotalTransposed(t);
      assert (n / r - 2.0) * r + r / n * n == n - r;
    } else {
      forall j | 0 <= j < t.width ensures xs[j] == 0.0 {
        NoShare(os[j], r, col[j], n);
        assert xs[j] == Share(os[j], Expected(t, i, j));
      }
      SumOfZeros(xs);
    }
  }

  lemma NoShare(o: real, r: real, c: real, n: real)
    requires r == 0.0
    requires n > 0.0
    ensures Share(o, Independent(r, c, n)) == 0.0
  {
    assert r * c == 0.0;
  }

  lemma CellsFitRowAndColumn(t: Grid, i: nat)
    requires Contingency(t) && i < |t.rows|
    ensures 0.0 <= RowSums(t)[i] <= Total(t)
    ensures forall j :: 0 <= j < t.width ==> 0.0 <= t.rows[i][j] <= ColSums(t)[j]
  {
    forall k | 0 <= k < |t.rows| ensures RowSums(t)[k] >= 0.0 {
      if t.width > 0 {
        MemberAtMostSum(t.rows[k], 0);
      }
    }
    MemberAtMostSum(RowSums(t), i);
    forall j | 0 <= j < t.width ensures 0.0 <= t.rows[i][j] <= ColSums(t)[j] {
      MemberAtMostSum(Transpose(t).rows[j], i);
    }
  }

  /** Over all rows: chi-squared is at most n times one less than their number. */
  lemma Chi2BoundedByRows(t: Grid)
    requires Contingency(t) && Total(t) > 0.0
    ensures Total(Shares(t)) <= Total(t) * (|t.rows| as real - 1.0)
  {
    hide Share, Shares, Sum, Transpose;
    forall i | 0 <= i < |t.rows| ensures RowSums(Shares(t))[i] <= Total(t) - RowSums(t)[i] {
      RowBounded(t, i);
    }
    SumOfRests(RowSums(Shares(t)), RowSums(t), Total(t));
    Spread(Total(t), |t.rows| as real, -1.0);
  }

  lemma {:induction false} SumOfRests(xs: seq<real>, rs: seq<real>, n: real)
    requires |xs| == |rs| && forall i :: 0 <= i < |xs| ==> xs[i] <= n - rs[i]
    ensures Sum(xs) <= n * |xs| as real - Sum(rs)
  {
    if xs != [] {
      var k := |xs| - 1;
      SumOfRests(xs[..k], rs[..k], n);
      Spread(n, k as real, 1.0);
    }
  }

  lemma ExpectedTransposed(t: Grid, i: nat, j: nat)
    requires t.Shaped() && Total(t) != 0.0 && i < |t.rows| && j < t.width
    requires Total(Transpose(t)) == Total(t) && Transpose(Transpose(t)) == t
    ensures Expected(Transpose(t), j, i) == Expected(t, i, j)
  {
    assert RowSums(Transpose(t))[j] == ColSums(t)[j];
    assert ColSums(Transpose(t))[i] == RowSums(t)[i];
  }

  /** The shares of the transposed table are the transposed shares. */
  lemma SharesTransposed(t: Grid)
    requires t.Shaped() && Total(t) != 0.0 && Total(Transpose(t)) != 0.0
    ensures Total(Shares(Transpose(t))) == Total(Shares(t))
  {
    hide Share, Sum, Expected;
    var u := Transpose(t);
    assert Transpose(u) == t by {
      assert forall i :: 0 <= i < |t.rows| ==> Transpose(u).rows[i] == t.rows[i];
    }
    TotalTransposed(t);
    forall j | 0 <= j < t.width ensures Shares(u).rows[j] == Transpose(Shares(t)).rows[j] {
      forall i | 0 <= i < |t.rows| ensures Shares(u).rows[j][i] == Transpose(Shares(t)).rows[j][i] {
        ExpectedTransposed(t, i, j);
      }
    }
    assert Shares(u) == Transpose(Shares(t));
    TotalTransposed(Shares(t));
  }

  /** Cramer's V never exceeds 1, whatever rows or columns are empty: 0 <= chi2 <= n * (min(R, C) - 1). */
  lemma CramersVAtMostOne(t: Grid)
    requires Contingency(t) && Total(t) > 0.0 && |t.rows| >= 2 && t.width >= 2
    ensures CramersV(t).Strength?
    ensures 0.0 <= CramersV(t).chi2 <= CramersV(t).n * (Min(|t.rows|, t.width) as real - 1.0)
    ensures 0.0 <= CramersV(t).vSquared <= 1.0
  {
    hide Shares, Total, Transpose;
    Chi2BoundedByRows(t);
    TotalTransposed(t);
    TransposeCounts(t);
    Chi2BoundedByRows(Transpose(t));
    SharesTransposed(t);
    SharesNotNegative(t);
    VAtMostOne(Total(Shares(t)), Total(t), Min(|t.rows|, t.width) - 1);
  }

  lemma VAtMostOne(chi2: real, n: real, k: int)
    requires n > 0.0 && k > 0 && 0.0 <= chi2 <= n * k as real
    ensures 0.0 <= VSquared(chi2, n, k) <= 1.0
  {
    Fraction(chi2, n * k as real);
  }

  lemma TransposeCounts(t: Grid)
    requires Contingency(t)
    ensures Contingency(Transpose(t))
  {
  }

  lemma Fraction(x: real, y: real)
    requires 0.0 <= x <= y && y > 0.0
    ensures 0.0 <= x / y <= 1.0
  {
    assert x / y * y == x;
  }

  lemma SharesNotNegative(t: Grid)
    requires Contingency(t) && Total(t) > 0.0 && t.width > 0 && |t.rows| > 0
    ensures Total(Shares(t)) >= 0.0
  {
    hide Sum;
    var s := Shares(t);
    forall i | 0 <= i < |s.rows| ensures RowSums(s)[i] >= 0.0 {
      forall j | 0 <= j < s.width ensures s.rows[i][j] >= 0.0 {
        ShareNotNegative(t.rows[i][j], Expected(t, i, j));
      }
      MemberAtMostSum(s.rows[i], 0);
    }
    MemberAtMostSum(RowSums(s), 0);
  }

  lemma ShareNotNegative(o: real, e: real)
    ensures Share(o, e) >= 0.0
  {
    if e > 0.0 {
      assert (o - e) * (o - e) >= 0.0;
    }
  }

  // Evidence strength

  datatype Summary = Summary(effectSize: Option<real>, effectSizeKind: Option<string>, pValue: Option<real>,
                             sampleSize: Option<nat>, warnings: seq<string>, coverage: Option<real>)

  /** The effect size that counts as full strength; none for a slope, which has a scale of its own. */
  function Normalizer(kind: string): Option<real> {
    if kind == "cohens_d" then Some(0.8)
    else if kind == "slope" then None
    else Some(1.0)
  }

  function Clamp(x: real): (r: real)
    ensures 0.0 <= r <= 1.0
    ensures 0.0 <= x <= 1.0 ==> r == x
  {
    if x < 0.0 then 0.0 else if x > 1.0 then 1.0 else x
  }

  function Magnitude(x: real): real {
    if x < 0.0 then -x else x
  }

  /** evidence_strength: strength, reliability and coverage, all in [0, 1]. */
  function EvidenceStrength(s: Summary): (r: (real, real, real))
    ensures 0.0 <= r.0 <= 1.0 && 0.0 <= r.1 < 1.0 && 0.0 <= r.2 <= 1.0
  {
    var byPValue := if s.pValue.Some? then Clamp(1.0 - s.pValue.value) else 0.5;
    var strength :=
      if s.effectSize.Some? && s.effectSizeKind.Some? && s.effectSizeKind.value != "" then
        var norm := Normalizer(s.effectSizeKind.value);
        if norm.Some? then Clamp(Magnitude(s.effectSize.value) / norm.value) else byPValue
      else byPValue;
    var n := if s.sampleSize.Some? then s.sampleSize.value as real else 0.0;
    var reliability := if n > 0.0 then n / (n + 30.0) else 0.0;
    (strength, Clamp(if s.warnings != [] then reliability * 0.8 else reliability),
     Clamp(if s.coverage.Some? then s.coverage.value else 1.0))
  }

  /** The effect size of full strength: 0.8 for Cohen's d, none for a slope, 1 for any other named kind. */
  predicate FullEffect(s: Summary, full: real) {
    && s.effectSize.Some? && s.effectSizeKind.Some? && s.effectSizeKind.value !in {"", "slope"}
    && full == if s.effectSizeKind.value == "cohens_d" then 0.8 else 1.0
  }

  /** An effect of full size or more has strength 1, a smaller one its share of that, either way it points. */
  lemma EffectDecidesStrength(s: Summary, full: real)
    requires FullEffect(s, full)
    ensures var strength, effect := EvidenceStrength(s).0, s.effectSize.value;
            && (strength == 1.0 <==> effect >= full || effect <= -full)
            && (0.0 <= effect <= full ==> strength * full == effect)
            && (-full <= effect <= 0.0 ==> strength * full == -effect)
  {
    var x := Magnitude(s.effectSize.value);
    assert Normalizer(s.effectSizeKind.value) == Some(full);
    assert x / full * full == x;
    if x <= full {
      assert 0.0 <= x / full <= 1.0;
    } else {
      assert x / full > 1.0;
    }
  }

  /** Without such an effect the p-value decides; without that too, the strength is a half. */
  lemma PValueDecidesStrength(s: Summary)
    requires forall full :: !FullEffect(s, full)
    ensures s.pValue.None? ==> EvidenceStrength(s).0 == 0.5
    ensures s.pValue.Some? && 0.0 <= s.pValue.value <= 1.0 ==> EvidenceStrength(s).0 == 1.0 - s.pValue.value
    ensures s.pValue.Some? && s.pValue.value > 1.0 ==> EvidenceStrength(s).0 == 0.0
    ensures s.pValue.Some? && s.pValue.value < 0.0 ==> EvidenceStrength(s).0 == 1.0
  {
    assert !FullEffect(s, 0.8) && !FullEffect(s, 1.0);
  }

  /** Reliability grows with the sample towards 1 and is a half at thirty; warnings cost a fifth of it. */
  lemma SampleDecidesReliability(s: Summary, n: nat)
    requires s.sampleSize == Some(n) || (s.sampleSize == None && n == 0)
    ensures EvidenceStrength(s).1 * (n as real + 30.0) == (if s.warnings == [] then n as real else 0.8 * n as real)
    ensures s.coverage.None? ==> EvidenceStrength(s).2 == 1.0
    ensures s.coverage.Some? && 0.0 <= s.coverage.value <= 1.0 ==> EvidenceStrength(s).2 == s.coverage.value
    ensures s.coverage.Some? && s.coverage.value > 1.0 ==> EvidenceStrength(s).2 == 1.0
    ensures s.coverage.Some? && s.coverage.value < 0.0 ==> EvidenceStrength(s).2 == 0.0
  {
    var x, d := n as real, n as real + 30.0;
    assert x / d * d == x;
    assert 0.0 <= x / d <= 1.0;
    assert x / d * 0.8 * d == 0.8 * x;
  }

  /** The clamp never truncates Cramer's V: the strength of an association is V itself. */
  lemma StrengthIsCramersV(t: Grid, v: real, s: Summary)
    requires Contingency(t) && Total(t) > 0.0 && |t.rows| >= 2 && t.width >= 2
    requires v >= 0.0 && v * v == CramersV(t).vSquared
    requires s.effectSize == Some(v) && s.effectSizeKind == Some("cramers_v")
    ensures EvidenceStrength(s).0 == v
  {
    hide Total, CramersV, Contingency;
    CramersVAtMostOne(t);
    RootOfFraction(v);
    assert v / 1.0 == v;
  }

  lemma RootOfFraction(v: real)
    requires v >= 0.0 && v * v <= 1.0
    ensures v <= 1.0
  {
  }
}
