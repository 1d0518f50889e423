/**
 What chi-squared and Cramer's V measure: nothing exactly when every cell is what independence expects, everything
 exactly when each column lies in one row, and between two and two the squared determinant.
 */
module ChiSquared {
  import opened Moments
  import opened Association

  // Nothing

  /** Every cell is its row's total times its column's, over the table's; cross-multiplied. */
  predicate Unassociated(t: Grid)
    requires t.Shaped()
  {
    forall i, j :: 0 <= i < |t.rows| && 0 <= j < t.width ==> t.rows[i][j] * Total(t) == RowSums(t)[i] * ColSums(t)[j]
  }

  lemma {:induction false} SumIsZero(xs: seq<real>)
    requires forall k :: 0 <= k < |xs| ==> xs[k] >= 0.0
    ensures Sum(xs) >= 0.0
    ensures Sum(xs) == 0.0 <==> forall k :: 0 <= k < |xs| ==> xs[k] == 0.0
  {
    if xs != [] {
      SumIsZero(xs[..|xs| - 1]);
      assert forall k :: 0 <= k < |xs| - 1 ==> xs[k] == xs[..|xs| - 1][k];
    }
  }

  /** A table of shares adds up to nothing exactly when every share is nothing. */
  lemma TotalIsZero(t: Grid)
    requires Contingency(t)
    ensures Total(t) == 0.0 <==> forall i, j :: 0 <= i < |t.rows| && 0 <= j < t.width ==> t.rows[i][j] == 0.0
  {
    hide Sum;
    forall i | 0 <= i < |t.rows|
      ensures RowSums(t)[i] >= 0.0
      ensures RowSums(t)[i] == 0.0 <==> forall j :: 0 <= j < t.width ==> t.rows[i][j] == 0.0
    {
      SumIsZero(t.rows[i]);
    }
    SumIsZero(RowSums(t));
  }

  lemma NoProduct(x: real, y: real)
    ensures x * y == 0.0 <==> x == 0.0 || y == 0.0
  {
  }

  lemma ShareIsZero(o: real, r: real, c: real, n: real)
    requires 0.0 <= o <= r && o <= c && n > 0.0
    ensures Share(o, Independent(r, c, n)) == 0.0 <==> o * n == r * c
  {
    var e := r * c / n;
    assert e * n == r * c;
    assert o * n - r * c == (o - e) * n;
    NoProduct(o - e, n);
    NoProduct(r, c);
    NoProduct(o - e, o - e);
    if e > 0.0 {
      SameQuotient((o - e) * (o - e), 0.0, e);
    } else {
      assert r * c >= 0.0;
      assert r * c == 0.0;
    }
  }

  lemma CellsFit(t: Grid, i: nat, j: nat)
    requires Contingency(t) && i < |t.rows| && j < t.width
    ensures 0.0 <= t.rows[i][j] <= RowSums(t)[i] && t.rows[i][j] <= ColSums(t)[j]
  {
    CellsFitRowAndColumn(t, i);
    MemberAtMostSum(t.rows[i], j);
  }

  /** Chi-squared is nothing exactly when the table is what independence expects. */
  lemma NothingMeans(t: Grid)
    requires Contingency(t) && Total(t) > 0.0 && |t.rows| >= 2 && t.width >= 2
    ensures CramersV(t).Strength? && (CramersV(t).chi2 == 0.0 <==> Unassociated(t))
    ensures CramersV(t).vSquared == 0.0 <==> Unassociated(t)
  {
    hide Total, Share, ColSums, RowSums, Independent;
    var s := Shares(t);
    forall i, j | 0 <= i < |t.rows| && 0 <= j < t.width
      ensures s.rows[i][j] >= 0.0
      ensures s.rows[i][j] == 0.0 <==> t.rows[i][j] * Total(t) == RowSums(t)[i] * ColSums(t)[j]
    {
      assert s.rows[i][j] == ShareRow(t, i)[j] == Share(t.rows[i][j], Expected(t, i, j));
      ShareNotNegative(t.rows[i][j], Expected(t, i, j));
      CellsFit(t, i, j);
      ShareIsZero(t.rows[i][j], RowSums(t)[i], ColSums(t)[j], Total(t));
    }
    TotalIsZero(s);
    VIsZero(Total(s), Total(t), Min(|t.rows|, t.width) - 1);
  }

  lemma VIsZero(chi2: real, n: real, k: int)
    requires n > 0.0 && k > 0
    ensures VSquared(chi2, n, k) * (n * k as real) == chi2
    ensures VSquared(chi2, n, k) == 0.0 <==> chi2 == 0.0
    ensures VSquared(chi2, n, k) == 1.0 <==> chi2 == n * k as real
  {
    var d := n * k as real;
    assert chi2 / d * d == chi2;
  }

  // Everything

  /** Each column lies in a single row. */
  predicate ColumnsInOneRow(t: Grid)
    requires t.Shaped()
  {
    forall i, j :: 0 <= i < |t.rows| && 0 <= j < t.width ==> t.rows[i][j] == 0.0 || t.rows[i][j] == ColSums(t)[j]
  }

  /** The bound on a cell's share is attained exactly by an empty cell and by one that holds its whole column. */
  lemma ShareAttains(o: real, r: real, c: real, n: real)
    requires 0.0 <= o <= c && r > 0.0 && n > 0.0
    ensures Share(o, Independent(r, c, n)) == (n / r - 2.0) * o + (r / n) * c <==> o == 0.0 || o == c
  {
    var b := r / n;
    assert b > 0.0 && n / r * b == 1.0 by {
      assert b * n == r && n / r * r == n;
      assert n / r * (b * n) == (n / r * b) * n;
    }
    assert r * c / n == b * c;
    if c == 0.0 {
      assert b * c == 0.0 && (n / r - 2.0) * o == 0.0;
    } else {
      assert b * c > 0.0;
      ExpectedAttains(o, c, b, n / r);
    }
  }

  lemma ExpectedAttains(o: real, c: real, b: real, a: real)
    requires 0.0 <= o <= c && b * c > 0.0 && a * b == 1.0
    ensures Share(o, b * c) == (a - 2.0) * o + b * c <==> o == 0.0 || o == c
  {
    var e := b * c;
    var bound := (a - 2.0) * o + e;
    assert bound * e == (a * b) * (o * c) - 2.0 * o * e + e * e by {
      assert (a - 2.0) * o * e == a * o * (b * c) - 2.0 * o * e;
      assert a * o * (b * c) == (a * b) * (o * c);
    }
    assert (o - e) * (o - e) == o * o - 2.0 * o * e + e * e;
    SameQuotient((o - e) * (o - e), bound, e);
    assert o * c - o * o == o * (c - o);
  }

  lemma SameQuotient(x: real, y: real, e: real)
    requires e > 0.0
    ensures x / e == y <==> x == y * e
  {
    assert x / e * e == x;
  }

  /** A sum of smaller terms is smaller, and the same exactly when every term is. */
  lemma {:induction false} SumBelow(xs: seq<real>, ys: seq<real>)
    requires |xs| == |ys| && forall k :: 0 <= k < |xs| ==> xs[k] <= ys[k]
    ensures Sum(xs) <= Sum(ys)
    ensures Sum(xs) == Sum(ys) <==> forall k :: 0 <= k < |xs| ==> xs[k] == ys[k]
  {
    if xs != [] {
      var n := |xs| - 1;
      SumBelow(xs[..n], ys[..n]);
      assert forall k :: 0 <= k < n ==> xs[k] == xs[..n][k] && ys[k] == ys[..n][k];
    }
  }

  lemma {:induction false} SumIsLinear(ys: seq<real>, os: seq<real>, cs: seq<real>, a: real, b: real)
    requires |ys| == |os| == |cs| && forall k :: 0 <= k < |ys| ==> ys[k] == a * os[k] + b * cs[k]
    ensures Sum(ys) == a * Sum(os) + b * Sum(cs)
  {
    if ys != [] {
      var n := |ys| - 1;
      SumIsLinear(ys[..n], os[..n], cs[..n], a, b);
      Spread(a, Sum(os[..n]), os[n]);
      Spread(b, Sum(cs[..n]), cs[n]);
    }
  }

  /** A sum attains a bound on its terms exactly when every term does. */
  lemma SumAttains(xs: seq<real>, os: seq<real>, cs: seq<real>, a: real, b: real)
    requires |xs| == |os| == |cs| && forall k :: 0 <= k < |xs| ==> xs[k] <= a * os[k] + b * cs[k]
    ensures Sum(xs) <= a * Sum(os) + b * Sum(cs)
    ensures Sum(xs) == a * Sum(os) + b * Sum(cs) <==> forall k :: 0 <= k < |xs| ==> xs[k] == a * os[k] + b * cs[k]
  {
    hide Sum;
    var ys := seq(|xs|, k requires 0 <= k < |xs| => a * os[k] + b * cs[k]);
    SumIsLinear(ys, os, cs, a, b);
    SumBelow(xs, ys);
  }

  predicate RowInOneRow(t: Grid, i: nat)
    requires t.Shaped() && i < |t.rows|
  {
    forall j :: 0 <= j < t.width ==> t.rows[i][j] == 0.0 || t.rows[i][j] == ColSums(t)[j]
  }

  lemma RowAttains(t: Grid, i: nat)
    requires Contingency(t) && i < |t.rows| && Total(t) > 0.0 && RowSums(t)[i] > 0.0
    ensures Sum(Shares(t).rows[i]) <= Total(t) - RowSums(t)[i]
    ensures Sum(Shares(t).rows[i]) == Total(t) - RowSums(t)[i] <==> RowInOneRow(t, i)
  {
    hide Share, Sum;
    var row, col, n := RowSums(t), ColSums(t), Total(t);
    var r, os, xs := row[i], t.rows[i], Shares(t).rows[i];
    CellsFitRowAndColumn(t, i);
    forall j | 0 <= j < t.width
      ensures xs[j] <= (n / r - 2.0) * os[j] + (r / n) * col[j]
      ensures xs[j] == (n / r - 2.0) * os[j] + (r / n) * col[j] <==> os[j] == 0.0 || os[j] == col[j]
    {
      CellBounded(t, i, j);
      CellAttains(t, i, j);
    }
    SumAttains(xs, os, col, n / r - 2.0, r / n);
    TotalTransposed(t);
    assert (n / r - 2.0) * r + r / n * n == n - r;
  }

  lemma CellAttains(t: Grid, i: nat, j: nat)
    requires Contingency(t) && i < |t.rows| && j < t.width && Total(t) > 0.0
    requires RowSums(t)[i] > 0.0 && t.rows[i][j] <= ColSums(t)[j]
    ensures Shares(t).rows[i][j]
            == (Total(t) / RowSums(t)[i] - 2.0) * t.rows[i][j] + (RowSums(t)[i] / Total(t)) * ColSums(t)[j]
       <==> t.rows[i][j] == 0.0 || t.rows[i][j] == ColSums(t)[j]
  {
    hide Share, Total, ColSums, RowSums, Independent;
    ShareAttains(t.rows[i][j], RowSums(t)[i], ColSums(t)[j], Total(t));
    assert ShareRow(t, i)[j] == Share(t.rows[i][j], Expected(t, i, j));
  }

  lemma {:induction false} RestsAttain(xs: seq<real>, rs: seq<real>, n: real)
    requires |xs| == |rs| && forall i :: 0 <= i < |xs| ==> xs[i] <= n - rs[i]
    ensures Sum(xs) <= n * |xs| as real - Sum(rs)
    ensures Sum(xs) == n * |xs| as real - Sum(rs) <==> forall i :: 0 <= i < |xs| ==> xs[i] == n - rs[i]
  {
    if xs != [] {
      var k := |xs| - 1;
      RestsAttain(xs[..k], rs[..k], n);
      Spread(n, k as real, 1.0);
      assert forall i :: 0 <= i < k ==> xs[i] == xs[..k][i] && rs[i] == rs[..k][i];
    }
  }

  /** With no row empty chi-squared is as large as the rows allow exactly when each column lies in one row. */
  lemma Chi2Attains(t: Grid)
    requires Contingency(t) && Total(t) > 0.0 && forall i :: 0 <= i < |t.rows| ==> RowSums(t)[i] > 0.0
    ensures Total(Shares(t)) == Total(t) * (|t.rows| as real - 1.0) <==> ColumnsInOneRow(t)
  {
    hide Share, Shares, Sum, Transpose;
    forall i | 0 <= i < |t.rows|
      ensures RowSums(Shares(t))[i] <= Total(t) - RowSums(t)[i]
      ensures RowSums(Shares(t))[i] == Total(t) - RowSums(t)[i] <==> RowInOneRow(t, i)
    {
      RowAttains(t, i);
    }
    RestsAttain(RowSums(Shares(t)), RowSums(t), Total(t));
    Spread(Total(t), |t.rows| as real, -1.0);
    assert ColumnsInOneRow(t) <==> forall i :: 0 <= i < |t.rows| ==> RowInOneRow(t, i);
  }

  /** Where rows are no more than columns, and none is empty, V is 1 exactly when the column tells the row. */
  lemma EverythingMeans(t: Grid)
    requires Contingency(t) && Total(t) > 0.0 && 2 <= |t.rows| <= t.width
    requires forall i :: 0 <= i < |t.rows| ==> RowSums(t)[i] > 0.0
    ensures CramersV(t).Strength? && (CramersV(t).vSquared == 1.0 <==> ColumnsInOneRow(t))
  {
    hide Total, Shares, RowSums, ColumnsInOneRow;
    Chi2Attains(t);
    VIsZero(Total(Shares(t)), Total(t), |t.rows| - 1);
  }

  /** It does not matter which variable names the rows. */
  lemma SidesAreAlike(t: Grid)
    requires t.Shaped()
    ensures CramersV(Transpose(t)) == CramersV(t)
  {
    hide Total, Shares, VSquared;
    TotalTransposed(t);
    if Total(t) != 0.0 {
      SharesTransposed(t);
    }
  }

  /** Each row lies in a single column. */
  predicate RowsInOneColumn(t: Grid)
    requires t.Shaped()
  {
    forall i, j :: 0 <= i < |t.rows| && 0 <= j < t.width ==> t.rows[i][j] == 0.0 || t.rows[i][j] == RowSums(t)[i]
  }

  /** Where columns are no more than rows, and none is empty, V is 1 exactly when the row tells the column. */
  lemma EverythingByColumnsMeans(t: Grid)
    requires Contingency(t) && Total(t) > 0.0 && 2 <= t.width <= |t.rows|
    requires forall j :: 0 <= j < t.width ==> ColSums(t)[j] > 0.0
    ensures CramersV(t).Strength? && (CramersV(t).vSquared == 1.0 <==> RowsInOneColumn(t))
  {
    hide Total, CramersV, Sum;
    var u := Transpose(t);
    assert RowSums(u) == ColSums(t);
    TransposeCounts(t);
    TotalTransposed(t);
    SidesAreAlike(t);
    EverythingMeans(u);
    TransposedLies(t);
  }

  lemma TransposedLies(t: Grid)
    requires t.Shaped()
    ensures ColumnsInOneRow(Transpose(t)) <==> RowsInOneColumn(t)
  {
    hide Sum;
    var u := Transpose(t);
    forall i | 0 <= i < |t.rows|
      ensures ColSums(u)[i] == RowSums(t)[i]
    {
      assert Transpose(u).rows[i] == t.rows[i];
    }
    if ColumnsInOneRow(u) {
      forall i, j | 0 <= i < |t.rows| && 0 <= j < t.width
        ensures t.rows[i][j] == 0.0 || t.rows[i][j] == RowSums(t)[i]
      {
        assert u.rows[j][i] == 0.0 || u.rows[j][i] == ColSums(u)[i];
      }
    }
  }

  // Square diagonal tables

  predicate Diagonal(t: Grid) {
    && t.Shaped() && |t.rows| == t.width
    && (forall i :: 0 <= i < |t.rows| ==> t.rows[i][i] > 0.0)
    && forall i, j :: 0 <= i < |t.rows| && 0 <= j < t.width && i != j ==> t.rows[i][j] == 0.0
  }

  lemma {:induction false} OneTerm(xs: seq<real>, i: nat)
    requires i < |xs| && forall k :: 0 <= k < |xs| && k != i ==> xs[k] == 0.0
    ensures Sum(xs) == xs[i]
  {
    var n := |xs| - 1;
    if i < n {
      OneTerm(xs[..n], i);
    } else {
      SumOfZeros(xs[..n]);
    }
  }

  /** The bound is attained: a diagonal table is perfectly associated. */
  lemma DiagonalIsPerfect(t: Grid)
    requires Diagonal(t) && |t.rows| >= 2
    ensures Contingency(t) && Total(t) > 0.0 && CramersV(t).Strength? && CramersV(t).vSquared == 1.0
    ensures CramersV(t).chi2 == CramersV(t).n * (|t.rows| as real - 1.0)
  {
    hide Sum, Shares, CramersV;
    assert forall i, j :: 0 <= i < |t.rows| && 0 <= j < t.width ==> t.rows[i][j] >= 0.0;
    forall i | 0 <= i < |t.rows|
      ensures RowSums(t)[i] == t.rows[i][i] && ColSums(t)[i] == t.rows[i][i]
    {
      OneTerm(t.rows[i], i);
      OneTerm(Transpose(t).rows[i], i);
    }
    MemberAtMostSum(RowSums(t), 0);
    EverythingMeans(t);
    Chi2Attains(t);
    Chi2IsTotal(t);
  }

  lemma Chi2IsTotal(t: Grid)
    requires t.Shaped() && Total(t) != 0.0 && |t.rows| >= 2 && t.width >= 2
    ensures CramersV(t).Strength? && CramersV(t).chi2 == Total(Shares(t)) && CramersV(t).n == Total(t)
  {
  }

  // Two by two

  function TwoByTwo(a: real, b: real, c: real, d: real): (t: Grid)
    ensures t.Shaped() && t.width == 2 && |t.rows| == 2
  {
    Grid(2, [[a, b], [c, d]])
  }

  lemma SumOfTwo(x: real, y: real)
    ensures Sum([x, y]) == x + y
  {
    var two, one := [x, y], [x];
    assert two[..1] == one && one[..0] == [];
    assert Sum(one) == Sum(one[..0]) + x && Sum(two) == Sum(two[..1]) + y;
  }

  /** One cell, whose distance from what is expected is q over n. */
  lemma CellOfTwo(o: real, r: real, c: real, n: real, q: real)
    requires r > 0.0 && c > 0.0 && n > 0.0 && o * n - r * c == q
    ensures Share(o, Independent(r, c, n)) * (n * (r * c)) == q * q
  {
    var e := r * c / n;
    assert r * c > 0.0;
    assert e * n == r * c && e > 0.0;
    assert (o - e) * n == q;
    assert (o - e) * (o - e) / e * e == (o - e) * (o - e);
    var s := (o - e) * (o - e) / e;
    assert s * (n * (e * n)) == (s * e) * (n * n);
    assert (s * e) * (n * n) == ((o - e) * n) * ((o - e) * n);
  }

  lemma MarginsOfTwo(a: real, b: real, c: real, d: real)
    ensures var t := TwoByTwo(a, b, c, d);
            && RowSums(t) == [a + b, c + d] && ColSums(t) == [a + c, b + d] && Total(t) == a + b + c + d
  {
    var t := TwoByTwo(a, b, c, d);
    SumOfTwo(a, b);
    SumOfTwo(c, d);
    SumOfTwo(a, c);
    SumOfTwo(b, d);
    assert Transpose(t).rows == [[a, c], [b, d]] by {
      assert Transpose(t).rows[0] == [a, c] && Transpose(t).rows[1] == [b, d];
    }
    assert RowSums(t) == [a + b, c + d];
    SumOfTwo(a + b, c + d);
  }

  /** Four shares over the products of their margins add up to the shares of the whole. */
  lemma FourShares(w: real, x: real, y: real, z: real, n: real, q: real, r1: real, r2: real, c1: real, c2: real)
    requires n > 0.0 && r1 > 0.0 && r2 > 0.0 && c1 > 0.0 && c2 > 0.0 && r1 + r2 == n && c1 + c2 == n
    requires w * (n * (r1 * c1)) == q && x * (n * (r1 * c2)) == q
    requires y * (n * (r2 * c1)) == q && z * (n * (r2 * c2)) == q
    ensures (w + x + y + z) * (r1 * r2 * c1 * c2) == n * q
  {
    var m := r1 * r2 * c1 * c2;
    assert n * (w * m) == q * (r2 * c2) by { assert n * (w * m) == (w * (n * (r1 * c1))) * (r2 * c2); }
    assert n * (x * m) == q * (r2 * c1) by { assert n * (x * m) == (x * (n * (r1 * c2))) * (r2 * c1); }
    assert n * (y * m) == q * (r1 * c2) by { assert n * (y * m) == (y * (n * (r2 * c1))) * (r1 * c2); }
    assert n * (z * m) == q * (r1 * c1) by { assert n * (z * m) == (z * (n * (r2 * c2))) * (r1 * c1); }
    assert r2 * c2 + r2 * c1 + r1 * c2 + r1 * c1 == (r1 + r2) * (c1 + c2);
    assert n * ((w + x + y + z) * m) == q * (n * n);
    assert n * ((w + x + y + z) * m - n * q) == 0.0;
  }

  /** Of a table of two by two chi-squared is n times the squared determinant over the product of the margins. */
  lemma TwoByTwoMeans(a: real, b: real, c: real, d: real)
    requires a + b > 0.0 && c + d > 0.0 && a + c > 0.0 && b + d > 0.0
    ensures var v := CramersV(TwoByTwo(a, b, c, d));
            && v.Strength? && v.dof == 1 && v.n == a + b + c + d && v.vSquared * v.n == v.chi2
            && v.chi2 * ((a + b) * (c + d) * (a + c) * (b + d)) == v.n * ((a * d - b * c) * (a * d - b * c))
  {
    hide Sum, Share, Independent, Total, RowSums, ColSums;
    var t := TwoByTwo(a, b, c, d);
    var n, q := a + b + c + d, a * d - b * c;
    MarginsOfTwo(a, b, c, d);
    var w, x, y, z := Shares(t).rows[0][0], Shares(t).rows[0][1], Shares(t).rows[1][0], Shares(t).rows[1][1];
    CellOfTwo(a, a + b, a + c, n, q);
    CellOfTwo(b, a + b, b + d, n, -q);
    CellOfTwo(c, c + d, a + c, n, -q);
    CellOfTwo(d, c + d, b + d, n, q);
    assert w == ShareRow(t, 0)[0] && x == ShareRow(t, 0)[1] && y == ShareRow(t, 1)[0] && z == ShareRow(t, 1)[1];
    assert -q * -q == q * q;
    FourShares(w, x, y, z, n, q * q, a + b, c + d, a + c, b + d);
    TotalOfTwo(Shares(t), w, x, y, z);
    VIsZero(Total(Shares(t)), n, 1);
  }

  lemma TotalOfTwo(s: Grid, w: real, x: real, y: real, z: real)
    requires s.Shaped() && s.width == 2 && |s.rows| == 2
    requires w == s.rows[0][0] && x == s.rows[0][1] && y == s.rows[1][0] && z == s.rows[1][1]
    ensures Total(s) == w + x + y + z
  {
    assert s.rows[0] == [w, x] && s.rows[1] == [y, z];
    assert s.rows == [[w, x], [y, z]];
    MarginsOfTwo(w, x, y, z);
    assert RowSums(s) == RowSums(TwoByTwo(w, x, y, z));
  }

  /** A table measures nothing when it holds nothing or has a single line; otherwise dof counts its free cells. */
  lemma StrengthIsDefined(t: Grid)
    requires t.Shaped()
    ensures CramersV(t).Strength? <==> Total(t) != 0.0 && |t.rows| >= 2 && t.width >= 2
    ensures CramersV(t).n == Total(t)
    ensures CramersV(t).Strength? ==> CramersV(t).dof + |t.rows| + t.width == |t.rows| * t.width + 1
  {
    hide Total, Shares;
    assert (|t.rows| - 1) * (t.width - 1) == |t.rows| * t.width - |t.rows| - t.width + 1;
  }
}
