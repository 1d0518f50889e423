/**
 src/anomaly.py: a firm's z-score against its peers with itself left out, and against its own trailing history.
 */
module Anomaly {
  import opened Outcomes
  import opened Moments
  import opened PeerSignals

  const MIN_PEER_GROUP := 3

  // Leave-one-out z against the period's peers

  /** The rows of one period that hold the column, in table order. */
  function Members(rows: seq<Row>, col: string, period: string): (r: seq<nat>)
    ensures forall j :: 0 <= j < |r| ==> r[j] < |rows| && rows[r[j]].period == period && col in rows[r[j]].cells
    ensures forall i, j :: 0 <= i < j < |r| ==> r[i] < r[j]
  {
    if rows == [] then []
    else
      var last := |rows| - 1;
      var front := Members(rows[..last], col, period);
      if rows[last].period == period && col in rows[last].cells then front + [last] else front
  }

  function ValuesAt(rows: seq<Row>, col: string, members: seq<nat>): (r: seq<real>)
    requires forall j :: 0 <= j < |members| ==> members[j] < |rows| && col in rows[members[j]].cells
    ensures |r| == |members| && forall j :: 0 <= j < |r| ==> r[j] == rows[members[j]].cells[col]
  {
    seq(|members|, j requires 0 <= j < |members| => rows[members[j]].cells[col])
  }

  /** The column's values in row k's period. */
  function Peers(rows: seq<Row>, col: string, k: nat): seq<real>
    requires k < |rows|
  {
    ValuesAt(rows, col, Members(rows, col, rows[k].period))
  }

  /** Row k's place among them. */
  function Seat(rows: seq<Row>, col: string, k: nat): (i: nat)
    requires k < |rows| && col in rows[k].cells
    ensures i < |Members(rows, col, rows[k].period)| && Members(rows, col, rows[k].period)[i] == k
  {
    SeatIsTaken(rows, col, k);
    |Members(rows[..k], col, rows[k].period)|
  }

  lemma {:induction false} SeatIsTaken(rows: seq<Row>, col: string, k: nat)
    requires k < |rows| && col in rows[k].cells
    ensures |Members(rows[..k], col, rows[k].period)| < |Members(rows, col, rows[k].period)|
    ensures Members(rows, col, rows[k].period)[|Members(rows[..k], col, rows[k].period)|] == k
  {
    var last := |rows| - 1;
    if k < last {
      assert rows[..last][..k] == rows[..k];
      SeatIsTaken(rows[..last], col, k);
    }
  }

  /** The z-score of the group's i-th value against the others. */
  function LooZ(group: seq<real>, i: nat): ZScore
    requires i < |group|
  {
    if |group| < MIN_PEER_GROUP || Variance(Without(group, i)) < ZERO_VARIANCE then Undefined
    else Z(LooDeviation(group, i), Variance(Without(group, i)))
  }

  /** What the table of leave-one-out z-scores holds for row k. */
  function LooCell(rows: seq<Row>, col: string, k: nat): ZScore
    requires k < |rows|
  {
    if col in rows[k].cells then LooZ(Peers(rows, col, k), Seat(rows, col, k)) else Undefined
  }

  /** The periods in order of first appearance. */
  method Periods(rows: seq<Row>) returns (periods: seq<string>)
    ensures forall k :: 0 <= k < |rows| ==> rows[k].period in periods
    ensures forall i, j :: 0 <= i < j < |periods| ==> periods[i] != periods[j]
  {
    periods := [];
    for k := 0 to |rows|
      invariant forall j :: 0 <= j < k ==> rows[j].period in periods
      invariant forall i, j :: 0 <= i < j < |periods| ==> periods[i] != periods[j]
    {
      if rows[k].period !in periods {
        periods := periods + [rows[k].period];
      }
    }
  }

  /** _peer_loo_z_and_group_size: every cell is written once, from its own period's group. */
  method PeerLooZ(features: Table, col: string) returns (peerZ: array<ZScore>, peerN: array<nat>)
    ensures peerZ.Length == peerN.Length == |features.rows|
    ensures col !in features.columns ==> forall k :: 0 <= k < |features.rows| ==> peerZ[k] == Undefined && peerN[k] == 0
    ensures col in features.columns ==> forall k :: 0 <= k < |features.rows| ==>
      peerZ[k] == LooCell(features.rows, col, k) && peerN[k] == |Peers(features.rows, col, k)|
  {
    var rows := features.rows;
    peerZ, peerN := new ZScore[|rows|](_ => Undefined), new nat[|rows|](_ => 0);
    if col !in features.columns {
      return;
    }
    var periods := Periods(rows);
    var p := 0;
    while p < |periods|
      invariant 0 <= p <= |periods|
      invariant forall k :: 0 <= k < |rows| && rows[k].period !in periods[..p] ==> peerZ[k] == Undefined
      invariant forall k :: 0 <= k < |rows| && rows[k].period in periods[..p] ==>
        peerZ[k] == LooCell(rows, col, k) && peerN[k] == |Peers(rows, col, k)|
    {
      FillPeriod(rows, col, periods[p], peerZ, peerN);
      p := p + 1;
    }
  }

  /** One period of the outer loop. */
  method FillPeriod(rows: seq<Row>, col: string, period: string, peerZ: array<ZScore>, peerN: array<nat>)
    requires peerZ.Length == peerN.Length == |rows|
    requires forall k :: 0 <= k < |rows| && rows[k].period == period ==> peerZ[k] == Undefined
    modifies peerZ, peerN
    ensures forall k :: 0 <= k < |rows| && rows[k].period != period ==>
      peerZ[k] == old(peerZ[k]) && peerN[k] == old(peerN[k])
    ensures forall k :: 0 <= k < |rows| && rows[k].period == period ==>
      peerZ[k] == LooCell(rows, col, k) && peerN[k] == |Peers(rows, col, k)|
  {
    hide LooCell, Members, ValuesAt;
    var members := Gather(rows, col, period);
    for k := 0 to |rows|
      invariant peerZ[..] == old(peerZ[..])
      invariant forall j :: 0 <= j < k && rows[j].period == period ==> peerN[j] == |members|
      invariant forall j :: 0 <= j < |rows| && rows[j].period != period ==> peerN[j] == old(peerN[j])
    {
      if rows[k].period == period {
        peerN[k] := |members|;
      }
    }
    if |members| < MIN_PEER_GROUP {
      TooFewPeers(rows, col, period);
    } else {
      FillScores(rows, col, period, members, peerZ);
    }
  }

  /** The group's values, each against the others. */
  method FillScores(rows: seq<Row>, col: string, period: string, members: seq<nat>, peerZ: array<ZScore>)
    requires peerZ.Length == |rows| && members == Members(rows, col, period) && |members| >= MIN_PEER_GROUP
    requires forall k :: 0 <= k < |rows| && rows[k].period == period ==> peerZ[k] == Undefined
    modifies peerZ
    ensures forall k :: 0 <= k < |rows| && rows[k].period != period ==> peerZ[k] == old(peerZ[k])
    ensures forall k :: 0 <= k < |rows| && rows[k].period == period ==> peerZ[k] == LooCell(rows, col, k)
  {
    hide LooZ, LooOf, Members;
    var values := ValuesAt(rows, col, members);
    for i := 0 to |values|
      invariant forall k :: 0 <= k < |rows| && rows[k].period != period ==> peerZ[k] == old(peerZ[k])
      invariant forall j :: 0 <= j < i ==> peerZ[members[j]] == LooZ(values, j)
      invariant forall k :: 0 <= k < |rows| && rows[k].period == period && col !in rows[k].cells ==>
        peerZ[k] == Undefined
    {
      var others := values[..i] + values[i + 1..];
      assert others == Without(values, i);
      LooOfIsLooZ(values, i);
      peerZ[members[i]] := LooOf(values[i], others);
    }
  }

  /** One step of the inner loop: a value against its others. */
  function LooOf(x: real, others: seq<real>): ZScore
    requires others != []
  {
    if Variance(others) < ZERO_VARIANCE then Undefined else Z(x - Mean(others), Variance(others))
  }

  lemma LooOfIsLooZ(group: seq<real>, i: nat)
    requires i < |group| && |group| >= MIN_PEER_GROUP
    ensures LooOf(group[i], Without(group, i)) == LooZ(group, i)
  {
    hide Variance, Mean;
  }

  lemma TooFewPeers(rows: seq<Row>, col: string, period: string)
    requires |Members(rows, col, period)| < MIN_PEER_GROUP
    ensures forall k :: 0 <= k < |rows| && rows[k].period == period ==> LooCell(rows, col, k) == Undefined
  {
  }

  method Gather(rows: seq<Row>, col: string, period: string) returns (members: seq<nat>)
    ensures members == Members(rows, col, period)
  {
    members := [];
    for k := 0 to |rows|
      invariant members == Members(rows[..k], col, period)
    {
      assert rows[..k + 1][..k] == rows[..k];
      if rows[k].period == period && col in rows[k].cells {
        members := members + [k];
      }
    }
    assert rows[..|rows|] == rows;
  }

  /**
   Leaving the firm out never hides it: both z-scores have the same sign, the leave-one-out one is at least as
   large, and exactly: loo*loo * ((n - 1) - z*z) == n * z*z.
   */
  lemma LooIsAtLeastAsFarOut(group: seq<real>, i: nat)
    requires i < |group| && LooZ(group, i).Z? && PeerZ(group, group[i]).Z?
    ensures LooZ(group, i).deviation > 0.0 <==> PeerZ(group, group[i]).deviation > 0.0
    ensures LooZ(group, i).deviation < 0.0 <==> PeerZ(group, group[i]).deviation < 0.0
    ensures Square(LooZ(group, i).deviation) * PeerZ(group, group[i]).variance
         >= Square(PeerZ(group, group[i]).deviation) * LooZ(group, i).variance
    ensures Square(LooZ(group, i).deviation)
              * ((|group| as real - 1.0) * PeerZ(group, group[i]).variance - Square(PeerZ(group, group[i]).deviation))
         == |group| as real * Square(PeerZ(group, group[i]).deviation) * LooZ(group, i).variance
  {
    hide Variance, Mean, Square;
    LeaveOneOut(group, i);
    var n, d, e, v, w := |group| as real, Deviation(group, i), LooDeviation(group, i), Variance(group),
                         Variance(Without(group, i));
    SameSign(n, d, e);
    StretchedSquares(n, n - 1.0, d, e, v, w);
    Samuelson(group, i);
    Farther(n, Square(d), Square(e), v, w);
  }

  lemma SameSign(n: real, d: real, e: real)
    requires n > 1.0 && (n - 1.0) * e == n * d
    ensures (e > 0.0 <==> d > 0.0) && (e < 0.0 <==> d < 0.0)
  {
    assert e > 0.0 ==> (n - 1.0) * e > 0.0;
    assert e < 0.0 ==> (n - 1.0) * -e > 0.0;
    assert d > 0.0 ==> n * d > 0.0;
    assert d < 0.0 ==> n * -d > 0.0;
  }

  lemma StretchedSquares(n: real, j: real, d: real, e: real, v: real, w: real)
    requires j > 0.0 && j * e == n * d
    requires j * j * w == n * (j * v - Square(d))
    ensures Square(e) * (j * v - Square(d)) == n * Square(d) * w
  {
    assert j * (j * (e * e)) == (j * e) * (j * e) == (n * d) * (n * d) == n * (n * (d * d));
    Ratio(j, Square(e), Square(d), j * v - Square(d), n, w);
  }

  lemma Ratio(j: real, e: real, d: real, r: real, n: real, w: real)
    requires j > 0.0 && j * (j * e) == n * (n * d) && j * j * w == n * r
    ensures e * r == n * d * w
  {
    var x := e * r - n * d * w;
    assert j * (j * (e * r)) == (j * (j * e)) * r == n * (n * d) * r == n * d * (n * r);
    assert n * d * (n * r) == n * d * (j * j * w) == j * (j * (n * d * w));
    assert j * (j * x) == 0.0;
    assert j * x == 0.0;
  }

  lemma Farther(n: real, d: real, e: real, v: real, w: real)
    requires n > 1.0 && v > 0.0 && w > 0.0 && d >= 0.0 && e >= 0.0
    requires e * ((n - 1.0) * v - d) == n * d * w && d <= (n - 1.0) * v
    ensures e * v >= d * w
  {
    var j := n - 1.0;
    assert e * (j * v - d) <= e * (j * v) by {
      assert e * (j * v - d) == e * (j * v) - e * d && e * d >= 0.0;
    }
    assert j * (e * v) == e * (j * v);
    assert n * d * w == j * (d * w) + d * w && d * w >= 0.0;
    assert j * (e * v - d * w) >= 0.0;
  }

  /** Both layers group a period alike, so the comparison holds of the two tables' rows. */
  lemma LayersShareGroups(rows: seq<Row>, col: string, k: nat)
    requires k < |rows| && col in rows[k].cells
    ensures Peers(rows, col, k) == Group(Present(rows, col), col, rows[k].period)
  {
    GroupsMatch(rows, col, rows[k].period);
  }

  lemma {:induction false} GroupsMatch(rows: seq<Row>, col: string, period: string)
    ensures ValuesAt(rows, col, Members(rows, col, period)) == Group(Present(rows, col), col, period)
  {
    if rows != [] {
      var last := |rows| - 1;
      GroupsMatch(rows[..last], col, period);
      var front, members := Present(rows[..last], col), Members(rows[..last], col, period);
      assert ValuesAt(rows, col, members) == ValuesAt(rows[..last], col, members);
      if col in rows[last].cells {
        assert (front + [rows[last]])[..|front|] == front;
        if rows[last].period == period {
          assert ValuesAt(rows, col, members + [last]) == ValuesAt(rows, col, members) + [rows[last].cells[col]];
        }
      }
    }
  }

  /** A firm whose cross-section z alerts is beyond the threshold, on the same side, leave-one-out too. */
  lemma AlertSurvivesLeavingOut(group: seq<real>, i: nat)
    requires i < |group| && LooZ(group, i).Z? && PeerZ(group, group[i]).Z?
    ensures PeerZ(group, group[i]).Exceeds(PEER_Z_ALERT_THRESHOLD) ==> LooZ(group, i).Exceeds(PEER_Z_ALERT_THRESHOLD)
  {
    hide Variance, Mean, Square, LooDeviation;
    LooIsAtLeastAsFarOut(group, i);
    var z, l := PeerZ(group, group[i]), LooZ(group, i);
    if z.Exceeds(PEER_Z_ALERT_THRESHOLD) {
      StillBeyond(Square(z.deviation), Square(l.deviation), z.variance, l.variance);
    }
  }

  lemma StillBeyond(d: real, e: real, v: real, w: real)
    requires v > 0.0 && w > 0.0 && d > 2.0 * 2.0 * v && e * v >= d * w
    ensures e > 2.0 * 2.0 * w
  {
    assert d * w > 4.0 * v * w;
    assert (e - 4.0 * w) * v > 0.0 by {
      assert (e - 4.0 * w) * v == e * v - 4.0 * w * v;
      assert 4.0 * w * v == 4.0 * v * w;
    }
  }

  // Rolling z against the firm's own history

  /** A self z-score row: the z-score where it is defined, and the baseline it is measured against. */
  datatype SelfRow = SelfRow(z: ZScore, baseline: seq<real>)

  /** The non-null values of the window that ends just before k. */
  function Baseline(series: seq<Option<real>>, window: nat, k: nat): seq<real>
    requires k <= |series|
  {
    Known(series[if k <= window then 0 else k - window..k])
  }

  function Known(xs: seq<Option<real>>): seq<real> {
    if xs == [] then []
    else Known(xs[..|xs| - 1]) + if xs[|xs| - 1].Some? then [xs[|xs| - 1].value] else []
  }

  function Abs(x: real): real {
    if x < 0.0 then -x else x
  }

  /** Standard deviations under 1e-15, or under two percent of the baseline's mean, leave z undefined. */
  predicate TooFlat(baseline: seq<real>)
    requires baseline != []
  {
    var v, floor := Variance(baseline), 0.02 * (Abs(Mean(baseline)) + 0.000000000001);
    v < ZERO_VARIANCE || v < Square(floor)
  }

  function SelfRowAt(series: seq<Option<real>>, window: nat, k: nat): SelfRow
    requires window >= 2 && k < |series|
  {
    var b := Baseline(series, window, k);
    if |b| < 2 then SelfRow(Undefined, [])
    else if series[k].None? || TooFlat(b) then SelfRow(Undefined, b)
    else SelfRow(Z(series[k].value - Mean(b), Variance(b)), b)
  }

  /** _rolling_self_z_and_baselines: one row for every quarter. */
  function SelfRows(series: seq<Option<real>>, window: nat): (r: seq<SelfRow>)
    requires window >= 2
    ensures |r| == |series| && forall k :: 0 <= k < |r| ==> r[k] == SelfRowAt(series, window, k)
  {
    seq(|series|, k requires 0 <= k < |series| => SelfRowAt(series, window, k))
  }

  /** A quarter is never part of its own baseline. */
  lemma BaselineExcludesItself(series: seq<Option<real>>, window: nat, k: nat, x: Option<real>)
    requires window >= 2 && k < |series|
    ensures SelfRows(series[k := x], window)[k].baseline == SelfRows(series, window)[k].baseline
  {
    hide TooFlat, Variance, Mean, Known;
    var from := if k <= window then 0 else k - window;
    assert series[k := x][from..k] == series[from..k];
  }

  /**
   No look-ahead: later quarters change no earlier row, quarters older than the window change no later one, and a
   quarter does not enter its own baseline.
   */
  lemma SelfRowsSeeOnlyTheWindow(before: seq<Option<real>>, window: nat, seen: seq<Option<real>>,
                                 later: seq<Option<real>>, k: nat, x: Option<real>)
    requires 2 <= window <= k < |seen|
    ensures SelfRows(before + seen + later, window)[|before| + k] == SelfRows(seen, window)[k]
    ensures SelfRows(seen + later, window)[..|seen|] == SelfRows(seen, window)
    ensures SelfRows(seen[k := x] + later, window)[k].baseline == SelfRows(seen, window)[k].baseline
  {
    hide TooFlat, Variance, Mean, Known;
    BaselineExcludesItself(seen + later, window, k, x);
    assert (seen + later)[k := x] == seen[k := x] + later;
    var whole := before + seen + later;
    assert whole[|before| + k - window..|before| + k] == seen[k - window..k];
    forall j | 0 <= j < |seen| ensures SelfRowAt(seen + later, window, j) == SelfRowAt(seen, window, j) {
      var from := if j <= window then 0 else j - window;
      assert (seen + later)[from..j] == seen[from..j];
    }
  }
}
