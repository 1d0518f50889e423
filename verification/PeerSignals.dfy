/**
 src/peer_signals.py: rank and z-score of every firm inside its fiscal period, and the alert they make together.
 A z-score is kept as its deviation and variance, so that comparing it with a threshold compares squares.
 */
module PeerSignals {
  import opened Outcomes
  import opened Moments

  const PEER_SIGNAL_METRICS: seq<string> := ["revenue", "net_margin", "current_ratio", "debt_to_assets"]
  const PEER_MIN_FOR_RANK := 2
  const PEER_MIN_FOR_Z := 3
  const PEER_PCT_HIGH := 90.0
  const PEER_PCT_LOW := 10.0
  const PEER_Z_ALERT_THRESHOLD := 2.0
  /** The square of 1e-15, below which a standard deviation counts as zero. */
  const ZERO_VARIANCE: real := 1.0 / 1000000000000000000000000000000.0

  datatype Coverage = InsufficientPeers | RankOnly | Full
  datatype Flag = Unavailable | High | Low | Unflagged
  datatype Alert = AlertUnavailable | ExtremeHigh | ExtremeLow | NoAlert

  datatype ZScore = Undefined | Z(deviation: real, variance: real) {
    /** |z| > t, for z = deviation / sqrt(variance). */
    predicate Exceeds(t: real) {
      Z? && Square(deviation) > t * t * variance
    }
  }

  datatype Row = Row(cik: int, period: string, cells: map<string, real>)
  /** The features table: its columns, and its rows; a cell a row does not hold is null. */
  datatype Table = Table(columns: set<string>, rows: seq<Row>)

  datatype Signal = Signal(cik: int, period: string, metric: string, value: real, groupSize: nat, coverage: Coverage,
                           pctRank: Option<real>, z: ZScore, rankSignal: Flag, zSignal: Flag, alert: Alert)

  function CoverageOf(n: nat): Coverage {
    if n < PEER_MIN_FOR_RANK then InsufficientPeers
    else if n < PEER_MIN_FOR_Z then RankOnly
    else Full
  }

  function RankSignal(pr: Option<real>, coverage: Coverage): Flag {
    if coverage == InsufficientPeers || pr.None? then Unavailable
    else if pr.value >= PEER_PCT_HIGH then High
    else if pr.value <= PEER_PCT_LOW then Low
    else Unflagged
  }

  function ZSignal(z: ZScore, coverage: Coverage): Flag {
    if coverage.InsufficientPeers? || coverage.RankOnly? || z.Undefined? then Unavailable
    else if z.Exceeds(PEER_Z_ALERT_THRESHOLD) && z.deviation > 0.0 then High
    else if z.Exceeds(PEER_Z_ALERT_THRESHOLD) && z.deviation < 0.0 then Low
    else Unflagged
  }

  function PeerAlert(rank: Flag, zFlag: Flag, z: ZScore, coverage: Coverage): Alert {
    var high := rank == High || zFlag == High;
    var low := rank == Low || zFlag == Low;
    if coverage == InsufficientPeers then AlertUnavailable
    else if high && !low then ExtremeHigh
    else if low && !high then ExtremeLow
    else if high && low then
      if coverage == Full && z.Z? then if z.deviation > 0.0 then ExtremeHigh else ExtremeLow
      else NoAlert
    else NoAlert
  }

  function Under(x: real): real -> bool { y => y < x }

  function Same(x: real): real -> bool { y => y == x }

  function AtMost(x: real): real -> bool { y => y <= x }

  function AtLeast(x: real): real -> bool { y => y >= x }

  /** The mean of the places x and its ties take when the group is sorted. */
  function AverageRank(group: seq<real>, x: real): real {
    Count(group, Under(x)) as real + (Count(group, Same(x)) as real + 1.0) / 2.0
  }

  function PctRank(group: seq<real>, x: real): Option<real>
    requires group != []
  {
    if |group| < PEER_MIN_FOR_RANK then None
    else Some(AverageRank(group, x) / |group| as real * 100.0)
  }

  function PeerZ(group: seq<real>, x: real): ZScore
    requires group != []
  {
    if |group| < PEER_MIN_FOR_Z || Variance(group) < ZERO_VARIANCE then Undefined
    else Z(x - Mean(group), Variance(group))
  }

  /** The rows that hold the metric, in table order. */
  function Present(rows: seq<Row>, metric: string): (r: seq<Row>)
    ensures forall row :: row in r ==> metric in row.cells
  {
    if rows == [] then []
    else
      var last := rows[|rows| - 1];
      var front := Present(rows[..|rows| - 1], metric);
      if metric in last.cells then front + [last] else front
  }

  /** The metric's values in one period. */
  function Group(rows: seq<Row>, metric: string, period: string): seq<real>
    requires forall row :: row in rows ==> metric in row.cells
  {
    if rows == [] then []
    else
      var last := rows[|rows| - 1];
      var front := Group(rows[..|rows| - 1], metric, period);
      if last.period == period then front + [last.cells[metric]] else front
  }

  /** The signal of one value among its peers. */
  function Classified(cik: int, period: string, metric: string, group: seq<real>, x: real): Signal
    requires group != []
  {
    var coverage, pr, z := CoverageOf(|group|), PctRank(group, x), PeerZ(group, x);
    var rank, zFlag := RankSignal(pr, coverage), ZSignal(z, coverage);
    Signal(cik, period, metric, x, |group|, coverage, pr, z, rank, zFlag, PeerAlert(rank, zFlag, z, coverage))
  }

  /** The signals of the first n rows that hold the metric. */
  function MetricSignals(base: seq<Row>, metric: string, n: nat): (r: seq<Signal>)
    requires n <= |base|
    requires forall row :: row in base ==> metric in row.cells
    ensures |r| == n
  {
    if n == 0 then []
    else
      var row := base[n - 1];
      var i := Place(base, metric, n - 1);
      MetricSignals(base, metric, n - 1)
      + [Classified(row.cik, row.period, metric, Group(base, metric, row.period), row.cells[metric])]
  }

  /** Where row n stands in its own period's group. */
  function Place(base: seq<Row>, metric: string, n: nat): (i: nat)
    requires n < |base|
    requires forall row :: row in base ==> metric in row.cells
    ensures i < |Group(base, metric, base[n].period)|
    ensures Group(base, metric, base[n].period)[i] == base[n].cells[metric]
  {
    var last := |base| - 1;
    if n == last then |Group(base[..last], metric, base[n].period)| else Place(base[..last], metric, n)
  }

  /** The signals of the first n metrics. */
  function Signals(features: Table, n: nat): seq<Signal>
    requires n <= |PEER_SIGNAL_METRICS|
  {
    if n == 0 then []
    else
      var metric := PEER_SIGNAL_METRICS[n - 1];
      var base := Present(features.rows, metric);
      Signals(features, n - 1) + if metric in features.columns then MetricSignals(base, metric, |base|) else []
  }

  // What the two rules say together

  /** A value outranks every value under it, and is outranked by none that is at most it. */
  lemma Ranked(group: seq<real>, i: nat)
    requires i < |group|
    ensures Count(group, Under(group[i])) as real + 1.0
         <= AverageRank(group, group[i]) <= Count(group, AtMost(group[i])) as real
    ensures Count(group, Under(group[i])) + Count(group, AtLeast(group[i])) == |group|
    ensures Count(group, AtMost(group[i])) >= 1 && Count(group, AtLeast(group[i])) >= 1
  {
    var x := group[i];
    CountSplits(group, Under(x), Same(x), AtMost(x));
    CountSplits(group, Under(x), AtLeast(x), _ => true);
    CountAll(group, _ => true);
    CountedMember(group, Same(x), i);
    CountedMember(group, AtLeast(x), i);
  }

  function Over(x: real): real -> bool { y => y > x }

  /** The ranks of the group's first n values, added up. */
  function RankSum(group: seq<real>, n: nat): real
    requires n <= |group|
  {
    if n == 0 then 0.0 else RankSum(group, n - 1) + AverageRank(group, group[n - 1])
  }

  /** However many ties there are, the average ranks share out exactly the places 1 to n. */
  lemma {:induction false} RanksShareOutThePlaces(group: seq<real>)
    ensures RankSum(group, |group|) == Places(|group| as real)
    decreases |group|
  {
    hide AverageRank, Count, RankSum, Places;
    if group == [] {
      NoPlaces();
    } else {
      var n := |group| - 1;
      var front, y := group[..n], group[n];
      RanksShareOutThePlaces(front);
      assert group == front + [y] && front[..n] == front;
      LastRank(group);
      NewcomerShiftsRanks(front, y, n);
      NewcomersRank(front, y);
      CountSplits(front, Under(y), AtLeast(y), _ => true);
      CountSplits(front, Same(y), Over(y), AtLeast(y));
      CountAll(front, _ => true);
      OneMorePlace(n as real);
      assert |group| as real == n as real + 1.0;
    }
  }

  /** 1 + 2 + ... + n */
  function Places(n: real): real {
    n * (n + 1.0) / 2.0
  }

  lemma NoPlaces()
    ensures RankSum([], 0) == Places(0.0)
  {
  }

  lemma OneMorePlace(n: real)
    ensures Places(n) + n + 1.0 == Places(n + 1.0)
  {
  }

  lemma LastRank(group: seq<real>)
    requires group != []
    ensures RankSum(group, |group|) == RankSum(group, |group| - 1) + AverageRank(group, group[|group| - 1])
  {
  }

  /** A newcomer takes the place after those under it, and half a place for each tie. */
  lemma NewcomersRank(group: seq<real>, y: real)
    ensures AverageRank(group + [y], y) == Count(group, Under(y)) as real + (Count(group, Same(y)) as real + 2.0) / 2.0
  {
    assert (group + [y])[..|group|] == group;
  }

  /** It moves everyone above it up one place, and its ties up half a place. */
  lemma {:induction false} NewcomerShiftsRanks(group: seq<real>, y: real, n: nat)
    requires n <= |group|
    ensures RankSum(group + [y], n)
         == RankSum(group, n) + Count(group[..n], Over(y)) as real + Count(group[..n], Same(y)) as real / 2.0
  {
    if n > 0 {
      NewcomerShiftsRanks(group, y, n - 1);
      assert group[..n][..n - 1] == group[..n - 1];
      assert (group + [y])[..|group|] == group && (group + [y])[n - 1] == group[n - 1];
    }
  }

  /** Fewer than a quarter of the group lies as far out, on one side, as a value with |z| > 2. */
  lemma FewAreFarOut(group: seq<real>, i: nat, side: real -> bool)
    requires i < |group| && Z(Deviation(group, i), Variance(group)).Exceeds(PEER_Z_ALERT_THRESHOLD)
    requires Count(group, side) >= 1
    requires forall k :: 0 <= k < |group| && side(group[k]) ==>
      Square(Deviation(group, k)) >= Square(Deviation(group, i))
    ensures 4 * Count(group, side) < |group|
  {
    hide Square, Count, Mean, Variance;
    Chebyshev(group, Mean(group), side, Square(Deviation(group, i)));
    ScatterAroundMean(group);
    Quarter(|group| as real, Count(group, side) as real, Square(Deviation(group, i)), Variance(group));
  }

  lemma Quarter(n: real, c: real, d: real, v: real)
    requires c >= 1.0 && v >= 0.0 && d > 4.0 * v && c * d <= n * v
    ensures 4.0 * c < n
  {
    assert c * d > c * (4.0 * v);
    assert c * (4.0 * v) == 4.0 * c * v;
  }

  lemma FurtherOut(near: real, far: real)
    requires far <= near <= 0.0 || 0.0 <= near <= far
    ensures Square(near) <= Square(far)
  {
    var a, b := if far <= 0.0 then -near else near, if far <= 0.0 then -far else far;
    assert (b - a) * b >= 0.0 && (b - a) * a >= 0.0;
  }

  /** A value with z < -2 ranks in the lowest quarter of its group. */
  lemma FarBelowRanksLow(group: seq<real>, i: nat)
    requires |group| >= PEER_MIN_FOR_RANK && i < |group| && Deviation(group, i) < 0.0
    requires Z(Deviation(group, i), Variance(group)).Exceeds(PEER_Z_ALERT_THRESHOLD)
    ensures PctRank(group, group[i]).value < 25.0
  {
    hide Square, Variance, Mean, Count, AverageRank;
    var x := group[i];
    Ranked(group, i);
    forall k | 0 <= k < |group| && AtMost(x)(group[k])
      ensures Square(Deviation(group, k)) >= Square(Deviation(group, i)) {
      FurtherOut(Deviation(group, i), Deviation(group, k));
    }
    FewAreFarOut(group, i, AtMost(x));
    Percentile(AverageRank(group, x), |group| as real, 25.0);
  }

  /** A value with z > 2 ranks in the highest quarter of its group. */
  lemma FarAboveRanksHigh(group: seq<real>, i: nat)
    requires |group| >= PEER_MIN_FOR_RANK && i < |group| && Deviation(group, i) > 0.0
    requires Z(Deviation(group, i), Variance(group)).Exceeds(PEER_Z_ALERT_THRESHOLD)
    ensures PctRank(group, group[i]).value > 75.0
  {
    hide Square, Variance, Mean, Count, AverageRank;
    var x := group[i];
    Ranked(group, i);
    forall k | 0 <= k < |group| && AtLeast(x)(group[k])
      ensures Square(Deviation(group, k)) >= Square(Deviation(group, i)) {
      FurtherOut(Deviation(group, i), Deviation(group, k));
    }
    FewAreFarOut(group, i, AtLeast(x));
    Percentile(AverageRank(group, x), |group| as real, 75.0);
  }

  lemma Percentile(rank: real, n: real, p: real)
    requires n > 0.0
    ensures rank / n * 100.0 < p <==> rank * 100.0 < p * n
    ensures rank / n * 100.0 > p <==> rank * 100.0 > p * n
  {
    var q := rank / n;
    assert q * n == rank;
    assert (p - q * 100.0) * n == p * n - rank * 100.0;
  }

  /** Rank and z-score never disagree: no value is ranked high with z < -2, or ranked low with z > 2. */
  lemma RankAndZAgree(cik: int, period: string, metric: string, group: seq<real>, i: nat)
    requires i < |group|
    ensures Agrees(Classified(cik, period, metric, group, group[i]))
  {
    hide Square, Variance, Mean, Count, AverageRank;
    var x := group[i];
    var z := PeerZ(group, x);
    if z.Z? && z.Exceeds(PEER_Z_ALERT_THRESHOLD) && z.deviation < 0.0 {
      FarBelowRanksLow(group, i);
    } else if z.Z? && z.Exceeds(PEER_Z_ALERT_THRESHOLD) && z.deviation > 0.0 {
      FarAboveRanksHigh(group, i);
    }
  }

  /** The two rules point the same way, and the alert is what either says: the tie-break between them never decides. */
  predicate Agrees(s: Signal) {
    var high, low := s.rankSignal == High || s.zSignal == High, s.rankSignal == Low || s.zSignal == Low;
    && !(high && low)
    && (s.alert == ExtremeHigh <==> high)
    && (s.alert == ExtremeLow <==> low)
    && (s.alert == AlertUnavailable <==> s.groupSize < PEER_MIN_FOR_RANK)
  }

  /**
   z * z <= n - 1 wherever z is defined; so in a group of five or fewer z flags nothing, and nothing is extremely
   low.
   */
  predicate Modest(s: Signal) {
    && (s.z.Z? ==> Square(s.z.deviation) <= (s.groupSize as real - 1.0) * s.z.variance)
    && (s.groupSize <= 5 ==> s.zSignal != High && s.zSignal != Low && s.rankSignal != Low && s.alert != ExtremeLow)
  }

  lemma SmallGroupsAreModest(cik: int, period: string, metric: string, group: seq<real>, i: nat)
    requires i < |group|
    ensures Modest(Classified(cik, period, metric, group, group[i]))
  {
    hide Square, Variance, Mean, Count, AverageRank;
    Samuelson(group, i);
    if |group| <= 5 {
      NoFarDeviation(|group| as real, Square(Deviation(group, i)), Variance(group));
      NoLowRank(group, i);
    }
  }

  lemma NoFarDeviation(n: real, square: real, v: real)
    requires n <= 5.0 && v >= 0.0 && square <= (n - 1.0) * v
    ensures square <= PEER_Z_ALERT_THRESHOLD * PEER_Z_ALERT_THRESHOLD * v
  {
    assert (5.0 - n) * v >= 0.0;
  }

  lemma NoLowRank(group: seq<real>, i: nat)
    requires i < |group| && |group| <= 5
    ensures PctRank(group, group[i]).Some? ==> PctRank(group, group[i]).value > PEER_PCT_LOW
  {
    hide Count, AverageRank;
    Ranked(group, i);
    Percentile(AverageRank(group, group[i]), |group| as real, PEER_PCT_LOW);
  }

  /** A strict maximum is flagged in every group of two or more. */
  lemma StrictMaximumIsFlagged(cik: int, period: string, metric: string, group: seq<real>, i: nat)
    requires |group| >= PEER_MIN_FOR_RANK && i < |group|
    requires forall k :: 0 <= k < |group| && k != i ==> group[k] < group[i]
    ensures Classified(cik, period, metric, group, group[i]).alert == ExtremeHigh
  {
    hide Square, Variance, Mean, Count, AverageRank;
    var x := group[i];
    Ranked(group, i);
    OnlyOneIsTop(group, i);
    Percentile(AverageRank(group, x), |group| as real, 90.0);
    RankAndZAgree(cik, period, metric, group, i);
  }

  lemma OnlyOneIsTop(group: seq<real>, i: nat)
    requires i < |group| && forall k :: 0 <= k < |group| && k != i ==> group[k] < group[i]
    ensures Count(group, AtLeast(group[i])) == 1
  {
    CountSplits(group, Under(group[i]), AtLeast(group[i]), _ => true);
    CountAll(group, _ => true);
    AllOthers(group, Under(group[i]), i);
  }

  lemma {:induction false} AllOthers(xs: seq<real>, p: real -> bool, i: nat)
    requires i < |xs| && !p(xs[i]) && forall k :: 0 <= k < |xs| && k != i ==> p(xs[k])
    ensures Count(xs, p) == |xs| - 1
  {
    var n := |xs| - 1;
    if i == n {
      CountAll(xs[..n], p);
    } else {
      AllOthers(xs[..n], p, i);
    }
  }

  /** The bound of five is sharp: from six peers on, one low value among equal ones is extremely low. */
  lemma LowIsReachableFromSix(cik: int, period: string, metric: string, n: nat) returns (group: seq<real>)
    requires n >= 6
    ensures |group| == n && Classified(cik, period, metric, group, group[n - 1]).alert == ExtremeLow
  {
    hide Square, Variance, Mean, AverageRank;
    var last := n - 1;
    group := seq(last, _ => 0.0) + [-(n as real)];
    assert Without(group, last) == seq(last, _ => 0.0);
    AllZeros(seq(last, _ => 0.0));
    LeaveOneOut(group, last);
    LoneOutlier(n as real, Deviation(group, last), LooDeviation(group, last), Variance(group));
    RankAndZAgree(cik, period, metric, group, last);
  }

  lemma {:induction false} AllZeros(xs: seq<real>)
    requires forall k :: 0 <= k < |xs| ==> xs[k] == 0.0
    ensures Sum(xs) == 0.0
    ensures xs != [] ==> Mean(xs) == 0.0 && Variance(xs) == 0.0
    ensures Scatter(xs, 0.0) == 0.0
  {
    if xs != [] {
      AllZeros(xs[..|xs| - 1]);
    }
  }

  lemma LoneOutlier(n: real, d: real, e: real, v: real)
    requires n >= 6.0 && e == -n
    requires (n - 1.0) * e == n * d && 0.0 == n * ((n - 1.0) * v - Square(d))
    ensures d == -(n - 1.0) && v == n - 1.0 && Square(d) > 2.0 * 2.0 * v
  {
    var j, w := n - 1.0, (n - 1.0) * v - d * d;
    assert n * (d + j) == n * d + n * j && j * n == n * j;
    SoleFactor(n, d + j);
    SoleFactor(n, w);
    assert d * d == j * j;
    assert j * (v - j) == j * v - j * j;
    SoleFactor(j, v - j);
    assert j * j > 4.0 * j;
  }

  lemma SoleFactor(n: real, x: real)
    requires n > 0.0 && n * x == 0.0
    ensures x == 0.0
  {
  }

  /** Every signal the table gives agrees with itself and is modest. */
  lemma {:induction false} MetricSignalsAreSound(base: seq<Row>, metric: string, n: nat)
    requires n <= |base|
    requires forall row :: row in base ==> metric in row.cells
    ensures forall s :: s in MetricSignals(base, metric, n) ==> Agrees(s) && Modest(s)
  {
    hide Agrees, Modest, Classified, Group;
    if n > 0 {
      MetricSignalsAreSound(base, metric, n - 1);
      var row := base[n - 1];
      var group, i := Group(base, metric, row.period), Place(base, metric, n - 1);
      RankAndZAgree(row.cik, row.period, metric, group, i);
      SmallGroupsAreModest(row.cik, row.period, metric, group, i);
    }
  }

  lemma {:induction false} SignalsAreSound(features: Table, n: nat)
    requires n <= |PEER_SIGNAL_METRICS|
    ensures forall s :: s in Signals(features, n) ==> Agrees(s) && Modest(s)
  {
    hide Agrees, Modest, MetricSignals;
    if n > 0 {
      SignalsAreSound(features, n - 1);
      var base := Present(features.rows, PEER_SIGNAL_METRICS[n - 1]);
      MetricSignalsAreSound(base, PEER_SIGNAL_METRICS[n - 1], |base|);
    }
  }

  /** compute_peer_signals, before its rows are sorted for output. */
  method ComputePeerSignals(features: Table) returns (rows: seq<Signal>)
    ensures rows == if features.rows == [] || "cik" !in features.columns || "period" !in features.columns then []
                    else Signals(features, |PEER_SIGNAL_METRICS|)
    ensures forall s :: s in rows ==> Agrees(s) && Modest(s)
  {
    hide Agrees, Modest, Classified, Group;
    rows := [];
    if features.rows == [] || "cik" !in features.columns || "period" !in features.columns {
      return;
    }
    SignalsAreSound(features, |PEER_SIGNAL_METRICS|);
    for m := 0 to |PEER_SIGNAL_METRICS|
      invariant rows == Signals(features, m)
    {
      var metric := PEER_SIGNAL_METRICS[m];
      if metric !in features.columns {
        continue;
      }
      var base := DropNulls(features.rows, metric);
      ghost var before := rows;
      for k := 0 to |base|
        invariant rows == before + MetricSignals(base, metric, k)
      {
        var row := base[k];
        var _ := Place(base, metric, k);
        rows := rows + [Classified(row.cik, row.period, metric, Group(base, metric, row.period), row.cells[metric])];
      }
    }
  }

  method DropNulls(rows: seq<Row>, metric: string) returns (base: seq<Row>)
    ensures base == Present(rows, metric)
  {
    base := [];
    for k := 0 to |rows|
      invariant base == Present(rows[..k], metric)
    {
      assert rows[..k + 1][..k] == rows[..k];
      if metric in rows[k].cells {
        base := base + [rows[k]];
      }
    }
    assert rows[..|rows|] == rows;
  }
}
