/**
 A firm against its own history, told from the series: which quarters are its baseline, when a score is defined, and
 what it is; and against its peers, who they are.
 */
module SelfScores {
  import opened Outcomes
  import opened Moments
  import opened PeerSignals
  import opened Anomaly

  // The baseline

  /** The quarters with a value among those from one position to before another. */
  predicate ValuedIn(series: seq<Option<real>>, from: nat, until: nat, places: seq<nat>) {
    && (forall j :: 0 <= j < |places| ==> from <= places[j] < until && places[j] < |series| && series[places[j]].Some?)
    && (forall i, j :: 0 <= i < j < |places| ==> places[i] < places[j])
    && forall k :: 0 <= from <= k < until && k < |series| && series[k].Some? ==> k in places
  }

  lemma {:induction false} KnownIn(series: seq<Option<real>>, from: nat, until: nat) returns (places: seq<nat>)
    requires from <= until <= |series|
    ensures ValuedIn(series, from, until, places) && |places| == |Known(series[from..until])|
    ensures forall j :: 0 <= j < |places| ==> Known(series[from..until])[j] == series[places[j]].value
    decreases until
  {
    places := [];
    if from < until {
      places := KnownIn(series, from, until - 1);
      assert series[from..until][..until - from - 1] == series[from..until - 1];
      if series[until - 1].Some? {
        places := places + [until - 1];
      }
    }
  }

  /** The quarters that a quarter is compared with: of the window's length of quarters before it, those with a value. */
  lemma BaselineMeans(series: seq<Option<real>>, window: nat, k: nat) returns (places: seq<nat>)
    requires window >= 2 && k < |series|
    ensures ValuedIn(series, if k >= window then k - window else 0, k, places)
    ensures |places| == |Baseline(series, window, k)|
    ensures forall j :: 0 <= j < |places| ==> Baseline(series, window, k)[j] == series[places[j]].value
  {
    places := KnownIn(series, if k <= window then 0 else k - window, k);
  }

  // The score

  /** A standard deviation of at least 1e-15, and of at least two percent of the mean's size. */
  predicate Varied(baseline: seq<real>)
    requires baseline != []
  {
    var v, m := Variance(baseline), Mean(baseline);
    var floor := 0.02 * ((if m >= 0.0 then m else -m) + 0.000000000001);
    v * 1000000000000000000000000000000.0 >= 1.0 && v >= floor * floor
  }

  /**
   A quarter has a score when it has a value and at least two varied quarters to compare it with; the score's deviation
   is the value less their mean, and its sign says whether the value lies over or under it.
   */
  lemma SelfScoreMeans(series: seq<Option<real>>, window: nat, k: nat)
    requires window >= 2 && k < |series|
    ensures var row, b := SelfRows(series, window)[k], Baseline(series, window, k);
            && row.baseline == (if |b| >= 2 then b else [])
            && (row.z.Z? <==> |b| >= 2 && series[k].Some? && Varied(b))
            && (row.z.Z? ==> row.z.deviation * |b| as real == series[k].value * |b| as real - Sum(b)
                             && row.z.variance == Variance(b))
            && (row.z.Z? ==> (row.z.deviation > 0.0 <==> series[k].value > Mean(b))
                             && (row.z.deviation < 0.0 <==> series[k].value < Mean(b)))
  {
    hide Variance, Sum, Baseline, Mean;
    var b := Baseline(series, window, k);
    if b != [] {
      var v := Variance(b);
      assert v < ZERO_VARIANCE <==> v * 1000000000000000000000000000000.0 < 1.0;
      if series[k].Some? {
        MeanTimes(b, series[k].value);
      }
    }
  }

  lemma MeanTimes(b: seq<real>, x: real)
    requires b != []
    ensures (x - Mean(b)) * |b| as real == x * |b| as real - Sum(b)
  {
    var n := |b| as real;
    assert Sum(b) / n * n == Sum(b);
  }

  // The peers

  /** Who a firm's peers are: the rows of its period that hold the column, itself among them, in table order. */
  lemma {:induction false} MembersMean(rows: seq<Row>, col: string, period: string)
    ensures forall k :: 0 <= k < |rows| ==>
      (k in Members(rows, col, period) <==> rows[k].period == period && col in rows[k].cells)
  {
    if rows != [] {
      var n := |rows| - 1;
      MembersMean(rows[..n], col, period);
      assert forall k :: 0 <= k < n ==> rows[..n][k] == rows[k];
    }
  }

  /** A firm has a leave-one-out score when it has a value and two or more others, varied enough, to compare it with. */
  lemma LooMeans(rows: seq<Row>, col: string, k: nat)
    requires k < |rows|
    ensures var z := LooCell(rows, col, k);
            if col !in rows[k].cells then z == Undefined
            else
              var group, seat := Peers(rows, col, k), Seat(rows, col, k);
              && group[seat] == rows[k].cells[col]
              && (z.Z? <==> |group| >= 3 && Variance(Without(group, seat)) * 1000000000000000000000000000000.0 >= 1.0)
              && (z.Z? ==> z.deviation == group[seat] - Mean(Without(group, seat))
                           && z.variance == Variance(Without(group, seat)))
  {
    hide Variance, Mean, Without;
    if col in rows[k].cells {
      var group, seat := Peers(rows, col, k), Seat(rows, col, k);
      if |group| >= 3 {
        var v := Variance(Without(group, seat));
        assert v < ZERO_VARIANCE <==> v * 1000000000000000000000000000000.0 < 1.0;
      }
    }
  }
}
