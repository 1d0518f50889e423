/**
 When a peer alert is raised, told from the group's values: how many lie under, how far from the mean, and in how large
 a group; and which rows and columns the signals are read from.
 */
module Peers {
  import opened Outcomes
  import opened Moments
  import opened PeerSignals

  // The two rules

  /** How many of the group lie under the value, and how many are equal to it. */
  function Below(group: seq<real>, x: real): nat {
    if group == [] then 0 else Below(group[..|group| - 1], x) + if group[|group| - 1] < x then 1 else 0
  }

  function Level(group: seq<real>, x: real): nat {
    if group == [] then 0 else Level(group[..|group| - 1], x) + if group[|group| - 1] == x then 1 else 0
  }

  lemma {:induction false} CountsMean(group: seq<real>, x: real)
    ensures Below(group, x) == Count(group, Under(x)) && Level(group, x) == Count(group, Same(x))
  {
    if group != [] {
      CountsMean(group[..|group| - 1], x);
    }
  }

  /** Twice the value's average place in the sorted group: ties share their places. */
  function TwicePlace(group: seq<real>, x: real): real {
    2.0 * Below(group, x) as real + Level(group, x) as real + 1.0
  }

  /** The rank rule: in the top tenth, or the bottom tenth, of two or more. */
  predicate RanksHigh(group: seq<real>, x: real) {
    |group| >= 2 && TwicePlace(group, x) * 50.0 >= 90.0 * |group| as real
  }

  predicate RanksLow(group: seq<real>, x: real) {
    |group| >= 2 && TwicePlace(group, x) * 50.0 <= 10.0 * |group| as real
  }

  /** Spread out enough for a deviation to mean something: a standard deviation of 1e-15. */
  predicate Spreads(group: seq<real>)
    requires group != []
  {
    Variance(group) * 1000000000000000000000000000000.0 >= 1.0
  }

  /** The z rule: more than two standard deviations over, or under, the mean of three or more. */
  predicate FarAbove(group: seq<real>, x: real)
    requires group != []
  {
    |group| >= 3 && Spreads(group) && x > Mean(group) && (x - Mean(group)) * (x - Mean(group)) > 4.0 * Variance(group)
  }

  predicate FarBelow(group: seq<real>, x: real)
    requires group != []
  {
    |group| >= 3 && Spreads(group) && x < Mean(group) && (x - Mean(group)) * (x - Mean(group)) > 4.0 * Variance(group)
  }

  lemma RankMeans(group: seq<real>, x: real)
    requires group != []
    ensures var pr := PctRank(group, x);
            && (pr.Some? <==> |group| >= 2)
            && (pr.Some? ==> pr.value * |group| as real == TwicePlace(group, x) * 50.0)
            && (RankSignal(pr, CoverageOf(|group|)) == High <==> RanksHigh(group, x))
            && (RankSignal(pr, CoverageOf(|group|)) == Low <==> RanksLow(group, x))
            && (RankSignal(pr, CoverageOf(|group|)) == Unavailable <==> |group| < 2)
  {
    CountsMean(group, x);
    var n := |group| as real;
    if |group| >= 2 {
      var rank := AverageRank(group, x);
      assert 2.0 * rank == TwicePlace(group, x);
      Percentage(rank, n);
    }
  }

  lemma Percentage(rank: real, n: real)
    requires n > 0.0
    ensures rank / n * 100.0 * n == rank * 100.0
    ensures rank / n * 100.0 >= 90.0 <==> rank * 100.0 >= 90.0 * n
    ensures rank / n * 100.0 <= 10.0 <==> rank * 100.0 <= 10.0 * n
  {
    var p := rank / n * 100.0;
    assert rank / n * n == rank;
    assert p * n == rank * 100.0;
    assert (p - 90.0) * n == rank * 100.0 - 90.0 * n;
    assert (p - 10.0) * n == rank * 100.0 - 10.0 * n;
  }

  lemma ZMeans(group: seq<real>, x: real)
    requires group != []
    ensures var z := ZSignal(PeerZ(group, x), CoverageOf(|group|));
            && (z == High <==> FarAbove(group, x)) && (z == Low <==> FarBelow(group, x))
            && (z == Unavailable <==> |group| < 3 || !Spreads(group))
  {
    hide Variance, Mean;
    var v := Variance(group);
    assert v < ZERO_VARIANCE <==> v * 1000000000000000000000000000000.0 < 1.0;
  }

  // The alert

  /** A firm is flagged high when either rule says so, low when either says so; they never point apart. */
  lemma AlertMeans(cik: int, period: string, metric: string, group: seq<real>, i: nat)
    requires i < |group|
    ensures var s := Classified(cik, period, metric, group, group[i]);
            && (s.alert == ExtremeHigh <==> RanksHigh(group, group[i]) || FarAbove(group, group[i]))
            && (s.alert == ExtremeLow <==> RanksLow(group, group[i]) || FarBelow(group, group[i]))
            && (s.alert == AlertUnavailable <==> |group| < 2)
  {
    hide Variance, Mean, RanksHigh, RanksLow, FarAbove, FarBelow, PctRank, PeerZ;
    RankMeans(group, group[i]);
    ZMeans(group, group[i]);
    RankAndZAgree(cik, period, metric, group, i);
    NotBoth(group, group[i]);
    SmallMeans(group, group[i]);
  }

  lemma SmallMeans(group: seq<real>, x: real)
    requires group != []
    ensures |group| < 2 ==> !RanksHigh(group, x) && !RanksLow(group, x) && !FarAbove(group, x) && !FarBelow(group, x)
  {
  }

  lemma NotBoth(group: seq<real>, x: real)
    requires group != []
    ensures !(RanksHigh(group, x) && RanksLow(group, x)) && !(FarAbove(group, x) && FarBelow(group, x))
  {
  }

  // Whom a signal is about

  /** Positions in increasing order, exactly those that satisfy a condition. */
  predicate Selects(n: nat, p: nat -> bool, places: seq<nat>) {
    && (forall j :: 0 <= j < |places| ==> places[j] < n)
    && (forall j :: 0 <= j < |places| ==> p(places[j]))
    && (forall i, j :: 0 <= i < j < |places| ==> places[i] < places[j])
    && forall k :: 0 <= k < n && p(k) ==> k in places
  }

  /** One position more, where the condition says the same of those before. */
  lemma OneMoreSelected(n: nat, p: nat -> bool, q: nat -> bool, places: seq<nat>)
    requires Selects(n, p, places) && forall k: nat :: k < n ==> (p(k) <==> q(k))
    ensures if q(n) then Selects(n + 1, q, places + [n]) else Selects(n + 1, q, places)
  {
  }

  lemma NothingSelected(p: nat -> bool)
    ensures Selects(0, p, [])
  {
  }

  function Holds(rows: seq<Row>, metric: string): nat -> bool {
    (k: nat) => k < |rows| && metric in rows[k].cells
  }

  /** The rows that hold the metric, in table order. */
  lemma {:induction false} PresentMeans(rows: seq<Row>, metric: string) returns (places: seq<nat>)
    ensures Selects(|rows|, Holds(rows, metric), places) && |places| == |Present(rows, metric)|
    ensures forall j :: 0 <= j < |places| ==> places[j] < |rows| && Present(rows, metric)[j] == rows[places[j]]
  {
    hide Selects;
    places := [];
    if rows == [] {
      NothingSelected(Holds(rows, metric));
    } else {
      var n := |rows| - 1;
      places := PresentMeans(rows[..n], metric);
      OneMoreSelected(n, Holds(rows[..n], metric), Holds(rows, metric), places);
      if metric in rows[n].cells {
        places := places + [n];
      }
    }
  }

  function Within(rows: seq<Row>, period: string): nat -> bool {
    (k: nat) => k < |rows| && rows[k].period == period
  }

  /** The group's values are those of the rows of its period, in table order. */
  lemma {:induction false} GroupMeans(rows: seq<Row>, metric: string, period: string) returns (places: seq<nat>)
    requires forall row :: row in rows ==> metric in row.cells
    ensures Selects(|rows|, Within(rows, period), places) && |places| == |Group(rows, metric, period)|
    ensures forall j :: 0 <= j < |places| ==>
      places[j] < |rows| && metric in rows[places[j]].cells
      && Group(rows, metric, period)[j] == rows[places[j]].cells[metric]
  {
    hide Selects;
    places := [];
    if rows == [] {
      NothingSelected(Within(rows, period));
    } else {
      var n := |rows| - 1;
      assert rows[n] in rows && forall row :: row in rows[..n] ==> row in rows;
      places := GroupMeans(rows[..n], metric, period);
      OneMoreSelected(n, Within(rows[..n], period), Within(rows, period), places);
      if rows[n].period == period {
        places := places + [n];
      }
    }
  }

  /** One signal for each row that holds the metric, about its firm, its period, and its value in its period's group. */
  lemma {:induction false} MetricSignalsMean(base: seq<Row>, metric: string, n: nat, k: nat)
    requires k < n <= |base| && forall row :: row in base ==> metric in row.cells
    ensures base[k] in base
    ensures var group := Group(base, metric, base[k].period);
            group != []
            && MetricSignals(base, metric, n)[k]
               == Classified(base[k].cik, base[k].period, metric, group, base[k].cells[metric])
  {
    hide Classified, Group;
    var i := Place(base, metric, n - 1);
    if k < n - 1 {
      MetricSignalsMean(base, metric, n - 1, k);
    }
  }

  /** What a signal says of itself. */
  lemma SignalMeans(cik: int, period: string, metric: string, group: seq<real>, x: real)
    requires group != []
    ensures var s := Classified(cik, period, metric, group, x);
            && s.cik == cik && s.period == period && s.metric == metric && s.value == x && s.groupSize == |group|
            && (s.coverage == InsufficientPeers <==> |group| < 2) && (s.coverage == Full <==> |group| >= 3)
            && (s.z.Z? ==> s.z.deviation == x - Mean(group) && s.z.variance == Variance(group))
            && (s.z.Z? <==> |group| >= 3 && Spreads(group))
  {
    hide Mean, Variance, PctRank;
    assert Variance(group) < ZERO_VARIANCE <==> Variance(group) * 1000000000000000000000000000000.0 < 1.0;
  }

  predicate Reported(features: Table, metric: string, row: Row, s: Signal) {
    && metric in features.columns && metric in row.cells
    && s.metric == metric && s.cik == row.cik && s.period == row.period && s.value == row.cells[metric]
  }

  /** Some row of the table and one of the first n metrics account for the signal. */
  predicate Accounted(features: Table, n: nat, s: Signal)
    requires n <= |PEER_SIGNAL_METRICS|
  {
    exists m, k :: 0 <= m < n && 0 <= k < |features.rows|
                   && Reported(features, PEER_SIGNAL_METRICS[m], features.rows[k], s)
  }

  predicate AnyReports(features: Table, metric: string, row: Row, signals: seq<Signal>) {
    exists k :: 0 <= k < |signals| && Reported(features, metric, row, signals[k])
  }

  lemma ColumnReports(features: Table, metric: string, places: seq<nat>)
    requires metric in features.columns
    requires var base := Present(features.rows, metric);
             Selects(|features.rows|, Holds(features.rows, metric), places) && |places| == |base|
             && forall j :: 0 <= j < |places| ==> base[j] == features.rows[places[j]]
    ensures var base := Present(features.rows, metric);
            var signals := MetricSignals(base, metric, |base|);
            && (forall j :: 0 <= j < |signals| ==> Reported(features, metric, features.rows[places[j]], signals[j]))
            && forall k :: 0 <= k < |features.rows| && metric in features.rows[k].cells ==>
                 AnyReports(features, metric, features.rows[k], signals)
  {
    hide Classified, MetricSignals, Present, Group;
    var base := Present(features.rows, metric);
    var signals := MetricSignals(base, metric, |base|);
    forall j | 0 <= j < |signals|
      ensures Reported(features, metric, features.rows[places[j]], signals[j])
    {
      MetricSignalsMean(base, metric, |base|, j);
      SignalMeans(base[j].cik, base[j].period, metric, Group(base, metric, base[j].period), base[j].cells[metric]);
    }
    forall k | 0 <= k < |features.rows| && metric in features.rows[k].cells
      ensures AnyReports(features, metric, features.rows[k], signals)
    {
      assert Holds(features.rows, metric)(k);
      var j :| 0 <= j < |places| && places[j] == k;
      assert Reported(features, metric, features.rows[places[j]], signals[j]);
    }
  }

  /** The signals are those of the metrics the table has a column for: every value has one, and nothing else does. */
  lemma {:induction false} SignalsMean(features: Table, n: nat)
    requires n <= |PEER_SIGNAL_METRICS|
    ensures forall s :: s in Signals(features, n) ==> Accounted(features, n, s)
    ensures forall m, k :: 0 <= m < n && 0 <= k < |features.rows| && PEER_SIGNAL_METRICS[m] in features.columns
                           && PEER_SIGNAL_METRICS[m] in features.rows[k].cells ==>
      AnyReports(features, PEER_SIGNAL_METRICS[m], features.rows[k], Signals(features, n))
  {
    hide MetricSignals, Present, Reported, AnyReports;
    if n > 0 {
      SignalsMean(features, n - 1);
      var metric := PEER_SIGNAL_METRICS[n - 1];
      var front, base := Signals(features, n - 1), Present(features.rows, metric);
      forall s | s in front ensures Accounted(features, n, s) {
        assert Accounted(features, n - 1, s);
      }
      var more := if metric in features.columns then MetricSignals(base, metric, |base|) else [];
      if metric in features.columns {
        var places := PresentMeans(features.rows, metric);
        ColumnReports(features, metric, places);
        forall s | s in more ensures Accounted(features, n, s) {
          var j :| 0 <= j < |more| && more[j] == s;
          assert Reported(features, PEER_SIGNAL_METRICS[n - 1], features.rows[places[j]], s);
        }
      }
      forall m, k | 0 <= m < n && 0 <= k < |features.rows| && PEER_SIGNAL_METRICS[m] in features.columns
                    && PEER_SIGNAL_METRICS[m] in features.rows[k].cells
        ensures AnyReports(features, PEER_SIGNAL_METRICS[m], features.rows[k], front + more)
      {
        StillReported(features, PEER_SIGNAL_METRICS[m], features.rows[k], front, more);
      }
      assert Signals(features, n) == front + more;
    }
  }

  lemma StillReported(features: Table, metric: string, row: Row, front: seq<Signal>, more: seq<Signal>)
    requires AnyReports(features, metric, row, front) || AnyReports(features, metric, row, more)
    ensures AnyReports(features, metric, row, front + more)
  {
    hide Reported;
    if AnyReports(features, metric, row, front) {
      var k :| 0 <= k < |front| && Reported(features, metric, row, front[k]);
      assert (front + more)[k] == front[k];
    } else {
      var k :| 0 <= k < |more| && Reported(features, metric, row, more[k]);
      assert (front + more)[|front| + k] == more[k];
    }
  }
}
