/**
 What a trend row says, told from the firm's series: which values its windows hold, which way the last ones move, what
 its score is made of and what its type means.
 */
module Trends {
  import opened Outcomes
  import opened Moments
  import opened Anomaly
  import opened TrendBreaks

  // The values seen

  /** Where the values of a series are, in order and without gaps. */
  predicate PlacesOf(series: seq<Option<real>>, places: seq<nat>) {
    && (forall j :: 0 <= j < |places| ==> places[j] < |series| && series[places[j]].Some?)
    && (forall i, j :: 0 <= i < j < |places| ==> places[i] < places[j])
    && (forall k :: 0 <= k < |series| && series[k].Some? ==> k in places)
  }

  /** The values seen are those of the series that are there, in their order. */
  lemma {:induction false} KnownMeans(series: seq<Option<real>>) returns (places: seq<nat>)
    ensures PlacesOf(series, places) && |places| == |Known(series)|
    ensures forall j :: 0 <= j < |places| ==> Known(series)[j] == series[places[j]].value
  {
    places := [];
    if series != [] {
      var n := |series| - 1;
      places := KnownMeans(series[..n]);
      assert forall k :: 0 <= k < n ==> series[..n][k] == series[k];
      if series[n].Some? {
        places := places + [n];
      }
    }
  }

  lemma {:induction false} RowsAre(root: real -> real, priorWindow: nat, recentWindow: nat, series: seq<Option<real>>,
                                   n: nat, k: nat)
    requires priorWindow > 0 && recentWindow > 0 && k < n <= |series|
    ensures Rows(root, priorWindow, recentWindow, series, n)[k]
         == RowAt(root, priorWindow, recentWindow, Known(series[..k + 1]), series[k])
  {
    if k < n - 1 {
      RowsAre(root, priorWindow, recentWindow, series, n - 1, k);
    }
  }

  // The row

  /** The values from one position to another exceed, or fall below, the one before. */
  predicate Climbs(ys: seq<real>, from: nat) {
    forall j :: 0 <= from < j < |ys| ==> ys[j] > ys[j - 1]
  }

  predicate Sinks(ys: seq<real>, from: nat) {
    forall j :: 0 <= from < j < |ys| ==> ys[j] < ys[j - 1]
  }

  /** A row that has too short a history says so, and nothing else. */
  lemma ShortRowMeans(root: real -> real, priorWindow: nat, recentWindow: nat, seen: seq<real>, value: Option<real>)
    requires priorWindow > 0 && recentWindow > 0
    ensures var row := RowAt(root, priorWindow, recentWindow, seen, value);
            && row.value == value && row.historyPoints == |seen|
            && (row.shortHistory <==> |seen| < priorWindow + recentWindow)
            && (row.shortHistory <==> row.windows.None?) && (row.shortHistory <==> row.signalType == ShortHistory)
            && (row.shortHistory ==> row.direction == NoStreak && row.streak == 0 && row.score == 0.0)
  {
    hide Score, LinearSlope, StreakDirection;
  }

  /** The direction is that of the recent window's values and the one before them, from three values on. */
  lemma DirectionMeans(root: real -> real, priorWindow: nat, recentWindow: nat, seen: seq<real>, value: Option<real>)
    requires priorWindow > 0 && recentWindow > 0 && |seen| >= priorWindow + recentWindow
    ensures var row, from := RowAt(root, priorWindow, recentWindow, seen, value), |seen| - recentWindow - 1;
            && (row.direction == Improving <==> recentWindow >= 2 && Climbs(seen, from))
            && (row.direction == Deteriorating <==> recentWindow >= 2 && Sinks(seen, from))
            && (row.direction == NoStreak <==> recentWindow < 2)
            && row.streak == if recentWindow < 2 then 0 else recentWindow
  {
    hide Score, LinearSlope;
    var from := |seen| - recentWindow - 1;
    var streak := seen[from..];
    SuffixMoves(seen, from);
  }

  lemma SuffixMoves(ys: seq<real>, from: nat)
    requires from < |ys|
    ensures Rising(ys[from..]) <==> Climbs(ys, from)
    ensures Falling(ys[from..]) <==> Sinks(ys, from)
    ensures |ys| - from >= 2 ==> !(Climbs(ys, from) && Sinks(ys, from))
  {
    var s := ys[from..];
    if Rising(s) {
      forall j | from < j < |ys| ensures ys[j] > ys[j - 1] {
        assert s[j - from] - s[j - from - 1] > 0.0;
      }
    }
    if Falling(s) {
      forall j | from < j < |ys| ensures ys[j] < ys[j - 1] {
        assert s[j - from] - s[j - from - 1] < 0.0;
      }
    }
    if Climbs(ys, from) {
      forall k | 0 < k < |s| ensures s[k] - s[k - 1] > 0.0 {
        assert ys[from + k] > ys[from + k - 1];
      }
    }
    if Sinks(ys, from) {
      forall k | 0 < k < |s| ensures s[k] - s[k - 1] < 0.0 {
        assert ys[from + k] < ys[from + k - 1];
      }
    }
    if |s| >= 2 && Climbs(ys, from) {
      assert ys[from + 1] > ys[from];
    }
  }

  /** The windows: the last values and the ones before them, their means, and what lies between. */
  lemma WindowsMean(root: real -> real, priorWindow: nat, recentWindow: nat, seen: seq<real>, value: Option<real>)
    requires priorWindow > 0 && recentWindow > 0 && |seen| >= priorWindow + recentWindow
    ensures var row, n := RowAt(root, priorWindow, recentWindow, seen, value), |seen|;
            var prior, recent := seen[n - priorWindow - recentWindow..n - recentWindow], seen[n - recentWindow..];
            row.windows.Some?
            && var w := row.windows.value;
               && w.priorMean * priorWindow as real == Sum(prior) && w.recentMean * recentWindow as real == Sum(recent)
               && w.meanShift == w.recentMean - w.priorMean
               && w.priorSlope == LinearSlope(prior) && w.recentSlope == LinearSlope(recent)
               && (w.slopeShift.Some? <==> priorWindow >= 2 && recentWindow >= 2)
               && (w.slopeShift.Some? ==> w.slopeShift.value == w.recentSlope.value - w.priorSlope.value)
  {
    hide Score, StreakDirection, Sum;
    var n := |seen|;
    var prior, recent := seen[n - priorWindow - recentWindow..n - recentWindow], seen[n - recentWindow..];
    MeanTimes(Sum(prior), priorWindow as real);
    MeanTimes(Sum(recent), recentWindow as real);
  }

  lemma MeanTimes(s: real, n: real)
    requires n > 0.0
    ensures s / n * n == s
  {
  }

  // The score

  function Size(x: real): real {
    if x >= 0.0 then x else -x
  }

  /** A part of the score that grows with a size up to a ceiling. */
  predicate UpTo(part: real, size: real, unit: real, ceiling: real) {
    if size >= ceiling * unit then part == ceiling else part * unit == size
  }

  /**
   The score's three parts: the mean's shift in standard deviations of the prior window, up to three; the slope's shift,
   up to one and a half; and a half for values that move one way.
   */
  predicate Scored(row: TrendRow, deviation: real, mean: real, slope: real, streak: real)
    requires row.windows.Some?
  {
    var w := row.windows.value;
    && row.score == mean + slope + streak
    && UpTo(mean, Size(w.meanShift), if deviation >= 0.000000001 then deviation else 0.000000001, 3.0)
    && (if w.slopeShift.Some? then UpTo(slope, Size(w.slopeShift.value), 1.0, 1.5) else slope == 0.0)
    && streak == if row.direction == Improving || row.direction == Deteriorating then 0.5 else 0.0
  }

  lemma MeanPart(x: real, d: real)
    requires d > 0.0
    ensures UpTo(MinOf(Abs(x) / d, 3.0), Size(x), d, 3.0)
  {
    var q := Size(x) / d;
    assert q * d == Size(x);
    assert (q - 3.0) * d == Size(x) - 3.0 * d;
  }

  lemma ScoreParts(root: real -> real, prior: seq<real>, meanShift: real, slopeShift: Option<real>,
                   direction: Direction)
    returns (mean: real, slope: real, streak: real)
    requires prior != []
    ensures Score(root, prior, meanShift, slopeShift, direction) == mean + slope + streak
    ensures var d := root(Variance(prior));
            UpTo(mean, Size(meanShift), if d >= 0.000000001 then d else 0.000000001, 3.0)
    ensures if slopeShift.Some? then UpTo(slope, Size(slopeShift.value), 1.0, 1.5) else slope == 0.0
    ensures streak == if direction == Improving || direction == Deteriorating then 0.5 else 0.0
  {
    hide Variance;
    var unit := MaxOf(root(Variance(prior)), 0.000000001);
    MeanPart(meanShift, unit);
    mean := MinOf(Abs(meanShift) / unit, 3.0);
    slope := if slopeShift.Some? then MinOf(Size(slopeShift.value), 1.5) else 0.0;
    streak := if direction == Improving || direction == Deteriorating then 0.5 else 0.0;
  }

  lemma ScoreMeans(root: real -> real, priorWindow: nat, recentWindow: nat, seen: seq<real>, value: Option<real>)
    returns (mean: real, slope: real, streak: real)
    requires priorWindow > 0 && recentWindow > 0 && |seen| >= priorWindow + recentWindow
    ensures var row, n := RowAt(root, priorWindow, recentWindow, seen, value), |seen|;
            row.windows.Some?
            && Scored(row, root(Variance(seen[n - priorWindow - recentWindow..n - recentWindow])), mean, slope, streak)
  {
    hide LinearSlope, StreakDirection, Variance, Mean, Score, UpTo;
    var row, n := RowAt(root, priorWindow, recentWindow, seen, value), |seen|;
    var prior, w := seen[n - priorWindow - recentWindow..n - recentWindow], row.windows.value;
    mean, slope, streak := ScoreParts(root, prior, w.meanShift, w.slopeShift, row.direction);
  }

  /** The type tells the score's range: strong from two on, moderate from one on, otherwise worth watching. */
  lemma TypeMeans(root: real -> real, priorWindow: nat, recentWindow: nat, seen: seq<real>, value: Option<real>)
    requires priorWindow > 0 && recentWindow > 0 && |seen| >= priorWindow + recentWindow
    ensures var row := RowAt(root, priorWindow, recentWindow, seen, value);
            && (row.signalType == StrongShift <==> row.score >= 2.0)
            && (row.signalType == ModerateShift <==> 1.0 <= row.score < 2.0)
            && (row.signalType == Watch <==> row.score < 1.0)
  {
    hide Score, LinearSlope, StreakDirection;
  }

  /**
   The row of a firm's quarter, from the firm's own series: its value, how many values have been seen, and, with enough
   of them, improving exactly when each of the last values exceeds the one before, deteriorating exactly when each is
   below.
   */
  lemma TrendRowMeans(root: real -> real, priorWindow: nat, recentWindow: nat, series: seq<Option<real>>, k: nat)
    returns (places: seq<nat>)
    requires priorWindow > 0 && recentWindow > 0 && k < |series|
    ensures PlacesOf(series[..k + 1], places)
    ensures var row := Rows(root, priorWindow, recentWindow, series, |series|)[k];
            && row.value == series[k] && row.historyPoints == |places|
            && (row.shortHistory <==> |places| < priorWindow + recentWindow)
            && (row.direction == Improving
                <==> !row.shortHistory && recentWindow >= 2 && MovesUp(series, places, |places| - recentWindow - 1))
            && (row.direction == Deteriorating
                <==> !row.shortHistory && recentWindow >= 2 && MovesDown(series, places, |places| - recentWindow - 1))
  {
    hide RowAt, Rows;
    var seen := Known(series[..k + 1]);
    places := KnownMeans(series[..k + 1]);
    RowsAre(root, priorWindow, recentWindow, series, |series|, k);
    ShortRowMeans(root, priorWindow, recentWindow, seen, series[k]);
    if |seen| >= priorWindow + recentWindow {
      DirectionMeans(root, priorWindow, recentWindow, seen, series[k]);
      SeenMoves(series, k, places, seen, |seen| - recentWindow - 1);
    }
  }

  /** From one of the places on, each value of the series exceeds the value before it. */
  predicate MovesUp(series: seq<Option<real>>, places: seq<nat>, from: int)
    requires forall j :: 0 <= j < |places| ==> places[j] < |series| && series[places[j]].Some?
  {
    forall j :: 0 <= from < j < |places| ==> series[places[j]].value > series[places[j - 1]].value
  }

  predicate MovesDown(series: seq<Option<real>>, places: seq<nat>, from: int)
    requires forall j :: 0 <= j < |places| ==> places[j] < |series| && series[places[j]].Some?
  {
    forall j :: 0 <= from < j < |places| ==> series[places[j]].value < series[places[j - 1]].value
  }

  lemma SeenMoves(series: seq<Option<real>>, k: nat, places: seq<nat>, seen: seq<real>, from: nat)
    requires k < |series| && PlacesOf(series[..k + 1], places) && |seen| == |places|
    requires forall j :: 0 <= j < |places| ==> seen[j] == series[..k + 1][places[j]].value
    ensures forall j :: 0 <= j < |places| ==> places[j] < |series| && series[places[j]].Some?
    ensures MovesUp(series, places, from) <==> Climbs(seen, from)
    ensures MovesDown(series, places, from) <==> Sinks(seen, from)
  {
    forall j | 0 <= j < |places|
      ensures places[j] < |series| && series[places[j]].Some? && seen[j] == series[places[j]].value
    {
      assert series[..k + 1][places[j]] == series[places[j]];
    }
  }
}
