/**
 Which of several candidate rows is kept, told from their tags, dates and accession numbers, and what the caveats say of
 it.
 */
module Winners {
  import opened Outcomes
  import opened Selection
  import opened Extraction

  // Preference

  /** In Python's order of strings a comes after b: where they part it has the greater character, or it goes on. */
  predicate Later(a: string, b: string) {
    exists k :: 0 <= k <= |a| && k <= |b| && Departs(a, b, k)
  }

  predicate Departs(a: string, b: string, k: nat)
    requires k <= |a| && k <= |b|
  {
    a[..k] == b[..k] && k < |a| && (k == |b| || a[k] > b[k])
  }

  lemma SharedHead(a: string, b: string, k: nat)
    requires k <= |a| && k <= |b| && a[..k] == b[..k]
    ensures k > 0 ==> a[0] == b[0]
  {
    if k > 0 {
      assert a[..k][0] == b[..k][0];
    }
  }

  lemma {:induction false} LessMeans(a: string, b: string)
    ensures Less(b, a) <==> Later(a, b)
  {
    if a != [] && b != [] && a[0] == b[0] {
      LessMeans(a[1..], b[1..]);
      if Later(a[1..], b[1..]) {
        var k :| 0 <= k <= |a[1..]| && k <= |b[1..]| && Departs(a[1..], b[1..], k);
        assert a[..k + 1] == [a[0]] + a[1..][..k] && b[..k + 1] == [b[0]] + b[1..][..k];
        assert Departs(a, b, k + 1);
      }
      if Later(a, b) {
        var k :| 0 <= k <= |a| && k <= |b| && Departs(a, b, k);
        assert k > 0;
        assert a[1..][..k - 1] == a[..k][1..] && b[1..][..k - 1] == b[..k][1..];
        assert Departs(a[1..], b[1..], k - 1);
      }
    } else {
      if a != [] {
        assert a[..0] == b[..0] && (Less(b, a) ==> Departs(a, b, 0));
      }
      if Later(a, b) {
        var k :| 0 <= k <= |a| && k <= |b| && Departs(a, b, k);
        SharedHead(a, b, k);
      }
    }
  }

  /** The place of a tag in its metric's order; a tag that has none comes last. */
  predicate PlaceIs(order: seq<string>, tag: string, place: nat) {
    if tag in order
    then place < |order| && order[place] == tag && forall j :: place < j < |order| ==> order[j] != tag
    else place == 999
  }

  lemma {:induction false} PriorityMeans(order: seq<string>, tag: string)
    ensures forall place :: PlaceIs(order, tag, place) <==> place == Priority(order, tag)
  {
    if order != [] {
      var n := |order| - 1;
      PriorityMeans(order[..n], tag);
      assert order == order[..n] + [order[n]];
      if order[n] != tag {
        forall place ensures PlaceIs(order, tag, place) <==> PlaceIs(order[..n], tag, place) {
          assert tag in order <==> tag in order[..n];
        }
      }
    }
  }

  /** A row is preferred for the earlier tag, then for the later filing date, then for the higher accession number. */
  ghost predicate Preferred(order: seq<string>, a: Row, b: Row) {
    exists i, j :: PlaceIs(order, a.tag, i) && PlaceIs(order, b.tag, j)
      && (i < j || (i == j && (Later(a.filed, b.filed) || (a.filed == b.filed && Later(a.accn, b.accn)))))
  }

  lemma BeatsMeans(order: seq<string>, a: Row, b: Row)
    ensures Beats(RankOf(order, a), RankOf(order, b)) <==> Preferred(order, a, b)
  {
    hide Less, Later, Priority, PlaceIs;
    PriorityMeans(order, a.tag);
    PriorityMeans(order, b.tag);
    assert PlaceIs(order, a.tag, Priority(order, a.tag)) && PlaceIs(order, b.tag, Priority(order, b.tag));
    LessMeans(a.filed, b.filed);
    LessMeans(a.accn, b.accn);
    LessMeans(b.filed, a.filed);
  }

  // The rows kept

  predicate SameQuarter(a: Row, b: Row) {
    a.metric == b.metric && a.fy == b.fy && a.fp == b.fp
  }

  /** No candidate for the same metric and quarter is preferred to the row. */
  ghost predicate Unsurpassed(order: seq<string>, rows: seq<Row>, r: Row) {
    forall s :: s in rows && SameQuarter(s, r) ==> !Preferred(order, s, r)
  }

  lemma WinnerIsUnsurpassed(order: seq<string>, rows: seq<Row>, key: Key)
    requires Winner(order, rows, |rows|, key).Some?
    ensures Unsurpassed(order, rows, rows[Winner(order, rows, |rows|, key).value])
  {
    hide Winner, Beats, RankOf, Preferred;
    var w := Winner(order, rows, |rows|, key).value;
    WinnerIsOptimal(order, rows, |rows|, key);
    assert Optimal(order, rows, |rows|, key, w);
    forall s | s in rows && SameQuarter(s, rows[w])
      ensures !Preferred(order, s, rows[w])
    {
      var j :| 0 <= j < |rows| && rows[j] == s;
      BeatsMeans(order, s, rows[w]);
      BeatsIsStrict(RankOf(order, s), RankOf(order, rows[w]));
    }
  }

  lemma {:induction false} ChosenAreUnsurpassed(order: seq<string>, rows: seq<Row>, k: nat)
    requires k <= |KeysOf(rows, |rows|)|
    ensures forall r :: r in Chosen(order, rows, k) ==> r in rows && Unsurpassed(order, rows, r)
  {
    hide Winner, Unsurpassed;
    if k > 0 {
      ChosenAreUnsurpassed(order, rows, k - 1);
      var key := KeysOf(rows, |rows|)[k - 1];
      assert key in KeysOf(rows, |rows|);
      WinnerIsUnsurpassed(order, rows, key);
    }
  }

  predicate AnyOfQuarter(rows: seq<Row>, r: Row) {
    exists k :: 0 <= k < |rows| && SameQuarter(rows[k], r)
  }

  /** Every quarter of a metric that has a candidate has its winner. */
  lemma EveryQuarterHasWinner(rows: seq<Row>, m: nat, r: Row)
    requires m < |METRIC_TAGS| && r in rows && r.metric == METRIC_TAGS[m].0
    ensures AnyOfQuarter(MetricWinners(rows, m), r)
  {
    hide OfMetric;
    var mrows := OfMetric(rows, METRIC_TAGS[m].0);
    assert r in mrows;
    var keys := KeysOf(mrows, |mrows|);
    var j :| 0 <= j < |mrows| && mrows[j] == r;
    assert KeyOf(mrows[j]) in keys;
    var k :| 0 <= k < |keys| && keys[k] == KeyOf(r);
    assert KeyOf(MetricWinners(rows, m)[k]) == KeyOf(r);
  }

  /**
   The rows kept of the first n metrics: candidates that no other candidate of their metric and quarter is preferred to,
   and one for every metric and quarter that has a candidate.
   */
  lemma {:induction false} KeptAreUnsurpassed(rows: seq<Row>, n: nat)
    requires n <= |METRIC_TAGS|
    ensures forall r :: r in FinalRows(rows, n) ==> r in rows && KeptFor(rows, n, r)
    ensures forall r :: r in rows && NamedIn(r.metric, n) ==> AnyOfQuarter(FinalRows(rows, n), r)
  {
    hide MetricWinners, KeptFor, AnyOfQuarter, NamedIn;
    if n == 0 {
      NothingNamed();
    } else {
      KeptAreUnsurpassed(rows, n - 1);
      MetricKeepsUnsurpassed(rows, n - 1);
      forall r | r in FinalRows(rows, n - 1) ensures KeptFor(rows, n, r) {
        StillKeptFor(rows, n - 1, r);
      }
      forall r | r in rows && NamedIn(r.metric, n)
        ensures AnyOfQuarter(FinalRows(rows, n), r)
      {
        QuarterStays(rows, n, r);
      }
    }
  }

  lemma NothingNamed()
    ensures forall metric :: !NamedIn(metric, 0)
  {
  }

  lemma StillKeptFor(rows: seq<Row>, n: nat, r: Row)
    requires n < |METRIC_TAGS| && KeptFor(rows, n, r)
    ensures KeptFor(rows, n + 1, r)
  {
    hide Unsurpassed;
  }

  lemma QuarterStays(rows: seq<Row>, n: nat, r: Row)
    requires 0 < n <= |METRIC_TAGS| && r in rows && NamedIn(r.metric, n)
    requires NamedIn(r.metric, n - 1) ==> AnyOfQuarter(FinalRows(rows, n - 1), r)
    ensures AnyOfQuarter(FinalRows(rows, n), r)
  {
    hide MetricWinners;
    var front, more := FinalRows(rows, n - 1), MetricWinners(rows, n - 1);
    if NamedIn(r.metric, n - 1) {
      var k :| 0 <= k < |front| && SameQuarter(front[k], r);
      assert (front + more)[k] == front[k];
    } else {
      EveryQuarterHasWinner(rows, n - 1, r);
      var k :| 0 <= k < |more| && SameQuarter(more[k], r);
      assert (front + more)[|front| + k] == more[k];
    }
  }

  /** Kept for one of the first n metrics, unsurpassed in the order of its tags. */
  ghost predicate KeptFor(rows: seq<Row>, n: nat, r: Row)
    requires n <= |METRIC_TAGS|
  {
    exists m :: 0 <= m < n && METRIC_TAGS[m].0 == r.metric && Unsurpassed(METRIC_TAGS[m].1, rows, r)
  }

  lemma MetricKeepsUnsurpassed(rows: seq<Row>, m: nat)
    requires m < |METRIC_TAGS|
    ensures forall r :: r in MetricWinners(rows, m) ==> r in rows && KeptFor(rows, m + 1, r)
  {
    hide OfMetric, Preferred;
    var mrows := OfMetric(rows, METRIC_TAGS[m].0);
    ChosenAreUnsurpassed(METRIC_TAGS[m].1, mrows, |KeysOf(mrows, |mrows|)|);
    forall r | r in MetricWinners(rows, m)
      ensures r in rows && KeptFor(rows, m + 1, r)
    {
      assert r in mrows;
      assert Unsurpassed(METRIC_TAGS[m].1, rows, r);
    }
  }

  // The caveats

  /** How many rows are of one metric and quarter. */
  function OfQuarter(rows: seq<Row>, r: Row): nat {
    if rows == [] then 0 else OfQuarter(rows[..|rows| - 1], r) + if SameQuarter(rows[|rows| - 1], r) then 1 else 0
  }

  lemma {:induction false} CandidatesMean(rows: seq<Row>, r: Row)
    ensures Candidates(OfMetric(rows, r.metric), KeyOf(r)) == OfQuarter(rows, r)
  {
    if rows != [] {
      var n := |rows| - 1;
      CandidatesMean(rows[..n], r);
      var front := OfMetric(rows[..n], r.metric);
      assert (front + [rows[n]])[..|front|] == front;
    }
  }

  predicate InOrder(codes: seq<string>, duplicates: bool, fallback: bool, units: bool) {
    && (forall c :: c in codes ==>
          c in {"duplicate_candidates_resolved", "fallback_tag_used", "unresolved_unit_variation"})
    && ("duplicate_candidates_resolved" in codes <==> duplicates)
    && ("fallback_tag_used" in codes <==> fallback)
    && ("unresolved_unit_variation" in codes <==> units)
    && |codes| == (if duplicates then 1 else 0) + (if fallback then 1 else 0) + (if units then 1 else 0)
    && (duplicates ==> codes[0] == "duplicate_candidates_resolved")
    && (units ==> codes[|codes| - 1] == "unresolved_unit_variation")
  }

  /**
   A caveat says of a kept row how many candidates there were for its metric and quarter, and in alphabetical order
   whether there were several, whether its tag is not the metric's first, and whether several units had facts.
   */
  lemma CaveatMeans(rows: seq<Row>, r: Row, m: nat)
    requires m < |METRIC_TAGS| && METRIC_TAGS[m].0 == r.metric
    ensures var c := CaveatOf(rows, r);
            && c.period == r.period && c.metric == r.metric && c.sourceTag == r.tag
            && c.candidates == OfQuarter(rows, r)
            && InOrder(c.codes, c.candidates > 1, r.tag != METRIC_TAGS[m].1[0], r.multiUnitVariation)
  {
    hide OfMetric, OfQuarter, Candidates, InOrder, CodesOf, TagsOf;
    CandidatesMean(rows, r);
    TagsAreMetrics(m);
    CodesInOrder(METRIC_TAGS[m].1, CaveatOf(rows, r).candidates, r);
  }

  lemma TagsAreMetrics(m: nat)
    requires m < |METRIC_TAGS|
    ensures TagsOf(METRIC_TAGS[m].0) == METRIC_TAGS[m].1
  {
    forall j | 0 <= j < |METRIC_TAGS|
      ensures METRIC_TAGS[j].0 == METRIC_TAGS[m].0 <==> j == m
    {
      NamesDiffer(j, m);
    }
    assert METRIC_TAGS[0].0 == "revenue" && METRIC_TAGS[1].0 == "net_income" && METRIC_TAGS[2].0 == "total_assets";
    assert METRIC_TAGS[3].0 == "total_liabilities" && METRIC_TAGS[4].0 == "operating_cash_flow";
    assert METRIC_TAGS[5].0 == "current_assets";
  }

  lemma CodesInOrder(tags: seq<string>, candidates: nat, r: Row)
    requires tags != []
    ensures InOrder(CodesOf(tags, candidates, r), candidates > 1, r.tag != tags[0], r.multiUnitVariation)
  {
    assert |"duplicate_candidates_resolved"| == 29 && |"fallback_tag_used"| == 17;
    assert |"unresolved_unit_variation"| == 25;
  }
}
