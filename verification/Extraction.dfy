/**
 src/metric_extraction.py: one company's facts, filtered tag by tag and unit by unit into candidate rows, one of which
 is kept for each metric and fiscal quarter. Whatever is not kept is counted under a reason.
 */
module Extraction {
  import opened Outcomes
  import opened Exclusions
  import opened Selection
  import Ids

  /** A field of a fact; of a list or an object only the size is looked at. */
  datatype Json = Null | Boolean(b: bool) | Number(n: real) | Text(s: string) | Composite(size: nat)

  /** An entry of a unit's list: a fact, or something that is not an object. A form or fp that is not a text is None. */
  datatype Entry =
    | Misshapen
    | Fact(segments: Json, segment: Json, form: Option<string>, fp: Option<string>, fy: Json, val: Json, filed: string,
           accn: string)

  /** A unit of a concept and its entries, where they are a list. */
  datatype Unit = Unit(key: string, entries: Option<seq<Entry>>)

  /** The us-gaap concepts by tag, each with its units. */
  type Facts = map<string, seq<Unit>>

  /** Python's int and float of a text. */
  datatype Reader = Reader(parseInt: string -> Option<int>, parseFloat: string -> Option<real>)

  const ALLOWED_FORMS: set<string> := {"10-K", "10-Q"}
  const QUARTER_FPS: set<string> := {"Q1", "Q2", "Q3", "Q4"}

  const METRIC_TAGS: seq<(string, seq<string>)> :=
    [("revenue", ["Revenues", "RevenueFromContractWithCustomerExcludingAssessedTax", "SalesRevenueNet",
                  "RevenueFromContractWithCustomerIncludingAssessedTax"]),
     ("net_income", ["NetIncomeLoss", "ProfitLoss"]),
     ("total_assets", ["Assets"]),
     ("total_liabilities", ["Liabilities"]),
     ("operating_cash_flow", ["NetCashProvidedByUsedInOperatingActivities"]),
     ("current_assets", ["AssetsCurrent"]),
     ("current_liabilities", ["LiabilitiesCurrent"])]

  /** One of the first m metrics has this name. */
  predicate NamedIn(metric: string, m: nat)
    requires m <= |METRIC_TAGS|
  {
    exists k :: 0 <= k < m && METRIC_TAGS[k].0 == metric
  }

  function UnitsOf(facts: Facts, tag: string): seq<Unit> {
    if tag in facts then facts[tag] else []
  }

  predicate IsTrue(j: Json) {
    match j
    case Null => false
    case Boolean(b) => b
    case Number(n) => n != 0.0
    case Text(s) => s != ""
    case Composite(size) => size > 0
  }

  /** _entry_has_segment_dimensions */
  predicate HasSegments(e: Entry)
    requires e.Fact?
  {
    IsTrue(if e.segments.Null? then e.segment else e.segments)
  }

  /** int() drops the fraction, toward zero. */
  function Truncated(n: real): int {
    if n >= 0.0 then n.Floor else -((-n).Floor)
  }

  function AsInt(read: Reader, j: Json): Option<int> {
    match j
    case Null => None
    case Boolean(b) => Some(if b then 1 else 0)
    case Number(n) => Some(Truncated(n))
    case Text(s) => read.parseInt(s)
    case Composite(_) => None
  }

  function AsFloat(read: Reader, j: Json): Option<real> {
    match j
    case Null => None
    case Boolean(b) => Some(if b then 1.0 else 0.0)
    case Number(n) => Some(n)
    case Text(s) => read.parseFloat(s)
    case Composite(_) => None
  }

  /** A fact that is kept, or the one reason it is counted under. */
  datatype Fate = Kept(row: Row) | Dropped(reason: Reason)

  function PeriodOf(fy: int, fp: string): string {
    Ids.Signed(fy) + "-" + fp
  }

  function FateOf(read: Reader, tag: string, yearMin: int, multiUnit: bool, e: Entry): Fate {
    if e.Misshapen? then Dropped(InvalidEntryShape)
    else if HasSegments(e) then Dropped(SegmentedContextExcluded)
    else if e.form.None? || e.form.value !in ALLOWED_FORMS then Dropped(InvalidForm)
    else if e.fp.None? || e.fp.value !in QUARTER_FPS then Dropped(InvalidPeriod)
    else
      var fy := AsInt(read, e.fy);
      if fy.None? then Dropped(InvalidFiscalYear)
      else if fy.value < yearMin then Dropped(YearOutOfRange)
      else if e.val.Null? then Dropped(NullFactValue)
      else
        var v := AsFloat(read, e.val);
        if v.None? then Dropped(NonNumeric)
        else Kept(Row(fy.value, e.fp.value, PeriodOf(fy.value, e.fp.value), "", tag,
                      v.value, e.filed, e.accn, e.form.value, multiUnit))
  }

  /** Only the facts of a USD unit are looked at. */
  function EntriesRows(read: Reader, tag: string, yearMin: int, multiUnit: bool, es: seq<Entry>, n: nat): (r: seq<Row>)
    requires n <= |es|
    ensures forall row :: row in r ==> Minted(row)
  {
    if n == 0 then []
    else
      var rows, fate := EntriesRows(read, tag, yearMin, multiUnit, es, n - 1),
                        FateOf(read, tag, yearMin, multiUnit, es[n - 1]);
      if fate.Kept? then rows + [fate.row] else rows
  }

  function EntriesCounts(c: Counts, read: Reader, tag: string, yearMin: int, multiUnit: bool, es: seq<Entry>,
                         n: nat): Counts
    requires n <= |es|
  {
    if n == 0 then c
    else
      var d, fate := EntriesCounts(c, read, tag, yearMin, multiUnit, es, n - 1),
                     FateOf(read, tag, yearMin, multiUnit, es[n - 1]);
      if fate.Kept? then d else Bumped(d, fate.reason, 1)
  }

  /** A kept row's period spells its fiscal year and quarter. */
  predicate Minted(r: Row) {
    r.fp in QUARTER_FPS && r.period == PeriodOf(r.fy, r.fp)
  }

  /** More than one unit of the concept has facts. */
  function UnitsWithFacts(units: seq<Unit>): nat {
    if units == [] then 0
    else
      var last := units[|units| - 1];
      UnitsWithFacts(units[..|units| - 1]) + if last.entries.Some? && last.entries.value != [] then 1 else 0
  }

  /** What the examined part of a unit amounts to: its entries, or one for something that is not a list. */
  function Size(u: Unit): nat {
    if u.entries.Some? then |u.entries.value| else 1
  }

  function TagRows(read: Reader, tag: string, yearMin: int, units: seq<Unit>, n: nat): (r: seq<Row>)
    requires n <= |units|
    ensures forall row :: row in r ==> Minted(row)
  {
    if n == 0 then []
    else
      var rows, u := TagRows(read, tag, yearMin, units, n - 1), units[n - 1];
      if u.key == "USD" && u.entries.Some? then
        rows + EntriesRows(read, tag, yearMin, UnitsWithFacts(units) > 1, u.entries.value, |u.entries.value|)
      else rows
  }

  function TagCounts(c: Counts, read: Reader, tag: string, yearMin: int, units: seq<Unit>, n: nat): Counts
    requires n <= |units|
  {
    if n == 0 then c
    else
      var d, u := TagCounts(c, read, tag, yearMin, units, n - 1), units[n - 1];
      if u.key != "USD" then Bumped(d, UnsupportedUnit, Size(u))
      else if u.entries.None? then Bumped(d, InvalidEntryShape, 1)
      else EntriesCounts(d, read, tag, yearMin, UnitsWithFacts(units) > 1, u.entries.value, |u.entries.value|)
  }

  function Examined(units: seq<Unit>, n: nat): nat
    requires n <= |units|
  {
    if n == 0 then 0 else Examined(units, n - 1) + Size(units[n - 1])
  }

  method CountUnitsWithFacts(units: seq<Unit>) returns (n: nat)
    ensures n == UnitsWithFacts(units)
  {
    n := 0;
    for k := 0 to |units|
      invariant n == UnitsWithFacts(units[..k])
    {
      assert units[..k + 1][..k] == units[..k];
      if units[k].entries.Some? && units[k].entries.value != [] {
        n := n + 1;
      }
    }
    assert units[..|units|] == units;
  }

  /** _gather_tag_rows */
  method GatherTagRows(facts: Facts, read: Reader, tag: string, yearMin: int, exclusions: ExclusionCounts?)
    returns (out: seq<Row>)
    modifies exclusions
    ensures out == TagRows(read, tag, yearMin, UnitsOf(facts, tag), |UnitsOf(facts, tag)|)
    ensures exclusions != null ==>
      exclusions.counts
      == TagCounts(old(exclusions.counts), read, tag, yearMin, UnitsOf(facts, tag), |UnitsOf(facts, tag)|)
  {
    hide FateOf, EntriesRows, EntriesCounts, Bumped;
    out := [];
    if tag !in facts {
      return;
    }
    var units := facts[tag];
    var withFacts := CountUnitsWithFacts(units);
    for u := 0 to |units|
      invariant out == TagRows(read, tag, yearMin, units, u)
      invariant exclusions != null ==>
        exclusions.counts == TagCounts(old(exclusions.counts), read, tag, yearMin, units, u)
    {
      var entries := units[u].entries;
      if units[u].key != "USD" {
        Bump(exclusions, UnsupportedUnit, if entries.Some? then |entries.value| else 1);
        continue;
      }
      if entries.None? {
        Bump(exclusions, InvalidEntryShape, 1);
        continue;
      }
      var rows := GatherEntries(read, tag, yearMin, withFacts > 1, entries.value, exclusions);
      out := out + rows;
    }
  }

  /** The inner loop: every entry of a USD unit is kept or counted. */
  method GatherEntries(read: Reader, tag: string, yearMin: int, multiUnit: bool, es: seq<Entry>,
                       exclusions: ExclusionCounts?)
    returns (out: seq<Row>)
    modifies exclusions
    ensures out == EntriesRows(read, tag, yearMin, multiUnit, es, |es|)
    ensures exclusions != null ==>
      exclusions.counts == EntriesCounts(old(exclusions.counts), read, tag, yearMin, multiUnit, es, |es|)
  {
    hide HasSegments, AsInt, AsFloat, PeriodOf, Bumped;
    out := [];
    for k := 0 to |es|
      invariant out == EntriesRows(read, tag, yearMin, multiUnit, es, k)
      invariant exclusions != null ==>
        exclusions.counts == EntriesCounts(old(exclusions.counts), read, tag, yearMin, multiUnit, es, k)
    {
      var e := es[k];
      if e.Misshapen? {
        Bump(exclusions, InvalidEntryShape, 1);
        continue;
      }
      if HasSegments(e) {
        Bump(exclusions, SegmentedContextExcluded, 1);
        continue;
      }
      if e.form.None? || e.form.value !in ALLOWED_FORMS {
        Bump(exclusions, InvalidForm, 1);
        continue;
      }
      if e.fp.None? || e.fp.value !in QUARTER_FPS {
        Bump(exclusions, InvalidPeriod, 1);
        continue;
      }
      var fy := AsInt(read, e.fy);
      if fy.None? {
        Bump(exclusions, InvalidFiscalYear, 1);
        continue;
      }
      if fy.value < yearMin {
        Bump(exclusions, YearOutOfRange, 1);
        continue;
      }
      if e.val.Null? {
        Bump(exclusions, NullFactValue, 1);
        continue;
      }
      var v := AsFloat(read, e.val);
      if v.None? {
        Bump(exclusions, NonNumeric, 1);
        continue;
      }
      out := out + [Row(fy.value, e.fp.value, PeriodOf(fy.value, e.fp.value), "", tag,
                         v.value, e.filed, e.accn, e.form.value, multiUnit)];
    }
  }

  // Every fact is a row or is counted

  lemma {:induction false} EntriesAccounted(c: Counts, read: Reader, tag: string, yearMin: int, multiUnit: bool,
                                            es: seq<Entry>, n: nat)
    requires n <= |es|
    ensures |EntriesRows(read, tag, yearMin, multiUnit, es, n)|
            + Total(EntriesCounts(c, read, tag, yearMin, multiUnit, es, n))
         == Total(c) + n
  {
    hide FateOf, Total, Bumped;
    if n > 0 {
      EntriesAccounted(c, read, tag, yearMin, multiUnit, es, n - 1);
      var fate := FateOf(read, tag, yearMin, multiUnit, es[n - 1]);
      if fate.Dropped? {
        BumpAdds(EntriesCounts(c, read, tag, yearMin, multiUnit, es, n - 1), fate.reason, 1);
      }
    }
  }

  lemma {:induction false} TagAccounted(c: Counts, read: Reader, tag: string, yearMin: int, units: seq<Unit>, n: nat)
    requires n <= |units|
    ensures |TagRows(read, tag, yearMin, units, n)| + Total(TagCounts(c, read, tag, yearMin, units, n))
         == Total(c) + Examined(units, n)
  {
    hide Total, Bumped, EntriesRows, EntriesCounts, UnitsWithFacts;
    if n > 0 {
      TagAccounted(c, read, tag, yearMin, units, n - 1);
      var d, u := TagCounts(c, read, tag, yearMin, units, n - 1), units[n - 1];
      if u.key != "USD" {
        BumpAdds(d, UnsupportedUnit, Size(u));
      } else if u.entries.None? {
        BumpAdds(d, InvalidEntryShape, 1);
      } else {
        EntriesAccounted(d, read, tag, yearMin, UnitsWithFacts(units) > 1, u.entries.value, |u.entries.value|);
      }
    }
  }

  // All metrics and tags

  function Labelled(rows: seq<Row>, metric: string): (r: seq<Row>)
    ensures |r| == |rows| && forall k :: 0 <= k < |r| ==> r[k] == rows[k].(metric := metric)
  {
    seq(|rows|, k requires 0 <= k < |rows| => rows[k].(metric := metric))
  }

  function MetricRows(facts: Facts, read: Reader, yearMin: int, metric: string, tags: seq<string>,
                      t: nat): (r: seq<Row>)
    requires t <= |tags|
    ensures forall row :: row in r ==> Minted(row) && row.metric == metric
  {
    if t == 0 then []
    else
      var units := UnitsOf(facts, tags[t - 1]);
      var got := TagRows(read, tags[t - 1], yearMin, units, |units|);
      assert forall k :: 0 <= k < |got| ==> got[k] in got;
      MetricRows(facts, read, yearMin, metric, tags, t - 1) + Labelled(got, metric)
  }

  function MetricCounts(c: Counts, facts: Facts, read: Reader, yearMin: int, tags: seq<string>, t: nat): Counts
    requires t <= |tags|
  {
    if t == 0 then c
    else
      var units := UnitsOf(facts, tags[t - 1]);
      TagCounts(MetricCounts(c, facts, read, yearMin, tags, t - 1), read, tags[t - 1], yearMin, units, |units|)
  }

  function MetricExamined(facts: Facts, tags: seq<string>, t: nat): nat
    requires t <= |tags|
  {
    if t == 0 then 0
    else MetricExamined(facts, tags, t - 1) + Examined(UnitsOf(facts, tags[t - 1]), |UnitsOf(facts, tags[t - 1])|)
  }

  function AllRows(facts: Facts, read: Reader, yearMin: int, m: nat): (r: seq<Row>)
    requires m <= |METRIC_TAGS|
    ensures forall row :: row in r ==> Minted(row) && NamedIn(row.metric, m)
  {
    if m == 0 then []
    else
      var (metric, tags) := METRIC_TAGS[m - 1];
      AllRows(facts, read, yearMin, m - 1) + MetricRows(facts, read, yearMin, metric, tags, |tags|)
  }

  function AllCounts(c: Counts, facts: Facts, read: Reader, yearMin: int, m: nat): Counts
    requires m <= |METRIC_TAGS|
  {
    if m == 0 then c
    else MetricCounts(AllCounts(c, facts, read, yearMin, m - 1), facts, read, yearMin, METRIC_TAGS[m - 1].1,
                      |METRIC_TAGS[m - 1].1|)
  }

  /** The facts examined under the first m metrics. */
  function AllExamined(facts: Facts, m: nat): nat
    requires m <= |METRIC_TAGS|
  {
    if m == 0 then 0
    else AllExamined(facts, m - 1) + MetricExamined(facts, METRIC_TAGS[m - 1].1, |METRIC_TAGS[m - 1].1|)
  }

  lemma {:induction false} MetricAccounted(c: Counts, facts: Facts, read: Reader, yearMin: int, metric: string,
                                           tags: seq<string>, t: nat)
    requires t <= |tags|
    ensures |MetricRows(facts, read, yearMin, metric, tags, t)| + Total(MetricCounts(c, facts, read, yearMin, tags, t))
         == Total(c) + MetricExamined(facts, tags, t)
  {
    hide Total, TagRows, TagCounts, Examined;
    if t > 0 {
      MetricAccounted(c, facts, read, yearMin, metric, tags, t - 1);
      var units := UnitsOf(facts, tags[t - 1]);
      TagAccounted(MetricCounts(c, facts, read, yearMin, tags, t - 1), read, tags[t - 1], yearMin, units, |units|);
    }
  }

  lemma {:induction false} AllAccounted(c: Counts, facts: Facts, read: Reader, yearMin: int, m: nat)
    requires m <= |METRIC_TAGS|
    ensures |AllRows(facts, read, yearMin, m)| + Total(AllCounts(c, facts, read, yearMin, m))
         == Total(c) + AllExamined(facts, m)
  {
    hide Total, MetricRows, MetricCounts, MetricExamined;
    if m > 0 {
      AllAccounted(c, facts, read, yearMin, m - 1);
      var (metric, tags) := METRIC_TAGS[m - 1];
      MetricAccounted(AllCounts(c, facts, read, yearMin, m - 1), facts, read, yearMin, metric, tags, |tags|);
    }
  }

  // One row per metric and quarter

  function OfMetric(rows: seq<Row>, metric: string): (r: seq<Row>)
    ensures forall row :: row in r <==> row in rows && row.metric == metric
  {
    if rows == [] then []
    else
      var front, last := OfMetric(rows[..|rows| - 1], metric), rows[|rows| - 1];
      if last.metric == metric then front + [last] else front
  }

  /** The rows of the first m metrics. */
  function SumOfMetrics(rows: seq<Row>, m: nat): nat
    requires m <= |METRIC_TAGS|
  {
    if m == 0 then 0 else SumOfMetrics(rows, m - 1) + |OfMetric(rows, METRIC_TAGS[m - 1].0)|
  }

  /** The winners of the first m metrics. */
  function FinalRows(rows: seq<Row>, m: nat): (r: seq<Row>)
    requires m <= |METRIC_TAGS|
  {
    if m == 0 then [] else FinalRows(rows, m - 1) + MetricWinners(rows, m - 1)
  }

  function MetricWinners(rows: seq<Row>, m: nat): seq<Row>
    requires m < |METRIC_TAGS|
  {
    var mrows := OfMetric(rows, METRIC_TAGS[m].0);
    Chosen(METRIC_TAGS[m].1, mrows, |KeysOf(mrows, |mrows|)|)
  }

  function FinalCounts(c: Counts, rows: seq<Row>, m: nat): Counts
    requires m <= |METRIC_TAGS|
  {
    if m == 0 then c
    else
      Bumped(FinalCounts(c, rows, m - 1), DuplicateResolved,
             |OfMetric(rows, METRIC_TAGS[m - 1].0)| - |MetricWinners(rows, m - 1)|)
  }

  lemma {:induction false} FinalAccounted(c: Counts, rows: seq<Row>, m: nat)
    requires m <= |METRIC_TAGS|
    ensures |FinalRows(rows, m)| + Total(FinalCounts(c, rows, m)) == Total(c) + SumOfMetrics(rows, m)
  {
    hide Total, MetricWinners, OfMetric, Bumped;
    if m > 0 {
      FinalAccounted(c, rows, m - 1);
      WinnersAreFew(rows, m - 1);
      BumpAdds(FinalCounts(c, rows, m - 1), DuplicateResolved,
               |OfMetric(rows, METRIC_TAGS[m - 1].0)| - |MetricWinners(rows, m - 1)|);
    }
  }

  lemma WinnersAreFew(rows: seq<Row>, m: nat)
    requires m < |METRIC_TAGS|
    ensures |MetricWinners(rows, m)| <= |OfMetric(rows, METRIC_TAGS[m].0)|
  {
    var mrows := OfMetric(rows, METRIC_TAGS[m].0);
    KeysAreFew(mrows, |mrows|);
  }

  lemma {:induction false} KeysAreFew(rows: seq<Row>, n: nat)
    requires n <= |rows|
    ensures |KeysOf(rows, n)| <= n
  {
    if n > 0 {
      KeysAreFew(rows, n - 1);
    }
  }

  /** Every row belongs to exactly one metric. */
  lemma {:induction false} MetricsPartition(rows: seq<Row>)
    requires forall row :: row in rows ==> NamedIn(row.metric, |METRIC_TAGS|)
    ensures SumOfMetrics(rows, |METRIC_TAGS|) == |rows|
  {
    hide OfMetric;
    if rows == [] {
      NoRows(|METRIC_TAGS|);
    } else {
      var last := rows[|rows| - 1];
      assert forall row :: row in rows[..|rows| - 1] ==> row in rows;
      MetricsPartition(rows[..|rows| - 1]);
      assert last in rows;
      var k: nat :| k < |METRIC_TAGS| && METRIC_TAGS[k].0 == last.metric;
      OneMoreRow(rows, k, |METRIC_TAGS|);
    }
  }

  lemma {:induction false} NoRows(m: nat)
    requires m <= |METRIC_TAGS|
    ensures SumOfMetrics([], m) == 0
  {
    if m > 0 {
      NoRows(m - 1);
    }
  }

  lemma {:induction false} OneMoreRow(rows: seq<Row>, k: nat, m: nat)
    requires rows != [] && k < |METRIC_TAGS| && m <= |METRIC_TAGS| && METRIC_TAGS[k].0 == rows[|rows| - 1].metric
    ensures SumOfMetrics(rows, m) == SumOfMetrics(rows[..|rows| - 1], m) + if k < m then 1 else 0
  {
    if m > 0 {
      OneMoreRow(rows, k, m - 1);
      NamesDiffer(k, m - 1);
    }
  }

  lemma NamesDiffer(i: nat, j: nat)
    requires i < |METRIC_TAGS| && j < |METRIC_TAGS|
    ensures METRIC_TAGS[i].0 == METRIC_TAGS[j].0 <==> i == j
  {
    var lengths := [7, 10, 12, 17, 19, 14, 19];
    assert forall k :: 0 <= k < |METRIC_TAGS| ==> |METRIC_TAGS[k].0| == lengths[k];
    assert METRIC_TAGS[4].0[0] != METRIC_TAGS[6].0[0];
  }

  // The closing drop_duplicates

  function Label(r: Row): (string, string) {
    (r.metric, r.period)
  }

  function Labels(rows: seq<Row>): (r: seq<(string, string)>)
    ensures |r| == |rows| && forall k :: 0 <= k < |r| ==> r[k] == Label(rows[k])
  {
    seq(|rows|, k requires 0 <= k < |rows| => Label(rows[k]))
  }

  /** drop_duplicates, keeping the first: the places among the first n whose label has not come before. */
  function Firsts(labels: seq<(string, string)>, n: nat): (r: seq<nat>)
    requires n <= |labels|
    ensures |r| <= n && forall k :: 0 <= k < |r| ==> r[k] < n
  {
    if n == 0 then []
    else if labels[n - 1] in labels[..n - 1] then Firsts(labels, n - 1)
    else Firsts(labels, n - 1) + [n - 1]
  }

  ghost predicate AllDistinct(rows: seq<Row>) {
    forall i, j :: 0 <= i < j < |rows| ==> Label(rows[i]) != Label(rows[j])
  }

  lemma {:induction false} NothingToDrop(rows: seq<Row>, n: nat)
    requires n <= |rows| && AllDistinct(rows)
    ensures Firsts(Labels(rows), n) == seq(n, k => k)
  {
    hide Label;
    if n > 0 {
      NothingToDrop(rows, n - 1);
      assert Labels(rows)[n - 1] !in Labels(rows)[..n - 1];
    }
  }

  /** A period text names one fiscal year and one quarter. */
  lemma PeriodInjective(a: Row, b: Row)
    requires Minted(a) && Minted(b) && Label(a) == Label(b)
    ensures KeyOf(a) == KeyOf(b)
  {
    hide Ids.Signed;
    assert '-' !in a.fp && '-' !in b.fp;
    Ids.LastDashSplits(Ids.Signed(a.fy), a.fp, Ids.Signed(b.fy), b.fp);
    Ids.SignedInjective(a.fy, b.fy);
  }

  /** The winners of the first m metrics: each of its own metric and quarter, and each one of the rows. */
  lemma {:induction false} FinalRowsDiffer(rows: seq<Row>, m: nat)
    requires m <= |METRIC_TAGS| && forall row :: row in rows ==> Minted(row)
    ensures AllDistinct(FinalRows(rows, m))
    ensures forall r :: r in FinalRows(rows, m) ==> r in rows && NamedIn(r.metric, m)
  {
    hide MetricWinners, Minted, PeriodOf;
    if m > 0 {
      FinalRowsDiffer(rows, m - 1);
      WinnersDiffer(rows, m - 1);
      var front, more := FinalRows(rows, m - 1), MetricWinners(rows, m - 1);
      forall i, j | 0 <= i < |front| && 0 <= j < |more| ensures Label(front[i]) != Label(more[j]) {
        assert front[i] in front && more[j] in more;
        var k: nat :| k < m - 1 && METRIC_TAGS[k].0 == front[i].metric;
        NamesDiffer(k, m - 1);
      }
    }
  }

  lemma WinnersDiffer(rows: seq<Row>, m: nat)
    requires m < |METRIC_TAGS| && forall row :: row in rows ==> Minted(row)
    ensures AllDistinct(MetricWinners(rows, m))
    ensures forall r :: r in MetricWinners(rows, m) ==> r in rows && r.metric == METRIC_TAGS[m].0
  {
    hide Minted, OfMetric, Label;
    var mrows := OfMetric(rows, METRIC_TAGS[m].0);
    var keys := KeysOf(mrows, |mrows|);
    var r := MetricWinners(rows, m);
    ChosenAreRows(METRIC_TAGS[m].1, mrows, |keys|);
    forall i, j | 0 <= i < j < |r| ensures Label(r[i]) != Label(r[j]) {
      assert r[i] in r && r[j] in r;
      if Label(r[i]) == Label(r[j]) {
        PeriodInjective(r[i], r[j]);
      }
    }
  }

  lemma {:induction false} ChosenAreRows(order: seq<string>, rows: seq<Row>, k: nat)
    requires k <= |KeysOf(rows, |rows|)|
    ensures forall r :: r in Chosen(order, rows, k) ==> r in rows
  {
    if k > 0 {
      ChosenAreRows(order, rows, k - 1);
      var key := KeysOf(rows, |rows|)[k - 1];
      assert key in KeysOf(rows, |rows|);
      assert rows[Winner(order, rows, |rows|, key).value] in rows;
    }
  }

  // The caveats

  datatype Caveat = Caveat(period: string, metric: string, sourceTag: string, candidates: nat, codes: seq<string>)

  /** The codes in alphabetical order. */
  function CodesOf(tags: seq<string>, candidates: nat, r: Row): seq<string>
    requires tags != []
  {
    (if candidates > 1 then ["duplicate_candidates_resolved"] else [])
    + (if r.tag != tags[0] then ["fallback_tag_used"] else [])
    + (if r.multiUnitVariation then ["unresolved_unit_variation"] else [])
  }

  function TagsOf(metric: string): (tags: seq<string>)
    ensures tags != []
  {
    if metric == "revenue" then METRIC_TAGS[0].1
    else if metric == "net_income" then METRIC_TAGS[1].1
    else if metric == "total_assets" then METRIC_TAGS[2].1
    else if metric == "total_liabilities" then METRIC_TAGS[3].1
    else if metric == "operating_cash_flow" then METRIC_TAGS[4].1
    else if metric == "current_assets" then METRIC_TAGS[5].1
    else METRIC_TAGS[6].1
  }

  function CaveatOf(rows: seq<Row>, r: Row): Caveat {
    var candidates := Candidates(OfMetric(rows, r.metric), KeyOf(r));
    Caveat(r.period, r.metric, r.tag, candidates, CodesOf(TagsOf(r.metric), candidates, r))
  }

  function CaveatsOf(rows: seq<Row>, final: seq<Row>): (r: seq<Caveat>)
    ensures |r| == |final| && forall k :: 0 <= k < |r| ==> r[k] == CaveatOf(rows, final[k])
  {
    seq(|final|, k requires 0 <= k < |final| => CaveatOf(rows, final[k]))
  }

  function SumOfCaveats(cs: seq<Caveat>): nat {
    if cs == [] then 0 else SumOfCaveats(cs[..|cs| - 1]) + cs[|cs| - 1].candidates
  }

  lemma {:induction false} SumOfCaveatsConcat(cs: seq<Caveat>, ds: seq<Caveat>)
    ensures SumOfCaveats(cs + ds) == SumOfCaveats(cs) + SumOfCaveats(ds)
  {
    if ds == [] {
      assert cs + ds == cs;
    } else {
      var n := |ds| - 1;
      assert (cs + ds)[..|cs| + n] == cs + ds[..n];
      SumOfCaveatsConcat(cs, ds[..n]);
    }
  }

  /** The caveats' candidate counts add up to the rows before selection, metric by metric. */
  lemma {:induction false} CaveatsAddUp(rows: seq<Row>, m: nat)
    requires m <= |METRIC_TAGS|
    ensures SumOfCaveats(CaveatsOf(rows, FinalRows(rows, m))) == SumOfMetrics(rows, m)
  {
    hide MetricWinners, OfMetric, CaveatOf, CaveatsOf, SumOfCaveats;
    if m == 0 {
      assert CaveatsOf(rows, []) == [];
      NothingToSum([]);
    } else {
      CaveatsAddUp(rows, m - 1);
      MetricCaveatsAddUp(rows, m - 1);
      var front, more := FinalRows(rows, m - 1), MetricWinners(rows, m - 1);
      SumOfCaveatsConcat(CaveatsOf(rows, front), CaveatsOf(rows, more));
      assert CaveatsOf(rows, front + more) == CaveatsOf(rows, front) + CaveatsOf(rows, more);
    }
  }

  lemma MetricCaveatsAddUp(rows: seq<Row>, m: nat)
    requires m < |METRIC_TAGS|
    ensures SumOfCaveats(CaveatsOf(rows, MetricWinners(rows, m))) == |OfMetric(rows, METRIC_TAGS[m].0)|
  {
    hide OfMetric;
    var mrows := OfMetric(rows, METRIC_TAGS[m].0);
    var keys := KeysOf(mrows, |mrows|);
    ChosenCaveats(rows, METRIC_TAGS[m].0, METRIC_TAGS[m].1, |keys|);
    CandidatesAddUp(mrows);
    assert keys[..|keys|] == keys;
  }

  lemma {:induction false} ChosenCaveats(rows: seq<Row>, metric: string, tags: seq<string>, k: nat)
    requires k <= |KeysOf(OfMetric(rows, metric), |OfMetric(rows, metric)|)|
    ensures SumOfCaveats(CaveatsOf(rows, Chosen(tags, OfMetric(rows, metric), k)))
         == SumOfCandidates(OfMetric(rows, metric), KeysOf(OfMetric(rows, metric), |OfMetric(rows, metric)|)[..k])
  {
    hide OfMetric, Candidates, Chosen, KeysOf, CaveatsOf, CaveatOf, SumOfCandidates, SumOfCaveats;
    var mrows := OfMetric(rows, metric);
    var keys, chosen := KeysOf(mrows, |mrows|), Chosen(tags, mrows, k);
    if k == 0 {
      assert keys[..0] == [] && CaveatsOf(rows, chosen) == [];
      NothingToSum(mrows);
    } else {
      ChosenCaveats(rows, metric, tags, k - 1);
      ChosenAreRows(tags, mrows, k);
      LastChosen(tags, mrows, k);
      assert chosen[k - 1] in chosen;
      CountedIn(rows, chosen[k - 1]);
      assert CaveatsOf(rows, chosen)[..k - 1] == CaveatsOf(rows, Chosen(tags, mrows, k - 1));
      assert keys[..k][..k - 1] == keys[..k - 1];
      LastSummed(CaveatsOf(rows, chosen), mrows, keys[..k]);
    }
  }

  lemma CountedIn(rows: seq<Row>, r: Row)
    ensures CaveatOf(rows, r).candidates == Candidates(OfMetric(rows, r.metric), KeyOf(r))
  {
  }

  lemma NothingToSum(mrows: seq<Row>)
    ensures SumOfCaveats([]) == 0 && SumOfCandidates(mrows, []) == 0
  {
  }

  lemma LastChosen(tags: seq<string>, rows: seq<Row>, k: nat)
    requires 0 < k <= |KeysOf(rows, |rows|)|
    ensures Chosen(tags, rows, k)[..k - 1] == Chosen(tags, rows, k - 1)
  {
    hide Winner, KeysOf;
  }

  lemma LastSummed(cs: seq<Caveat>, mrows: seq<Row>, keys: seq<Key>)
    requires cs != [] && keys != []
    ensures SumOfCaveats(cs) == SumOfCaveats(cs[..|cs| - 1]) + cs[|cs| - 1].candidates
    ensures SumOfCandidates(mrows, keys)
         == SumOfCandidates(mrows, keys[..|keys| - 1]) + Candidates(mrows, keys[|keys| - 1])
  {
  }

  // The extraction

  datatype ValueRow = ValueRow(period: string, metric: string, value: real)

  function ValuesOf(rows: seq<Row>): (r: seq<ValueRow>)
    ensures |r| == |rows|
    ensures forall k :: 0 <= k < |r| ==> r[k] == ValueRow(rows[k].period, rows[k].metric, rows[k].value)
  {
    seq(|rows|, k requires 0 <= k < |rows| => ValueRow(rows[k].period, rows[k].metric, rows[k].value))
  }

  /**
   Nothing is lost: for every input and every count map, the facts examined are the rows kept plus the facts newly
   counted; no two kept rows share a metric and a period, so drop_duplicates drops nothing, and the caveats account
   for every candidate.
   */
  lemma NothingIsLost(c: Counts, facts: Facts, read: Reader, yearMin: int)
    ensures var rows := AllRows(facts, read, yearMin, |METRIC_TAGS|);
      var final := FinalRows(rows, |METRIC_TAGS|);
      && |final| + Total(FinalCounts(AllCounts(c, facts, read, yearMin, |METRIC_TAGS|), rows, |METRIC_TAGS|))
         == Total(c) + AllExamined(facts, |METRIC_TAGS|)
      && AllDistinct(final) && Firsts(Labels(final), |final|) == seq(|final|, k => k)
      && SumOfCaveats(CaveatsOf(rows, final)) == |rows|
  {
    hide AllRows, FinalRows, AllCounts, FinalCounts, Total, AllExamined, SumOfMetrics, CaveatsOf, AllDistinct, Firsts,
         Labels, Minted;
    var rows := AllRows(facts, read, yearMin, |METRIC_TAGS|);
    AllAccounted(c, facts, read, yearMin, |METRIC_TAGS|);
    FinalAccounted(AllCounts(c, facts, read, yearMin, |METRIC_TAGS|), rows, |METRIC_TAGS|);
    MetricsPartition(rows);
    FinalRowsDiffer(rows, |METRIC_TAGS|);
    NothingToDrop(FinalRows(rows, |METRIC_TAGS|), |FinalRows(rows, |METRIC_TAGS|)|);
    CaveatsAddUp(rows, |METRIC_TAGS|);
  }

  /** The gathering loops of extract_metrics_with_extraction_caveats. */
  method GatherAll(facts: Facts, read: Reader, yearMin: int, exclusions: ExclusionCounts?) returns (rows: seq<Row>)
    modifies exclusions
    ensures rows == AllRows(facts, read, yearMin, |METRIC_TAGS|)
    ensures exclusions != null ==>
      exclusions.counts == AllCounts(old(exclusions.counts), facts, read, yearMin, |METRIC_TAGS|)
  {
    hide MetricRows, MetricCounts, Minted, NamedIn;
    rows := [];
    for m := 0 to |METRIC_TAGS|
      invariant rows == AllRows(facts, read, yearMin, m)
      invariant exclusions != null ==> exclusions.counts == AllCounts(old(exclusions.counts), facts, read, yearMin, m)
    {
      var (metric, tags) := METRIC_TAGS[m];
      var got := GatherMetric(facts, read, yearMin, metric, tags, exclusions);
      rows := rows + got;
    }
  }

  method GatherMetric(facts: Facts, read: Reader, yearMin: int, metric: string, tags: seq<string>,
                      exclusions: ExclusionCounts?)
    returns (rows: seq<Row>)
    modifies exclusions
    ensures rows == MetricRows(facts, read, yearMin, metric, tags, |tags|)
    ensures exclusions != null ==>
      exclusions.counts == MetricCounts(old(exclusions.counts), facts, read, yearMin, tags, |tags|)
  {
    hide TagRows, TagCounts, Minted;
    rows := [];
    for t := 0 to |tags|
      invariant rows == MetricRows(facts, read, yearMin, metric, tags, t)
      invariant exclusions != null ==>
        exclusions.counts == MetricCounts(old(exclusions.counts), facts, read, yearMin, tags, t)
    {
      var got := GatherTagRows(facts, read, tags[t], yearMin, exclusions);
      var relabelled := Relabel(got, metric);
      rows := rows + relabelled;
    }
  }

  method Relabel(got: seq<Row>, metric: string) returns (rows: seq<Row>)
    ensures rows == Labelled(got, metric)
  {
    rows := [];
    for k := 0 to |got|
      invariant |rows| == k && forall j :: 0 <= j < k ==> rows[j] == got[j].(metric := metric)
    {
      rows := rows + [got[k].(metric := metric)];
    }
  }

  method RowsOfMetric(rows: seq<Row>, metric: string) returns (mrows: seq<Row>)
    ensures mrows == OfMetric(rows, metric)
  {
    mrows := [];
    for k := 0 to |rows|
      invariant mrows == OfMetric(rows[..k], metric)
    {
      assert rows[..k + 1][..k] == rows[..k];
      if rows[k].metric == metric {
        mrows := mrows + [rows[k]];
      }
    }
    assert rows[..|rows|] == rows;
  }

  /** The selection loop: per metric, the best row of every quarter; the others are counted. */
  method SelectRows(rows: seq<Row>, exclusions: ExclusionCounts?) returns (final: seq<Row>)
    modifies exclusions
    ensures final == FinalRows(rows, |METRIC_TAGS|)
    ensures exclusions != null ==> exclusions.counts == FinalCounts(old(exclusions.counts), rows, |METRIC_TAGS|)
  {
    hide OfMetric, Bumped, Chosen, KeysOf;
    final := [];
    for m := 0 to |METRIC_TAGS|
      invariant final == FinalRows(rows, m)
      invariant exclusions != null ==> exclusions.counts == FinalCounts(old(exclusions.counts), rows, m)
    {
      var (metric, tags) := METRIC_TAGS[m];
      var mrows := RowsOfMetric(rows, metric);
      var winners := Winners(mrows, tags);
      Bump(exclusions, DuplicateResolved, |mrows| - |winners|);
      final := final + winners;
    }
  }

  /** The dictionary's values, in insertion order. */
  method Winners(mrows: seq<Row>, tags: seq<string>) returns (winners: seq<Row>)
    ensures winners == Chosen(tags, mrows, |KeysOf(mrows, |mrows|)|)
  {
    hide Winner, KeysOf;
    var keys, best := PickBestPerPeriod(mrows, tags);
    winners := [];
    for k := 0 to |keys|
      invariant winners == Chosen(tags, mrows, k)
    {
      winners := winners + [best[keys[k]]];
    }
  }

  /** _build_extraction_caveat_rows */
  method BuildCaveatRows(rows: seq<Row>, final: seq<Row>) returns (caveats: seq<Caveat>)
    ensures caveats == CaveatsOf(rows, final)
  {
    hide CodesOf, OfMetric, TagsOf;
    caveats := [];
    for k := 0 to |final|
      invariant |caveats| == k && forall j :: 0 <= j < k ==> caveats[j] == CaveatOf(rows, final[j])
    {
      var row := final[k];
      var mrows := RowsOfMetric(rows, row.metric);
      var n := 0;
      for j := 0 to |mrows|
        invariant n == Candidates(mrows[..j], KeyOf(row))
      {
        assert mrows[..j + 1][..j] == mrows[..j];
        if KeyOf(mrows[j]) == KeyOf(row) {
          n := n + 1;
        }
      }
      assert mrows[..|mrows|] == mrows;
      caveats := caveats + [Caveat(row.period, row.metric, row.tag, n, CodesOf(TagsOf(row.metric), n, row))];
    }
  }

  method FirstPlaces(labels: seq<(string, string)>) returns (places: seq<nat>)
    ensures places == Firsts(labels, |labels|)
  {
    places := [];
    var seen: set<(string, string)> := {};
    for k := 0 to |labels|
      invariant places == Firsts(labels, k)
      invariant forall l :: l in seen <==> l in labels[..k]
    {
      if labels[k] !in seen {
        places := places + [k];
      }
      seen := seen + {labels[k]};
      assert labels[..k + 1] == labels[..k] + [labels[k]];
    }
  }

  /** extract_metrics_with_extraction_caveats, before its two tables are sorted for output. */
  method ExtractMetrics(facts: Facts, read: Reader, yearMin: int, exclusions: ExclusionCounts?)
    returns (values: seq<ValueRow>, caveats: seq<Caveat>)
    modifies exclusions
    ensures values == ValuesOf(FinalRows(AllRows(facts, read, yearMin, |METRIC_TAGS|), |METRIC_TAGS|))
    ensures caveats == CaveatsOf(AllRows(facts, read, yearMin, |METRIC_TAGS|),
                                 FinalRows(AllRows(facts, read, yearMin, |METRIC_TAGS|), |METRIC_TAGS|))
    ensures exclusions != null ==>
      var rows := AllRows(facts, read, yearMin, |METRIC_TAGS|);
      && exclusions.counts == FinalCounts(AllCounts(old(exclusions.counts), facts, read, yearMin, |METRIC_TAGS|), rows,
                                          |METRIC_TAGS|)
      && |values| + Total(exclusions.counts) == Total(old(exclusions.counts)) + AllExamined(facts, |METRIC_TAGS|)
    ensures forall i, j :: 0 <= i < j < |values| ==>
      (values[i].metric, values[i].period) != (values[j].metric, values[j].period)
    ensures SumOfCaveats(caveats) == |AllRows(facts, read, yearMin, |METRIC_TAGS|)|
  {
    hide AllRows, FinalRows, AllCounts, FinalCounts, Total, AllExamined, CaveatsOf, Firsts, SumOfCaveats, Bumped;
    NothingIsLost(if exclusions == null then map[] else exclusions.counts, facts, read, yearMin);
    var rows := GatherAll(facts, read, yearMin, exclusions);
    var final := SelectRows(rows, exclusions);
    caveats := BuildCaveatRows(rows, final);
    var places := FirstPlaces(Labels(final));
    Bump(exclusions, DropDuplicateRow, |final| - |places|);
    values := seq(|places|, k requires 0 <= k < |places| =>
        ValueRow(final[places[k]].period, final[places[k]].metric, final[places[k]].value));
    caveats := seq(|places|, k requires 0 <= k < |places| => caveats[places[k]]);
  }
}
