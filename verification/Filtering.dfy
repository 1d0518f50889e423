/**
 Which facts become candidate rows, told from the facts' own fields: every row comes from one consolidated quarterly
 fact in dollars, every such fact gives exactly one row, and every other one is counted under the first check it fails.
 */
module Filtering {
  import opened Outcomes
  import opened Exclusions
  import opened Selection
  import opened Extraction
  import Ids

  // One fact

  /** A field that says something: true, a number other than zero, or a text, list or object that is not empty. */
  predicate Says(j: Json) {
    || j == Boolean(true)
    || (j.Number? && j.n != 0.0)
    || (j.Text? && |j.s| > 0)
    || (j.Composite? && j.size > 0)
  }

  /** A breakout: its `segments` say something, or there are none and its `segment` does. */
  predicate Segmented(e: Entry)
    requires e.Fact?
  {
    (e.segments != Null && Says(e.segments)) || (e.segments == Null && Says(e.segment))
  }

  /** The integer a number comes to when its fraction is dropped. */
  predicate Whole(n: real, y: int) {
    if n >= 0.0 then y as real <= n < y as real + 1.0 else y as real - 1.0 < n <= y as real
  }

  predicate YearIs(read: Reader, j: Json, y: int) {
    match j
    case Boolean(b) => y == if b then 1 else 0
    case Number(n) => Whole(n, y)
    case Text(s) => read.parseInt(s) == Some(y)
    case _ => false
  }

  predicate ValueIs(read: Reader, j: Json, v: real) {
    match j
    case Boolean(b) => v == if b then 1.0 else 0.0
    case Number(n) => v == n
    case Text(s) => read.parseFloat(s) == Some(v)
    case _ => false
  }

  predicate FormFits(e: Entry)
    requires e.Fact?
  {
    e.form == Some("10-K") || e.form == Some("10-Q")
  }

  predicate QuarterFits(e: Entry)
    requires e.Fact?
  {
    e.fp == Some("Q1") || e.fp == Some("Q2") || e.fp == Some("Q3") || e.fp == Some("Q4")
  }

  /** The year of a fact that passes every check before the year's. */
  predicate Dated(read: Reader, e: Entry, y: int) {
    e.Fact? && !Segmented(e) && FormFits(e) && QuarterFits(e) && YearIs(read, e.fy, y)
  }

  /** The row that a fact gives: a consolidated quarterly figure, recent enough, with the fact's own fields. */
  predicate Gives(read: Reader, tag: string, yearMin: int, multiUnit: bool, e: Entry, r: Row) {
    && Dated(read, e, r.fy) && r.fy >= yearMin && ValueIs(read, e.val, r.value)
    && e.fp == Some(r.fp) && e.form == Some(r.form) && r.filed == e.filed && r.accn == e.accn
    && r.period == Ids.Signed(r.fy) + "-" + r.fp && r.tag == tag && r.multiUnitVariation == multiUnit
  }

  /** The first check a fact fails. */
  ghost predicate FailsAt(read: Reader, yearMin: int, e: Entry, reason: Reason) {
    match reason
    case InvalidEntryShape => e == Misshapen
    case SegmentedContextExcluded => e.Fact? && Segmented(e)
    case InvalidForm => e.Fact? && !Segmented(e) && !FormFits(e)
    case InvalidPeriod => e.Fact? && !Segmented(e) && FormFits(e) && !QuarterFits(e)
    case InvalidFiscalYear =>
      e.Fact? && !Segmented(e) && FormFits(e) && QuarterFits(e) && forall y :: !YearIs(read, e.fy, y)
    case YearOutOfRange => exists y :: Dated(read, e, y) && y < yearMin
    case NullFactValue => exists y :: Dated(read, e, y) && y >= yearMin && e.val == Null
    case NonNumeric =>
      exists y :: Dated(read, e, y) && y >= yearMin && e.val != Null && forall v :: !ValueIs(read, e.val, v)
    case _ => false
  }

  lemma SegmentsMean(e: Entry)
    requires e.Fact?
    ensures HasSegments(e) <==> Segmented(e)
  {
  }

  lemma YearsMean(read: Reader, j: Json)
    ensures forall y :: YearIs(read, j, y) <==> AsInt(read, j) == Some(y)
  {
    if j.Number? {
      forall y ensures Whole(j.n, y) <==> Truncated(j.n) == y {
        WholeIsTruncated(j.n, y);
      }
    }
  }

  lemma WholeIsTruncated(n: real, y: int)
    ensures Whole(n, y) <==> Truncated(n) == y
  {
    if n < 0.0 {
      assert (-n).Floor == -y <==> -y as real <= -n < -y as real + 1.0;
    }
  }

  lemma ValuesMean(read: Reader, j: Json)
    ensures forall v :: ValueIs(read, j, v) <==> AsFloat(read, j) == Some(v)
    ensures j == Null ==> AsFloat(read, j) == None
  {
  }

  lemma FormsMean(e: Entry)
    requires e.Fact?
    ensures FormFits(e) <==> e.form.Some? && e.form.value in ALLOWED_FORMS
    ensures QuarterFits(e) <==> e.fp.Some? && e.fp.value in QUARTER_FPS
  {
  }

  /** What is kept gives its row, and what gives a row is kept as that row. */
  lemma KeptGives(read: Reader, tag: string, yearMin: int, multiUnit: bool, e: Entry)
    ensures var fate := FateOf(read, tag, yearMin, multiUnit, e);
            && (fate.Kept? ==> Gives(read, tag, yearMin, multiUnit, e, fate.row) && fate.row.metric == "")
            && (forall r :: Gives(read, tag, yearMin, multiUnit, e, r) ==> fate == Kept(r.(metric := "")))
  {
    if e.Fact? {
      hide HasSegments, Segmented, FormFits, AsInt, AsFloat, YearIs, ValueIs;
      SegmentsMean(e);
      FormsMean(e);
      YearsMean(read, e.fy);
      ValuesMean(read, e.val);
    }
  }

  /** A fact has at most one year. */
  lemma OneYear(read: Reader, e: Entry, y: int)
    requires Dated(read, e, y)
    ensures forall z :: Dated(read, e, z) ==> z == y
  {
    YearsMean(read, e.fy);
  }

  lemma DroppedFails(read: Reader, tag: string, yearMin: int, multiUnit: bool, e: Entry, reason: Reason)
    ensures FateOf(read, tag, yearMin, multiUnit, e) == Dropped(reason) <==> FailsAt(read, yearMin, e, reason)
  {
    if e.Fact? {
      hide HasSegments, Segmented, FormFits, QuarterFits, AsInt, AsFloat, YearIs, ValueIs;
      SegmentsMean(e);
      FormsMean(e);
      YearsMean(read, e.fy);
      ValuesMean(read, e.val);
      var fy := AsInt(read, e.fy);
      if !Segmented(e) && FormFits(e) && QuarterFits(e) && fy.Some? {
        assert YearIs(read, e.fy, fy.value);
        assert Dated(read, e, fy.value);
        OneYear(read, e, fy.value);
        var v := AsFloat(read, e.val);
        assert v.Some? ==> ValueIs(read, e.val, v.value);
      }
    }
  }

  // All facts

  /** Where a fact is: metric, tag of the metric, unit of the tag, and entry of the unit. */
  datatype Place = Place(m: nat, t: nat, u: nat, k: nat)

  predicate Before(a: Place, b: Place) {
    || a.m < b.m
    || (a.m == b.m && (a.t < b.t || (a.t == b.t && (a.u < b.u || (a.u == b.u && a.k < b.k)))))
  }

  /** Two different units of the concept have facts. */
  predicate TwoHaveFacts(units: seq<Unit>) {
    exists a, b :: 0 <= a < b < |units| && HasFacts(units[a]) && HasFacts(units[b])
  }

  predicate HasFacts(u: Unit) {
    u.entries.Some? && |u.entries.value| > 0
  }

  predicate AnyHasFacts(units: seq<Unit>) {
    exists a :: 0 <= a < |units| && HasFacts(units[a])
  }

  lemma {:induction false} UnitsWithFactsMeans(units: seq<Unit>)
    ensures UnitsWithFacts(units) > 0 <==> AnyHasFacts(units)
    ensures UnitsWithFacts(units) > 1 <==> TwoHaveFacts(units)
  {
    if units != [] {
      var n := |units| - 1;
      UnitsWithFactsMeans(units[..n]);
      assert forall a :: 0 <= a < n ==> units[..n][a] == units[a];
    }
  }

  /** An entry of a list of facts in dollars, under one of the metric's tags. */
  predicate InDollars(facts: Facts, p: Place) {
    && p.m < |METRIC_TAGS| && p.t < |METRIC_TAGS[p.m].1|
    && var tag := METRIC_TAGS[p.m].1[p.t];
       tag in facts && p.u < |facts[tag]|
       && facts[tag][p.u].key == "USD" && facts[tag][p.u].entries.Some? && p.k < |facts[tag][p.u].entries.value|
  }

  function EntryAt(facts: Facts, p: Place): Entry
    requires InDollars(facts, p)
  {
    facts[METRIC_TAGS[p.m].1[p.t]][p.u].entries.value[p.k]
  }

  /** The row a place gives, labelled with the place's metric. */
  predicate GivesAt(facts: Facts, read: Reader, yearMin: int, p: Place, r: Row) {
    && InDollars(facts, p) && r.metric == METRIC_TAGS[p.m].0
    && var tag := METRIC_TAGS[p.m].1[p.t];
       Gives(read, tag, yearMin, TwoHaveFacts(facts[tag]), EntryAt(facts, p), r)
  }

  /** The rows of all places before a limit, one for each place that gives one, in the order of the places. */
  ghost predicate Tracks(facts: Facts, read: Reader, yearMin: int, rows: seq<Row>, places: seq<Place>, limit: Place) {
    && |places| == |rows|
    && (forall j :: 0 <= j < |rows| ==> GivesAt(facts, read, yearMin, places[j], rows[j]) && Before(places[j], limit))
    && (forall i, j :: 0 <= i < j < |places| ==> Before(places[i], places[j]))
    && (forall p, r :: GivesAt(facts, read, yearMin, p, r) && Before(p, limit) ==> p in places)
  }

  lemma Nothing(facts: Facts, read: Reader, yearMin: int)
    ensures Tracks(facts, read, yearMin, [], [], Place(0, 0, 0, 0))
  {
  }

  /** A limit moves on over places that give nothing. */
  lemma Skips(facts: Facts, read: Reader, yearMin: int, rows: seq<Row>, places: seq<Place>, limit: Place, next: Place)
    requires Tracks(facts, read, yearMin, rows, places, limit) && Before(limit, next)
    requires forall p, r :: GivesAt(facts, read, yearMin, p, r) && Before(p, next) ==> Before(p, limit)
    ensures Tracks(facts, read, yearMin, rows, places, next)
  {
    hide GivesAt;
  }

  /** A limit moves on over one place that gives a row. */
  lemma Adds(facts: Facts, read: Reader, yearMin: int, rows: seq<Row>, places: seq<Place>, p: Place, r: Row)
    requires Tracks(facts, read, yearMin, rows, places, p) && GivesAt(facts, read, yearMin, p, r)
    ensures Tracks(facts, read, yearMin, rows + [r], places + [p], p.(k := p.k + 1))
  {
    hide GivesAt;
  }

  lemma {:induction false} EntriesTrack(facts: Facts, read: Reader, yearMin: int, before: seq<Row>, was: seq<Place>,
                                        p: Place, n: nat) returns (places: seq<Place>)
    requires p.k == 0 && p.m < |METRIC_TAGS| && p.t < |METRIC_TAGS[p.m].1|
    requires var tag := METRIC_TAGS[p.m].1[p.t];
             tag in facts && p.u < |facts[tag]| && facts[tag][p.u].key == "USD" && facts[tag][p.u].entries.Some?
             && n <= |facts[tag][p.u].entries.value|
    requires Tracks(facts, read, yearMin, before, was, p)
    ensures var (metric, tags) := METRIC_TAGS[p.m];
            var units := facts[tags[p.t]];
            Tracks(facts, read, yearMin,
                   before + Labelled(EntriesRows(read, tags[p.t], yearMin, UnitsWithFacts(units) > 1,
                                                 units[p.u].entries.value, n), metric),
                   places, p.(k := n))
  {
    hide FateOf, Gives, UnitsWithFacts, TwoHaveFacts;
    var (metric, tags) := METRIC_TAGS[p.m];
    var units := facts[tags[p.t]];
    var es, multi := units[p.u].entries.value, UnitsWithFacts(units) > 1;
    if n == 0 {
      places := was;
      assert before + Labelled([], metric) == before;
    } else {
      places := EntriesTrack(facts, read, yearMin, before, was, p, n - 1);
      var here := p.(k := n - 1);
      var front := EntriesRows(read, tags[p.t], yearMin, multi, es, n - 1);
      KeptGives(read, tags[p.t], yearMin, multi, es[n - 1]);
      UnitsWithFactsMeans(units);
      var fate := FateOf(read, tags[p.t], yearMin, multi, es[n - 1]);
      var rows := before + Labelled(front, metric);
      if fate.Kept? {
        var r := fate.row.(metric := metric);
        RelabelledGives(read, tags[p.t], yearMin, multi, es[n - 1], fate.row, metric);
        Adds(facts, read, yearMin, rows, places, here, r);
        assert Labelled(front + [fate.row], metric) == Labelled(front, metric) + [r];
        assert before + Labelled(front + [fate.row], metric) == rows + [r];
        places := places + [here];
      } else {
        NothingHere(facts, read, yearMin, here);
        Skips(facts, read, yearMin, rows, places, here, p.(k := n));
      }
    }
  }

  lemma RelabelledGives(read: Reader, tag: string, yearMin: int, multi: bool, e: Entry, r: Row, metric: string)
    requires Gives(read, tag, yearMin, multi, e, r)
    ensures Gives(read, tag, yearMin, multi, e, r.(metric := metric))
  {
  }

  lemma NothingHere(facts: Facts, read: Reader, yearMin: int, here: Place)
    requires InDollars(facts, here)
    requires var tag := METRIC_TAGS[here.m].1[here.t];
             FateOf(read, tag, yearMin, UnitsWithFacts(facts[tag]) > 1, EntryAt(facts, here)).Dropped?
    ensures forall r :: !GivesAt(facts, read, yearMin, here, r)
    ensures forall p, r :: GivesAt(facts, read, yearMin, p, r) && Before(p, here.(k := here.k + 1)) ==> Before(p, here)
  {
    hide FateOf, Gives, UnitsWithFacts, TwoHaveFacts;
    var tag := METRIC_TAGS[here.m].1[here.t];
    KeptGives(read, tag, yearMin, UnitsWithFacts(facts[tag]) > 1, EntryAt(facts, here));
    UnitsWithFactsMeans(facts[tag]);
  }

  lemma LabelledNothing(before: seq<Row>, metric: string)
    ensures before + Labelled([], metric) == before
  {
  }

  lemma LabelledMore(before: seq<Row>, front: seq<Row>, more: seq<Row>, metric: string)
    ensures before + Labelled(front + more, metric) == before + Labelled(front, metric) + Labelled(more, metric)
  {
    assert Labelled(front + more, metric) == Labelled(front, metric) + Labelled(more, metric);
  }

  lemma {:induction false} UnitsTrack(facts: Facts, read: Reader, yearMin: int, before: seq<Row>, was: seq<Place>,
                                      p: Place, n: nat) returns (places: seq<Place>)
    requires p.k == 0 && p.u == 0 && p.m < |METRIC_TAGS| && p.t < |METRIC_TAGS[p.m].1|
    requires n <= |UnitsOf(facts, METRIC_TAGS[p.m].1[p.t])| && Tracks(facts, read, yearMin, before, was, p)
    ensures var (metric, tags) := METRIC_TAGS[p.m];
            Tracks(facts, read, yearMin,
                   before + Labelled(TagRows(read, tags[p.t], yearMin, UnitsOf(facts, tags[p.t]), n), metric), places,
                   p.(u := n))
  {
    hide EntriesRows, GivesAt, Tracks, Labelled, UnitsWithFacts;
    var (metric, tags) := METRIC_TAGS[p.m];
    var units := UnitsOf(facts, tags[p.t]);
    if n == 0 {
      places := was;
      LabelledNothing(before, metric);
    } else {
      places := UnitsTrack(facts, read, yearMin, before, was, p, n - 1);
      var front, u := TagRows(read, tags[p.t], yearMin, units, n - 1), units[n - 1];
      var rows, here := before + Labelled(front, metric), p.(u := n - 1);
      if u.key == "USD" && u.entries.Some? {
        var es := u.entries.value;
        var more := EntriesRows(read, tags[p.t], yearMin, UnitsWithFacts(units) > 1, es, |es|);
        places := EntriesTrack(facts, read, yearMin, rows, places, here, |es|);
        LabelledMore(before, front, more, metric);
        NoMoreInUnit(facts, read, yearMin, here, |es|);
        Skips(facts, read, yearMin, rows + Labelled(more, metric), places, here.(k := |es|), p.(u := n));
      } else {
        NoMoreInUnit(facts, read, yearMin, here, 0);
        Skips(facts, read, yearMin, rows, places, here, p.(u := n));
      }
    }
  }

  /** Past its entries a unit gives nothing, and a unit that is not a list of facts in dollars never does. */
  lemma NoMoreInUnit(facts: Facts, read: Reader, yearMin: int, here: Place, n: nat)
    requires here.k == 0 && here.m < |METRIC_TAGS| && here.t < |METRIC_TAGS[here.m].1|
    requires var units := UnitsOf(facts, METRIC_TAGS[here.m].1[here.t]);
             here.u < |units| && (units[here.u].key == "USD" && units[here.u].entries.Some? ==>
                                    n == |units[here.u].entries.value|)
    ensures forall p, r :: GivesAt(facts, read, yearMin, p, r) && Before(p, here.(u := here.u + 1)) ==>
      Before(p, here.(k := n))
  {
    hide Gives;
  }

  lemma {:induction false} TagsTrack(facts: Facts, read: Reader, yearMin: int, before: seq<Row>, was: seq<Place>,
                                     p: Place, n: nat) returns (places: seq<Place>)
    requires p.k == 0 && p.u == 0 && p.t == 0 && p.m < |METRIC_TAGS| && n <= |METRIC_TAGS[p.m].1|
    requires Tracks(facts, read, yearMin, before, was, p)
    ensures var (metric, tags) := METRIC_TAGS[p.m];
            Tracks(facts, read, yearMin, before + MetricRows(facts, read, yearMin, metric, tags, n), places, p.(t := n))
  {
    hide TagRows, GivesAt, Tracks, Minted;
    var (metric, tags) := METRIC_TAGS[p.m];
    if n == 0 {
      places := was;
      assert before + [] == before;
    } else {
      places := TagsTrack(facts, read, yearMin, before, was, p, n - 1);
      var units, here := UnitsOf(facts, tags[n - 1]), p.(t := n - 1);
      var rows := before + MetricRows(facts, read, yearMin, metric, tags, n - 1);
      var more := Labelled(TagRows(read, tags[n - 1], yearMin, units, |units|), metric);
      places := UnitsTrack(facts, read, yearMin, rows, places, here, |units|);
      assert before + MetricRows(facts, read, yearMin, metric, tags, n) == rows + more;
      NoMoreInTag(facts, read, yearMin, here);
      Skips(facts, read, yearMin, rows + more, places, here.(u := |units|), p.(t := n));
    }
  }

  lemma NoMoreInTag(facts: Facts, read: Reader, yearMin: int, here: Place)
    requires here.k == 0 && here.u == 0 && here.m < |METRIC_TAGS| && here.t < |METRIC_TAGS[here.m].1|
    ensures forall p, r :: GivesAt(facts, read, yearMin, p, r) && Before(p, here.(t := here.t + 1)) ==>
      Before(p, here.(u := |UnitsOf(facts, METRIC_TAGS[here.m].1[here.t])|))
  {
    hide Gives;
  }

  lemma {:induction false} MetricsTrack(facts: Facts, read: Reader, yearMin: int, n: nat) returns (places: seq<Place>)
    requires n <= |METRIC_TAGS|
    ensures Tracks(facts, read, yearMin, AllRows(facts, read, yearMin, n), places, Place(n, 0, 0, 0))
  {
    hide MetricRows, GivesAt, Tracks, Minted, NamedIn;
    if n == 0 {
      places := [];
      Nothing(facts, read, yearMin);
    } else {
      places := MetricsTrack(facts, read, yearMin, n - 1);
      var (metric, tags) := METRIC_TAGS[n - 1];
      var here := Place(n - 1, 0, 0, 0);
      places := TagsTrack(facts, read, yearMin, AllRows(facts, read, yearMin, n - 1), places, here, |tags|);
      NoMoreInMetric(facts, read, yearMin, here);
      Skips(facts, read, yearMin, AllRows(facts, read, yearMin, n), places, here.(t := |tags|), Place(n, 0, 0, 0));
    }
  }

  lemma NoMoreInMetric(facts: Facts, read: Reader, yearMin: int, here: Place)
    requires here.k == 0 && here.u == 0 && here.t == 0 && here.m < |METRIC_TAGS|
    ensures forall p, r :: GivesAt(facts, read, yearMin, p, r) && Before(p, Place(here.m + 1, 0, 0, 0)) ==>
      Before(p, here.(t := |METRIC_TAGS[here.m].1|))
  {
    hide Gives;
  }

  /**
   The candidate rows: one for each consolidated quarterly fact in dollars that is recent enough and has a value, under
   the metric whose tag it is filed under, with the fact's own fields; and no other row.
   */
  lemma CandidatesAreFacts(facts: Facts, read: Reader, yearMin: int) returns (places: seq<Place>)
    ensures var rows := AllRows(facts, read, yearMin, |METRIC_TAGS|);
            && |places| == |rows|
            && (forall j :: 0 <= j < |rows| ==> GivesAt(facts, read, yearMin, places[j], rows[j]))
            && (forall i, j :: 0 <= i < j < |places| ==> Before(places[i], places[j]))
            && (forall p, r :: GivesAt(facts, read, yearMin, p, r) ==> p in places)
  {
    hide AllRows, GivesAt;
    places := MetricsTrack(facts, read, yearMin, |METRIC_TAGS|);
    forall p, r | GivesAt(facts, read, yearMin, p, r)
      ensures Before(p, Place(|METRIC_TAGS|, 0, 0, 0))
    {
      GivenInDollars(facts, read, yearMin, p, r);
    }
  }

  lemma GivenInDollars(facts: Facts, read: Reader, yearMin: int, p: Place, r: Row)
    requires GivesAt(facts, read, yearMin, p, r)
    ensures InDollars(facts, p)
  {
  }

  // What is counted

  /** How many of the first n entries fail at a check. */
  ghost function Failing(read: Reader, yearMin: int, es: seq<Entry>, n: nat, reason: Reason): nat
    requires n <= |es|
  {
    if n == 0 then 0
    else Failing(read, yearMin, es, n - 1, reason) + if FailsAt(read, yearMin, es[n - 1], reason) then 1 else 0
  }

  /**
   What a unit is counted under: another unit of measure as many times as it has entries, something that is not a list
   as one misshapen entry, and otherwise each entry under the check it fails.
   */
  ghost function UnitFailing(read: Reader, yearMin: int, u: Unit, reason: Reason): nat {
    if u.key != "USD" then
      if reason != UnsupportedUnit then 0 else if u.entries.Some? then |u.entries.value| else 1
    else if u.entries.None? then if reason == InvalidEntryShape then 1 else 0
    else Failing(read, yearMin, u.entries.value, |u.entries.value|, reason)
  }

  ghost function UnitsFailing(read: Reader, yearMin: int, units: seq<Unit>, n: nat, reason: Reason): nat
    requires n <= |units|
  {
    if n == 0 then 0
    else UnitsFailing(read, yearMin, units, n - 1, reason) + UnitFailing(read, yearMin, units[n - 1], reason)
  }

  ghost function TagsFailing(facts: Facts, read: Reader, yearMin: int, tags: seq<string>, n: nat, reason: Reason): nat
    requires n <= |tags|
  {
    if n == 0 then 0
    else
      TagsFailing(facts, read, yearMin, tags, n - 1, reason)
      + if tags[n - 1] !in facts then 0
        else UnitsFailing(read, yearMin, facts[tags[n - 1]], |facts[tags[n - 1]]|, reason)
  }

  ghost function AllFailing(facts: Facts, read: Reader, yearMin: int, n: nat, reason: Reason): nat
    requires n <= |METRIC_TAGS|
  {
    if n == 0 then 0
    else
      AllFailing(facts, read, yearMin, n - 1, reason)
      + TagsFailing(facts, read, yearMin, METRIC_TAGS[n - 1].1, |METRIC_TAGS[n - 1].1|, reason)
  }

  lemma {:induction false} EntriesCounted(c: Counts, read: Reader, tag: string, yearMin: int, multi: bool,
                                          es: seq<Entry>, n: nat, reason: Reason)
    requires n <= |es|
    ensures CountOf(EntriesCounts(c, read, tag, yearMin, multi, es, n), reason)
         == CountOf(c, reason) + Failing(read, yearMin, es, n, reason)
  {
    hide FateOf, FailsAt, Bumped, CountOf;
    if n > 0 {
      EntriesCounted(c, read, tag, yearMin, multi, es, n - 1, reason);
      DroppedFails(read, tag, yearMin, multi, es[n - 1], reason);
    }
  }

  lemma {:induction false} UnitsCounted(c: Counts, read: Reader, tag: string, yearMin: int, units: seq<Unit>, n: nat,
                                        reason: Reason)
    requires n <= |units|
    ensures CountOf(TagCounts(c, read, tag, yearMin, units, n), reason)
         == CountOf(c, reason) + UnitsFailing(read, yearMin, units, n, reason)
  {
    hide EntriesCounts, Failing, Bumped, CountOf, UnitsWithFacts;
    if n > 0 {
      UnitsCounted(c, read, tag, yearMin, units, n - 1, reason);
      var d, u := TagCounts(c, read, tag, yearMin, units, n - 1), units[n - 1];
      if u.key == "USD" && u.entries.Some? {
        EntriesCounted(d, read, tag, yearMin, UnitsWithFacts(units) > 1, u.entries.value, |u.entries.value|, reason);
      } else if u.key != "USD" && u.entries.Some? && |u.entries.value| == 0 {
        assert TagCounts(c, read, tag, yearMin, units, n) == Bumped(d, UnsupportedUnit, 0) == d;
      }
    }
  }

  lemma {:induction false} TagsCounted(c: Counts, facts: Facts, read: Reader, yearMin: int, tags: seq<string>, n: nat,
                                       reason: Reason)
    requires n <= |tags|
    ensures CountOf(MetricCounts(c, facts, read, yearMin, tags, n), reason)
         == CountOf(c, reason) + TagsFailing(facts, read, yearMin, tags, n, reason)
  {
    hide TagCounts, UnitsFailing, CountOf;
    if n > 0 {
      TagsCounted(c, facts, read, yearMin, tags, n - 1, reason);
      var units := UnitsOf(facts, tags[n - 1]);
      var d := MetricCounts(c, facts, read, yearMin, tags, n - 1);
      UnitsCounted(d, read, tags[n - 1], yearMin, units, |units|, reason);
      NothingFails(read, yearMin, reason);
    }
  }

  lemma NothingFails(read: Reader, yearMin: int, reason: Reason)
    ensures UnitsFailing(read, yearMin, [], 0, reason) == 0
  {
  }

  /** Each reason counts exactly the facts that fail its check first, of all units of all tags of all metrics. */
  lemma {:induction false} FactsAreCounted(c: Counts, facts: Facts, read: Reader, yearMin: int, n: nat, reason: Reason)
    requires n <= |METRIC_TAGS|
    ensures CountOf(AllCounts(c, facts, read, yearMin, n), reason)
         == CountOf(c, reason) + AllFailing(facts, read, yearMin, n, reason)
  {
    hide MetricCounts, TagsFailing, CountOf;
    if n > 0 {
      FactsAreCounted(c, facts, read, yearMin, n - 1, reason);
      TagsCounted(AllCounts(c, facts, read, yearMin, n - 1), facts, read, yearMin, METRIC_TAGS[n - 1].1,
                  |METRIC_TAGS[n - 1].1|, reason);
    }
  }

  /** Selection counts the rows it leaves out as duplicates, and nothing else. */
  lemma {:induction false} DuplicatesAreCounted(c: Counts, rows: seq<Row>, n: nat, reason: Reason)
    requires n <= |METRIC_TAGS|
    ensures CountOf(FinalCounts(c, rows, n), reason)
         == CountOf(c, reason) + if reason == DuplicateResolved then SumOfMetrics(rows, n) - |FinalRows(rows, n)| else 0
    ensures |FinalRows(rows, n)| <= SumOfMetrics(rows, n)
  {
    hide OfMetric, MetricWinners, Bumped, CountOf;
    if n > 0 {
      DuplicatesAreCounted(c, rows, n - 1, reason);
      WinnersAreFew(rows, n - 1);
    }
  }
}
