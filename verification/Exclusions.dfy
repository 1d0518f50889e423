/** src/exclusions.py: how many facts were left out, by reason. */
module Exclusions {
  /** The stable reason codes, in the alphabetical order of their names. */
  datatype Reason =
    | DropDuplicateRow
    | DuplicateResolved
    | InvalidEntryShape
    | InvalidFiscalYear
    | InvalidForm
    | InvalidPeriod
    | MissingRequiredMetric
    | NonNumeric
    | NonNumericCoercion
    | NullFactValue
    | SegmentedContextExcluded
    | UnsupportedUnit
    | YearOutOfRange

  const ALL_REASON_CODES: seq<Reason> :=
    [DropDuplicateRow, DuplicateResolved, InvalidEntryShape, InvalidFiscalYear, InvalidForm, InvalidPeriod,
     MissingRequiredMetric,
     NonNumeric, NonNumericCoercion, NullFactValue, SegmentedContextExcluded, UnsupportedUnit, YearOutOfRange]

  type Counts = map<Reason, nat>

  function CountOf(c: Counts, r: Reason): nat {
    if r in c then c[r] else 0
  }

  /** The facts counted under the first n reasons. */
  function SumOf(c: Counts, n: nat): nat
    requires n <= |ALL_REASON_CODES|
  {
    if n == 0 then 0 else SumOf(c, n - 1) + CountOf(c, ALL_REASON_CODES[n - 1])
  }

  function Total(c: Counts): nat {
    SumOf(c, |ALL_REASON_CODES|)
  }

  /** The counts after n more facts under one reason; nothing changes for n below one. */
  function Bumped(c: Counts, r: Reason, n: int): (d: Counts)
    ensures n < 1 ==> d == c
    ensures n >= 1 ==> CountOf(d, r) == CountOf(c, r) + n
    ensures forall q :: q != r ==> CountOf(d, q) == CountOf(c, q)
  {
    if n < 1 then c else c[r := CountOf(c, r) + n]
  }

  lemma BumpAdds(c: Counts, r: Reason, n: nat)
    ensures Total(Bumped(c, r, n)) == Total(c) + n
  {
    hide Bumped, CountOf;
    var k := PlaceOf(r);
    SumBumped(c, r, n, k, |ALL_REASON_CODES|);
  }

  function PlaceOf(r: Reason): (k: nat)
    ensures k < |ALL_REASON_CODES| && ALL_REASON_CODES[k] == r
  {
    match r
    case DropDuplicateRow => 0
    case DuplicateResolved => 1
    case InvalidEntryShape => 2
    case InvalidFiscalYear => 3
    case InvalidForm => 4
    case InvalidPeriod => 5
    case MissingRequiredMetric => 6
    case NonNumeric => 7
    case NonNumericCoercion => 8
    case NullFactValue => 9
    case SegmentedContextExcluded => 10
    case UnsupportedUnit => 11
    case YearOutOfRange => 12
  }

  lemma {:induction false} SumBumped(c: Counts, r: Reason, n: nat, k: nat, m: nat)
    requires k < |ALL_REASON_CODES| && ALL_REASON_CODES[k] == r && m <= |ALL_REASON_CODES|
    ensures SumOf(Bumped(c, r, n), m) == SumOf(c, m) + if k < m then n else 0
  {
    hide Bumped, CountOf, PlaceOf;
    if m > 0 {
      SumBumped(c, r, n, k, m - 1);
      OwnPlace(k);
      OwnPlace(m - 1);
    }
  }

  /** The shared count dictionary. */
  class ExclusionCounts {
    var counts: Counts

    constructor ()
      ensures counts == map[]
    {
      counts := map[];
    }
  }

  /** bump: a caller that passes no dictionary counts nothing. */
  method Bump(exclusions: ExclusionCounts?, r: Reason, n: int)
    modifies exclusions
    ensures exclusions != null ==> exclusions.counts == Bumped(old(exclusions.counts), r, n)
  {
    if exclusions == null || n < 1 {
      return;
    }
    exclusions.counts := exclusions.counts[r := CountOf(exclusions.counts, r) + n];
  }

  datatype SummaryRow = SummaryRow(stage: string, reason: Reason, count: nat, detail: string)

  /** The facts the summary's rows add up to. */
  function SumOfRows(rows: seq<SummaryRow>): nat {
    if rows == [] then 0 else SumOfRows(rows[..|rows| - 1]) + rows[|rows| - 1].count
  }

  /** The rows of the first n reasons: one for each that counts something. */
  function Summary(stage: string, counts: Counts, detail: string, n: nat): seq<SummaryRow>
    requires n <= |ALL_REASON_CODES|
  {
    if n == 0 then []
    else
      var rows, r := Summary(stage, counts, detail, n - 1), ALL_REASON_CODES[n - 1];
      if CountOf(counts, r) > 0 then rows + [SummaryRow(stage, r, CountOf(counts, r), detail)] else rows
  }

  /** The summary leaves no counted fact out. */
  lemma {:induction false} SummaryAddsUp(stage: string, counts: Counts, detail: string, n: nat)
    requires n <= |ALL_REASON_CODES|
    ensures SumOfRows(Summary(stage, counts, detail, n)) == SumOf(counts, n)
  {
    hide CountOf;
    if n > 0 {
      SummaryAddsUp(stage, counts, detail, n - 1);
      var rows, r := Summary(stage, counts, detail, n - 1), ALL_REASON_CODES[n - 1];
      assert (rows + [SummaryRow(stage, r, CountOf(counts, r), detail)])[..|rows|] == rows;
    }
  }

  predicate Names(rows: seq<SummaryRow>, r: Reason) {
    exists k :: 0 <= k < |rows| && rows[k].reason == r
  }

  /** A row of one of the first n reasons, with its count. */
  predicate Counted(row: SummaryRow, stage: string, counts: Counts, detail: string, n: nat) {
    row.stage == stage && row.detail == detail && row.count == CountOf(counts, row.reason) > 0
    && PlaceOf(row.reason) < n
  }

  predicate Ordered(rows: seq<SummaryRow>) {
    forall j, k :: 0 <= j < k < |rows| ==> PlaceOf(rows[j].reason) < PlaceOf(rows[k].reason)
  }

  /** Its rows carry the counts, none of them empty, in the order of the reasons and so one each. */
  lemma {:induction false} SummaryIsExact(stage: string, counts: Counts, detail: string, n: nat)
    requires n <= |ALL_REASON_CODES|
    ensures forall k :: 0 <= k < |Summary(stage, counts, detail, n)| ==>
      Counted(Summary(stage, counts, detail, n)[k], stage, counts, detail, n)
    ensures Ordered(Summary(stage, counts, detail, n))
  {
    hide CountOf, PlaceOf, Ordered, Counted;
    if n == 0 {
      assert Ordered([]) by { NothingOrdered(); }
    } else {
      SummaryIsExact(stage, counts, detail, n - 1);
      var rows, r := Summary(stage, counts, detail, n - 1), ALL_REASON_CODES[n - 1];
      OneMoreCounted(rows, SummaryRow(stage, r, CountOf(counts, r), detail), stage, counts, detail, n);
    }
  }

  lemma NothingOrdered()
    ensures Ordered([])
  {
  }

  lemma OneMoreCounted(rows: seq<SummaryRow>, row: SummaryRow, stage: string, counts: Counts, detail: string, n: nat)
    requires 0 < n <= |ALL_REASON_CODES| && Ordered(rows)
    requires forall k :: 0 <= k < |rows| ==> Counted(rows[k], stage, counts, detail, n - 1)
    requires row == SummaryRow(stage, ALL_REASON_CODES[n - 1], CountOf(counts, ALL_REASON_CODES[n - 1]), detail)
    ensures forall k :: 0 <= k < |rows| ==> Counted(rows[k], stage, counts, detail, n)
    ensures row.count > 0 ==> Counted(row, stage, counts, detail, n) && Ordered(rows + [row])
  {
    hide CountOf, PlaceOf;
    OwnPlace(n - 1);
  }

  /** Every reason that counts something is named. */
  lemma {:induction false} SummaryNamesAll(stage: string, counts: Counts, detail: string, n: nat, r: Reason)
    requires n <= |ALL_REASON_CODES| && PlaceOf(r) < n && CountOf(counts, r) > 0
    ensures Names(Summary(stage, counts, detail, n), r)
  {
    hide CountOf, PlaceOf, Summary, Names;
    if PlaceOf(r) < n - 1 {
      SummaryNamesAll(stage, counts, detail, n - 1, r);
    }
    StillNamed(stage, counts, detail, n, r);
  }

  lemma StillNamed(stage: string, counts: Counts, detail: string, n: nat, r: Reason)
    requires 0 < n <= |ALL_REASON_CODES| && PlaceOf(r) < n && CountOf(counts, r) > 0
    requires PlaceOf(r) < n - 1 ==> Names(Summary(stage, counts, detail, n - 1), r)
    ensures Names(Summary(stage, counts, detail, n), r)
  {
    hide CountOf, PlaceOf;
    var before, now := Summary(stage, counts, detail, n - 1), Summary(stage, counts, detail, n);
    if PlaceOf(r) < n - 1 {
      var k :| 0 <= k < |before| && before[k].reason == r;
      assert now[k].reason == r;
    } else {
      assert now[|before|].reason == r;
    }
  }

  lemma OwnPlace(n: nat)
    requires n < |ALL_REASON_CODES|
    ensures PlaceOf(ALL_REASON_CODES[n]) == n
  {
  }

  /**
   What a summary of counts is: one row for each reason that counts something, with its count, in the order of the
   reasons; together the rows count everything.
   */
  ghost predicate Summarises(rows: seq<SummaryRow>, stage: string, counts: Counts, detail: string) {
    && (forall k :: 0 <= k < |rows| ==> Counted(rows[k], stage, counts, detail, |ALL_REASON_CODES|))
    && (forall r :: CountOf(counts, r) > 0 ==> Names(rows, r))
    && Ordered(rows)
    && SumOfRows(rows) == Total(counts)
  }

  lemma SummarySummarises(stage: string, counts: Counts, detail: string)
    ensures Summarises(Summary(stage, counts, detail, |ALL_REASON_CODES|), stage, counts, detail)
  {
    hide CountOf, PlaceOf, Counted, Names, Ordered, Summary, SumOf;
    SummaryAddsUp(stage, counts, detail, |ALL_REASON_CODES|);
    SummaryIsExact(stage, counts, detail, |ALL_REASON_CODES|);
    forall r | CountOf(counts, r) > 0
      ensures Names(Summary(stage, counts, detail, |ALL_REASON_CODES|), r)
    {
      SummaryNamesAll(stage, counts, detail, |ALL_REASON_CODES|, r);
    }
  }

  /** counts_to_rows */
  method CountsToRows(stage: string, counts: Counts, detail: string) returns (rows: seq<SummaryRow>)
    ensures rows == Summary(stage, counts, detail, |ALL_REASON_CODES|)
    ensures Summarises(rows, stage, counts, detail)
  {
    hide CountOf, Summarises;
    rows := [];
    for n := 0 to |ALL_REASON_CODES|
      invariant rows == Summary(stage, counts, detail, n)
    {
      var r := ALL_REASON_CODES[n];
      if CountOf(counts, r) > 0 {
        rows := rows + [SummaryRow(stage, r, CountOf(counts, r), detail)];
      }
    }
    SummarySummarises(stage, counts, detail);
  }
}
