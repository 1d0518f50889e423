/**
 What filing one experiment's evidence amounts to: every item against every claim it was raised to test, each in its
 own direction.
 */
module Directions {
  import opened Outcomes
  import opened Enums
  import opened Environment
  import opened Filing

  function Opposite(d: Direction): Direction {
    match d
    case Supports => Refutes
    case Refutes => Supports
    case Neutral => Neutral
  }

  /**
   One measurement bears on opposite expectations in opposite directions, and is neutral only when it points nowhere; a
   claim without an expectation is never refuted by it.
   */
  lemma OppositeExpectations(sign: int, e: RawEvidence, recordSignal: int)
    requires sign == 1 || sign == -1
    ensures DirectionFor(Some(-sign), e, recordSignal) == Opposite(DirectionFor(Some(sign), e, recordSignal))
    ensures DirectionFor(Some(sign), e, recordSignal) == Neutral <==> EvidenceSign(e) == 0 && recordSignal == 0
    ensures EvidenceSign(e) != 0 ==> DirectionFor(Some(sign), e, recordSignal) == DirectionFor(Some(sign), e, 0)
    ensures DirectionFor(None, e, recordSignal) == if e.direction == Supports then Supports else Neutral
  {
    hide EvidenceSign;
    var own := EvidenceSign(e);
    var signal := if own == 0 then recordSignal else own;
    assert signal * -sign == -(signal * sign);
    if signal != 0 {
      assert signal * sign == signal || signal * sign == -signal;
    }
  }

  // The sign of a measurement

  /** The first of the keys that is present. */
  predicate FirstPresent(values: map<string, real>, keys: seq<string>, k: nat) {
    k < |keys| && keys[k] in values && forall j :: 0 <= j < k ==> keys[j] !in values
  }

  predicate NonePresent(values: map<string, real>, keys: seq<string>) {
    forall j :: 0 <= j < |keys| ==> keys[j] !in values
  }

  /** Up, down, or too close to nothing to tell. */
  predicate PointsAs(x: real, sign: int) {
    if x >= 0.000000001 then sign == 1 else if x <= -0.000000001 then sign == -1 else sign == 0
  }

  lemma {:induction false} FirstSignMeans(values: map<string, real>, keys: seq<string>)
    ensures FirstSign(values, keys).None? <==> NonePresent(values, keys)
    ensures forall k: nat :: FirstPresent(values, keys, k) ==>
      FirstSign(values, keys).Some? && PointsAs(values[keys[k]], FirstSign(values, keys).value)
  {
    if keys != [] {
      FirstSignMeans(values, keys[1..]);
      if keys[0] !in values {
        forall k: nat | FirstPresent(values, keys, k)
          ensures FirstSign(values, keys).Some? && PointsAs(values[keys[k]], FirstSign(values, keys).value)
        {
          assert FirstPresent(values, keys[1..], k - 1);
        }
        assert forall j :: 1 <= j < |keys| ==> keys[j] == keys[1..][j - 1];
      }
    }
  }

  const ITEM_KEYS := ["slope", "shift", "mean_diff"]
  const RECORD_KEYS := ["slope", "mean_slope", "shift", "mean_diff", "effect_size"]

  /** An item points as the first of its slope, shift and mean difference that it has; without any, nowhere. */
  lemma EvidenceSignMeans(e: RawEvidence)
    ensures e.diagnostics.Some? ==> forall k: nat :: FirstPresent(e.diagnostics.value, ITEM_KEYS, k) ==>
      PointsAs(e.diagnostics.value[ITEM_KEYS[k]], EvidenceSign(e))
    ensures e.diagnostics.None? || NonePresent(e.diagnostics.value, ITEM_KEYS) ==> EvidenceSign(e) == 0
  {
    hide FirstSign, Sign;
    if e.diagnostics.Some? {
      FirstSignMeans(e.diagnostics.value, ITEM_KEYS);
    }
  }

  lemma {:induction false} StatisticsSignMeans(statistics: seq<map<string, real>>)
    ensures (forall i :: 0 <= i < |statistics| ==> NonePresent(statistics[i], ITEM_KEYS)) ==>
      StatisticsSign(statistics) == 0
    ensures forall i: nat, k: nat :: FirstThatTells(statistics, i) && FirstPresent(statistics[i], ITEM_KEYS, k) ==>
      PointsAs(statistics[i][ITEM_KEYS[k]], StatisticsSign(statistics))
  {
    hide FirstSign, PointsAs, NonePresent;
    if statistics != [] {
      StatisticsSignMeans(statistics[1..]);
      FirstSignMeans(statistics[0], ITEM_KEYS);
      if FirstSign(statistics[0], ITEM_KEYS).None? {
        assert forall i :: 1 <= i < |statistics| ==> statistics[i] == statistics[1..][i - 1];
        forall i: nat, k: nat | FirstThatTells(statistics, i) && FirstPresent(statistics[i], ITEM_KEYS, k)
          ensures PointsAs(statistics[i][ITEM_KEYS[k]], StatisticsSign(statistics))
        {
          assert FirstThatTells(statistics[1..], i - 1);
        }
      } else {
        forall i: nat | FirstThatTells(statistics, i) ensures i == 0 {
        }
      }
    }
  }

  predicate FirstThatTells(statistics: seq<map<string, real>>, i: nat) {
    && i < |statistics| && !NonePresent(statistics[i], ITEM_KEYS)
    && forall j :: 0 <= j < i ==> NonePresent(statistics[j], ITEM_KEYS)
  }

  /** A record points as the first of its metrics that tells; otherwise as the first of its statistics that does. */
  lemma SignalSignMeans(rec: Record)
    ensures forall k: nat :: FirstPresent(rec.metrics, RECORD_KEYS, k) ==>
      PointsAs(rec.metrics[RECORD_KEYS[k]], SignalSign(rec))
    ensures NonePresent(rec.metrics, RECORD_KEYS) ==>
      forall i: nat, k: nat :: FirstThatTells(rec.statistics, i) && FirstPresent(rec.statistics[i], ITEM_KEYS, k) ==>
        PointsAs(rec.statistics[i][ITEM_KEYS[k]], SignalSign(rec))
    ensures NonePresent(rec.metrics, RECORD_KEYS)
            && (forall i :: 0 <= i < |rec.statistics| ==> NonePresent(rec.statistics[i], ITEM_KEYS)) ==>
      SignalSign(rec) == 0
  {
    hide FirstSign, PointsAs, NonePresent, FirstPresent, StatisticsSign, FirstThatTells;
    FirstSignMeans(rec.metrics, RECORD_KEYS);
    StatisticsSignMeans(rec.statistics);
  }

  /** What an item says: its own sign where it has one, and otherwise the record's. */
  predicate Told(e: RawEvidence, recordSignal: int, signal: int) {
    signal == if EvidenceSign(e) != 0 then EvidenceSign(e) else recordSignal
  }

  /** An item supports a claim that expects what it says, refutes one that expects the opposite, and is else neutral. */
  lemma DirectionMeans(expected: int, e: RawEvidence, recordSignal: int, signal: int)
    requires (expected == 1 || expected == -1) && Told(e, recordSignal, signal)
    ensures var d := DirectionFor(Some(expected), e, recordSignal);
            && (d == Supports <==> (signal > 0 && expected == 1) || (signal < 0 && expected == -1))
            && (d == Refutes <==> (signal > 0 && expected == -1) || (signal < 0 && expected == 1))
            && (d == Neutral <==> signal == 0)
  {
    hide EvidenceSign;
    assert signal * expected == if expected == 1 then signal else -signal;
  }

  /** Items times targets: every pair once, item by item; without a target each item once, unattached. */
  lemma {:induction false} EveryItemAgainstEveryTarget(items: seq<RawEvidence>, targets: seq<string>)
    ensures targets != [] ==> |Pairings(items, targets)| == |items| * |targets|
    ensures targets != [] ==> forall i, t :: 0 <= i < |items| && 0 <= t < |targets| ==>
      Placed(items, targets, i, t)
    ensures targets == [] ==> |Pairings(items, targets)| == |items|
    ensures targets == [] ==> forall i :: 0 <= i < |items| ==> Pairings(items, targets)[i] == (items[i], None)
  {
    if items != [] {
      var n := |items| - 1;
      var before := Pairings(items[..n], targets);
      EveryItemAgainstEveryTarget(items[..n], targets);
      if targets != [] {
        assert |items| * |targets| == n * |targets| + |targets|;
        forall i, t | 0 <= i < |items| && 0 <= t < |targets| ensures Placed(items, targets, i, t) {
          if i < n {
            assert Placed(items[..n], targets, i, t);
            PlacesOrdered(i, t, n, |targets|);
          }
        }
      }
    }
  }

  /** The i-th item meets the t-th target at place i * |targets| + t. */
  predicate Placed(items: seq<RawEvidence>, targets: seq<string>, i: nat, t: nat)
    requires i < |items| && t < |targets|
  {
    i * |targets| + t < |Pairings(items, targets)|
    && Pairings(items, targets)[i * |targets| + t] == (items[i], Some(targets[t]))
  }

  lemma PlacesOrdered(i: nat, t: nat, n: nat, width: nat)
    requires i < n && t < width
    ensures i * width + t < n * width
  {
    assert (n - i - 1) * width >= 0;
    assert n * width == (n - i - 1) * width + i * width + width;
  }
}
