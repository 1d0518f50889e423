/**
 src/metric_extraction.py, _pick_best_per_period: one pass over the candidate rows that keeps, for every metric and
 fiscal quarter, the row with the lowest tag index, then the latest filing date, then the highest accession number.
 */
module Selection {
  import opened Outcomes

  datatype Row = Row(fy: int, fp: string, period: string, metric: string, tag: string, value: real, filed: string,
                     accn: string, form: string, multiUnitVariation: bool)

  datatype Key = Key(metric: string, fy: int, fp: string)

  function KeyOf(r: Row): Key {
    Key(r.metric, r.fy, r.fp)
  }

  /** Python's order of strings. */
  predicate Less(a: string, b: string) {
    if b == [] then false
    else if a == [] then true
    else if a[0] != b[0] then a[0] < b[0]
    else Less(a[1..], b[1..])
  }

  /** The index of the tag's last place in the order; 999 for a tag that has none. */
  function Priority(order: seq<string>, tag: string): nat {
    if order == [] then 999
    else if order[|order| - 1] == tag then |order| - 1
    else Priority(order[..|order| - 1], tag)
  }

  /** What rows are compared by. */
  datatype Rank = Rank(priority: nat, filed: string, accn: string)

  function RankOf(order: seq<string>, r: Row): Rank {
    Rank(Priority(order, r.tag), r.filed, r.accn)
  }

  /** a comes before b: it has the lower tag index, or then the later date, or then the higher accession number. */
  predicate Beats(a: Rank, b: Rank) {
    || a.priority < b.priority
    || (a.priority == b.priority && (Less(b.filed, a.filed) || (a.filed == b.filed && Less(b.accn, a.accn))))
  }

  lemma {:induction false} LessIsStrict(a: string, b: string)
    ensures !(Less(a, b) && Less(b, a))
    ensures a != b ==> Less(a, b) || Less(b, a)
  {
    if a != [] && b != [] && a[0] == b[0] {
      LessIsStrict(a[1..], b[1..]);
      assert a[1..] == b[1..] ==> a == b by {
        assert a == [a[0]] + a[1..] && b == [b[0]] + b[1..];
      }
    }
  }

  lemma {:induction false} LessIsTransitive(a: string, b: string, c: string)
    requires Less(a, b) && Less(b, c)
    ensures Less(a, c)
  {
    if a != [] && a[0] == b[0] == c[0] {
      LessIsTransitive(a[1..], b[1..], c[1..]);
    }
  }

  lemma BeatsIsStrict(a: Rank, b: Rank)
    ensures !(Beats(a, b) && Beats(b, a))
    ensures a != b ==> Beats(a, b) || Beats(b, a)
  {
    LessIsStrict(a.filed, b.filed);
    LessIsStrict(a.accn, b.accn);
  }

  lemma BeatsIsTransitive(a: Rank, b: Rank, c: Rank)
    requires Beats(a, b) && Beats(b, c)
    ensures Beats(a, c)
  {
    hide Less;
    if Less(c.filed, b.filed) && Less(b.filed, a.filed) {
      LessIsTransitive(c.filed, b.filed, a.filed);
    }
    if Less(c.accn, b.accn) && Less(b.accn, a.accn) {
      LessIsTransitive(c.accn, b.accn, a.accn);
    }
  }

  /** What one pass over the first n rows keeps for a key: a row is replaced only by a better one. */
  function Winner(order: seq<string>, rows: seq<Row>, n: nat, key: Key): (w: Option<nat>)
    requires n <= |rows|
    ensures w.Some? ==> w.value < n && KeyOf(rows[w.value]) == key
    ensures w.Some? <==> exists j :: 0 <= j < n && KeyOf(rows[j]) == key
  {
    if n == 0 then None
    else
      var w := Winner(order, rows, n - 1, key);
      if KeyOf(rows[n - 1]) != key then w
      else if w.None? || Beats(RankOf(order, rows[n - 1]), RankOf(order, rows[w.value])) then Some(n - 1)
      else w
  }

  /** Row w is the optimum of its key: it beats every earlier candidate, and no later one beats it. */
  ghost predicate Optimal(order: seq<string>, rows: seq<Row>, n: nat, key: Key, w: nat)
    requires n <= |rows|
  {
    && w < n && KeyOf(rows[w]) == key
    && (forall j :: 0 <= j < w && KeyOf(rows[j]) == key ==> Beats(RankOf(order, rows[w]), RankOf(order, rows[j])))
    && (forall j :: w < j < n && KeyOf(rows[j]) == key ==> !Beats(RankOf(order, rows[j]), RankOf(order, rows[w])))
  }

  /** The pass finds the lexicographic optimum, and of several equal ones the earliest; no other row is one. */
  lemma {:induction false} WinnerIsOptimal(order: seq<string>, rows: seq<Row>, n: nat, key: Key)
    requires n <= |rows| && Winner(order, rows, n, key).Some?
    ensures forall w: nat :: Optimal(order, rows, n, key, w) <==> w == Winner(order, rows, n, key).value
  {
    WinnerOptimal(order, rows, n, key);
    var w := Winner(order, rows, n, key).value;
    forall v: nat | Optimal(order, rows, n, key, v) ensures v == w {
      BeatsIsStrict(RankOf(order, rows[v]), RankOf(order, rows[w]));
    }
  }

  lemma {:induction false} WinnerOptimal(order: seq<string>, rows: seq<Row>, n: nat, key: Key)
    requires n <= |rows| && Winner(order, rows, n, key).Some?
    ensures Optimal(order, rows, n, key, Winner(order, rows, n, key).value)
  {
    hide Beats, RankOf;
    var k, before := n - 1, Winner(order, rows, n - 1, key);
    if before.Some? {
      WinnerOptimal(order, rows, k, key);
      if KeyOf(rows[k]) == key && Beats(RankOf(order, rows[k]), RankOf(order, rows[before.value])) {
        forall j | 0 <= j < k && KeyOf(rows[j]) == key ensures Beats(RankOf(order, rows[k]), RankOf(order, rows[j])) {
          BeatsIsStrict(RankOf(order, rows[j]), RankOf(order, rows[before.value]));
          NewcomerBeats(RankOf(order, rows[k]), RankOf(order, rows[before.value]), RankOf(order, rows[j]));
        }
      }
    }
  }

  /** Whoever beats the best beats all that do not beat the best. */
  lemma NewcomerBeats(a: Rank, best: Rank, b: Rank)
    requires Beats(a, best) && !Beats(b, best)
    ensures Beats(a, b)
  {
    hide Less;
    BeatsIsStrict(best, b);
    if best != b {
      BeatsIsTransitive(a, best, b);
    }
  }

  /** The winner's tag index, date and accession number do not depend on the order of the rows. */
  lemma WinnerIgnoresOrder(order: seq<string>, rows: seq<Row>, shuffled: seq<Row>, key: Key)
    requires multiset(rows) == multiset(shuffled)
    ensures Winner(order, rows, |rows|, key).Some? <==> Winner(order, shuffled, |shuffled|, key).Some?
    ensures Winner(order, rows, |rows|, key).Some? ==>
      RankOf(order, rows[Winner(order, rows, |rows|, key).value])
      == RankOf(order, shuffled[Winner(order, shuffled, |shuffled|, key).value])
  {
    hide Beats, RankOf;
    var v, w := Winner(order, rows, |rows|, key), Winner(order, shuffled, |shuffled|, key);
    if v.Some? {
      Elsewhere(order, rows, shuffled, key, v.value);
    }
    if w.Some? {
      Elsewhere(order, shuffled, rows, key, w.value);
    }
    if v.Some? && w.Some? {
      BeatsIsStrict(RankOf(order, rows[v.value]), RankOf(order, shuffled[w.value]));
    }
  }

  /** A candidate is among the shuffled rows too, and does not beat their winner. */
  lemma Elsewhere(order: seq<string>, rows: seq<Row>, shuffled: seq<Row>, key: Key, v: nat)
    requires multiset(rows) == multiset(shuffled) && v < |rows| && KeyOf(rows[v]) == key
    ensures Winner(order, shuffled, |shuffled|, key).Some?
    ensures !Beats(RankOf(order, rows[v]), RankOf(order, shuffled[Winner(order, shuffled, |shuffled|, key).value]))
  {
    hide Beats, RankOf;
    assert rows[v] in multiset(shuffled);
    var j :| 0 <= j < |shuffled| && shuffled[j] == rows[v];
    WinnerOptimal(order, shuffled, |shuffled|, key);
    var w := Winner(order, shuffled, |shuffled|, key).value;
    BeatsIsStrict(RankOf(order, shuffled[j]), RankOf(order, shuffled[w]));
  }

  // The dictionary of winners

  /** The keys of the first n rows, in order of first appearance. */
  function KeysOf(rows: seq<Row>, n: nat): (keys: seq<Key>)
    requires n <= |rows|
    ensures forall j :: 0 <= j < n ==> KeyOf(rows[j]) in keys
    ensures forall key :: key in keys ==> exists j :: 0 <= j < n && KeyOf(rows[j]) == key
    ensures forall i, j :: 0 <= i < j < |keys| ==> keys[i] != keys[j]
  {
    if n == 0 then []
    else
      var keys := KeysOf(rows, n - 1);
      if KeyOf(rows[n - 1]) in keys then keys else keys + [KeyOf(rows[n - 1])]
  }

  /** The winners of the first k keys. */
  function Chosen(order: seq<string>, rows: seq<Row>, k: nat): (r: seq<Row>)
    requires k <= |KeysOf(rows, |rows|)|
    ensures |r| == k
    ensures forall j :: 0 <= j < k ==> KeyOf(r[j]) == KeysOf(rows, |rows|)[j]
  {
    if k == 0 then []
    else
      var key := KeysOf(rows, |rows|)[k - 1];
      assert key in KeysOf(rows, |rows|);
      Chosen(order, rows, k - 1) + [rows[Winner(order, rows, |rows|, key).value]]
  }

  /** The dictionary holds the winners of the first n rows, and nothing else. */
  ghost predicate Kept(order: seq<string>, rows: seq<Row>, n: nat, keys: seq<Key>, best: map<Key, Row>)
    requires n <= |rows|
  {
    && keys == KeysOf(rows, n)
    && (forall key :: key in best <==> key in keys)
    && forall key :: key in best ==> Best(order, rows, n, key, best[key])
  }

  ghost predicate Best(order: seq<string>, rows: seq<Row>, n: nat, key: Key, r: Row)
    requires n <= |rows|
  {
    var w := Winner(order, rows, n, key);
    w.Some? && rows[w.value] == r
  }

  lemma KeepsFirst(order: seq<string>, rows: seq<Row>, n: nat, keys: seq<Key>, best: map<Key, Row>)
    requires n < |rows| && Kept(order, rows, n, keys, best) && KeyOf(rows[n]) !in best
    ensures Kept(order, rows, n + 1, keys + [KeyOf(rows[n])], best[KeyOf(rows[n]) := rows[n]])
  {
    hide Beats, RankOf;
  }

  lemma KeepsBetter(order: seq<string>, rows: seq<Row>, n: nat, keys: seq<Key>, best: map<Key, Row>)
    requires n < |rows| && Kept(order, rows, n, keys, best) && KeyOf(rows[n]) in best
    ensures Kept(order, rows, n + 1, keys,
                 if Beats(RankOf(order, rows[n]), RankOf(order, best[KeyOf(rows[n])]))
                 then best[KeyOf(rows[n]) := rows[n]] else best)
  {
    hide Beats, RankOf;
  }

  /** _pick_best_per_period, its dictionary's keys in insertion order. */
  method PickBestPerPeriod(rows: seq<Row>, order: seq<string>) returns (keys: seq<Key>, best: map<Key, Row>)
    ensures Kept(order, rows, |rows|, keys, best)
  {
    hide Priority, Less, Kept;
    keys, best := [], map[];
    assert Kept(order, rows, 0, keys, best) by { NothingKept(order, rows); }
    for n := 0 to |rows|
      invariant Kept(order, rows, n, keys, best)
    {
      var r := rows[n];
      var key := KeyOf(r);
      if key !in best {
        KeepsFirst(order, rows, n, keys, best);
        keys, best := keys + [key], best[key := r];
      } else {
        KeepsBetter(order, rows, n, keys, best);
        var cur := best[key];
        var pr, curPr := Priority(order, r.tag), Priority(order, cur.tag);
        if pr < curPr {
          best := best[key := r];
        } else if pr == curPr {
          if Less(cur.filed, r.filed) {
            best := best[key := r];
          } else if cur.filed == r.filed {
            if Less(cur.accn, r.accn) {
              best := best[key := r];
            }
          }
        }
      }
    }
  }

  lemma NothingKept(order: seq<string>, rows: seq<Row>)
    ensures Kept(order, rows, 0, [], map[])
  {
  }

  // Nothing is lost

  function Candidates(rows: seq<Row>, key: Key): nat {
    if rows == [] then 0 else Candidates(rows[..|rows| - 1], key) + if KeyOf(rows[|rows| - 1]) == key then 1 else 0
  }

  function SumOfCandidates(rows: seq<Row>, keys: seq<Key>): nat {
    if keys == [] then 0 else SumOfCandidates(rows, keys[..|keys| - 1]) + Candidates(rows, keys[|keys| - 1])
  }

  /** The winners' candidate counts add up to the rows there were before selection. */
  lemma {:induction false} CandidatesAddUp(rows: seq<Row>)
    ensures SumOfCandidates(rows, KeysOf(rows, |rows|)) == |rows|
    decreases |rows|
  {
    hide Candidates, KeysOf, SumOfCandidates;
    if rows == [] {
      NoKeys();
    } else {
      var front, last := rows[..|rows| - 1], KeyOf(rows[|rows| - 1]);
      var keys := KeysOf(front, |front|);
      CandidatesAddUp(front);
      LastKey(rows);
      OneMoreCandidate(rows, keys);
      if last !in keys {
        assert forall j :: 0 <= j < |front| ==> KeyOf(front[j]) in keys;
        OnlyCandidate(rows);
        SumWithLast(rows, keys, last);
      }
    }
  }

  lemma NoKeys()
    ensures SumOfCandidates([], KeysOf([], 0)) == 0
  {
  }

  lemma LastKey(rows: seq<Row>)
    requires rows != []
    ensures var front, last := rows[..|rows| - 1], KeyOf(rows[|rows| - 1]);
      KeysOf(rows, |rows|) == if last in KeysOf(front, |front|) then KeysOf(front, |front|)
         else KeysOf(front, |front|) + [last]
  {
    KeysOfPrefix(rows, rows[..|rows| - 1], |rows| - 1);
  }

  lemma SumWithLast(rows: seq<Row>, keys: seq<Key>, last: Key)
    ensures SumOfCandidates(rows, keys + [last]) == SumOfCandidates(rows, keys) + Candidates(rows, last)
  {
    assert (keys + [last])[..|keys|] == keys;
  }

  lemma {:induction false} KeysOfPrefix(rows: seq<Row>, others: seq<Row>, n: nat)
    requires n <= |rows| && n <= |others| && rows[..n] == others[..n]
    ensures KeysOf(rows, n) == KeysOf(others, n)
  {
    if n > 0 {
      assert rows[..n - 1] == rows[..n][..n - 1] && others[..n - 1] == others[..n][..n - 1];
      assert rows[n - 1] == rows[..n][n - 1] && others[n - 1] == others[..n][n - 1];
      KeysOfPrefix(rows, others, n - 1);
    }
  }

  lemma OnlyCandidate(rows: seq<Row>)
    requires rows != [] && forall j :: 0 <= j < |rows| - 1 ==> KeyOf(rows[j]) != KeyOf(rows[|rows| - 1])
    ensures Candidates(rows, KeyOf(rows[|rows| - 1])) == 1
  {
    NoCandidate(rows[..|rows| - 1], KeyOf(rows[|rows| - 1]));
  }

  lemma {:induction false} OneMoreCandidate(rows: seq<Row>, keys: seq<Key>)
    requires rows != [] && forall i, j :: 0 <= i < j < |keys| ==> keys[i] != keys[j]
    ensures SumOfCandidates(rows, keys)
         == SumOfCandidates(rows[..|rows| - 1], keys) + if KeyOf(rows[|rows| - 1]) in keys then 1 else 0
  {
    if keys != [] {
      var k := |keys| - 1;
      OneMoreCandidate(rows, keys[..k]);
      assert keys == keys[..k] + [keys[k]];
    }
  }

  lemma {:induction false} NoCandidate(rows: seq<Row>, key: Key)
    requires forall j :: 0 <= j < |rows| ==> KeyOf(rows[j]) != key
    ensures Candidates(rows, key) == 0
  {
    if rows != [] {
      NoCandidate(rows[..|rows| - 1], key);
    }
  }
}
