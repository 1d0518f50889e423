/** Content-addressed artifacts and the sinks that collect them. */
module Artifacts {
  newtype byte = x: int | 0 <= x < 256
  type Bytes = seq<byte>

  datatype ArtifactKind = Table | Json | ChartSpec

  /** One artifact handed to a sink, already serialized. */
  datatype Emission = Emission(name: string, data: Bytes, kind: ArtifactKind)

  datatype ArtifactRecord = ArtifactRecord(id: string, name: string, kind: ArtifactKind, mediaType: string,
                                           fingerprint: string, byteSize: nat)

  /** The digest of a byte string, and the id derived from a name and a fingerprint. */
  datatype Naming = Naming(sha256: Bytes -> string, artifactId: (string, string) -> string)

  function MediaType(kind: ArtifactKind): string {
    match kind
    case Table => "text/csv"
    case Json => "application/json"
    case ChartSpec => "application/vnd.chart+json"
  }

  function IdOf(naming: Naming, e: Emission): string {
    naming.artifactId(e.name, naming.sha256(e.data))
  }

  function RecordOf(naming: Naming, e: Emission): ArtifactRecord {
    ArtifactRecord(IdOf(naming, e), e.name, e.kind, MediaType(e.kind), naming.sha256(e.data), |e.data|)
  }

  /** What a sink holds. */
  datatype Shelf = Shelf(contents: map<string, Bytes>, records: seq<ArtifactRecord>)

  /** InMemoryArtifactSink._record */
  function Emitted(naming: Naming, s: Shelf, e: Emission): Shelf {
    Shelf(s.contents[IdOf(naming, e) := e.data], s.records + [RecordOf(naming, e)])
  }

  function EmitAll(naming: Naming, s: Shelf, es: seq<Emission>): Shelf {
    if es == [] then s else Emitted(naming, EmitAll(naming, s, es[..|es| - 1]), es[|es| - 1])
  }

  class InMemoryArtifactSink {
    const naming: Naming
    var contents: map<string, Bytes>
    var records: seq<ArtifactRecord>

    function View(): Shelf
      reads this
    {
      Shelf(contents, records)
    }

    constructor (naming: Naming)
      ensures View() == Shelf(map[], []) && this.naming == naming
    {
      this.naming := naming;
      contents := map[];
      records := [];
    }

    method Record(e: Emission) returns (rec: ArtifactRecord)
      modifies this
      ensures View() == Emitted(naming, old(View()), e)
      ensures rec == RecordOf(naming, e)
    {
      var fingerprint := naming.sha256(e.data);
      rec := ArtifactRecord(naming.artifactId(e.name, fingerprint), e.name, e.kind, MediaType(e.kind), fingerprint,
                            |e.data|);
      contents := contents[rec.id := e.data];
      records := records + [rec];
    }
  }

  /** LockedArtifactSink: emission into the inner sink is one indivisible step. */
  class LockedArtifactSink {
    const inner: InMemoryArtifactSink

    constructor (inner: InMemoryArtifactSink)
      ensures this.inner == inner
    {
      this.inner := inner;
    }

    method Emit(e: Emission) returns (rec: ArtifactRecord)
      modifies inner
      ensures inner.View() == Emitted(inner.naming, old(inner.View()), e)
      ensures rec == RecordOf(inner.naming, e)
    {
      rec := inner.Record(e);
    }
  }

  // Order

  /** Two artifacts' names and digests are given one id. */
  predicate SameId(naming: Naming, e: Emission, f: Emission) {
    naming.artifactId(e.name, naming.sha256(e.data)) == naming.artifactId(f.name, naming.sha256(f.data))
  }

  /** No id names two different byte strings. */
  predicate CollisionFree(naming: Naming, es: seq<Emission>) {
    forall i, j :: 0 <= i < |es| && 0 <= j < |es| && SameId(naming, es[i], es[j]) ==> es[i].data == es[j].data
  }

  /** The last emission under an id decides the bytes kept for it. */
  lemma {:induction false} EmittedContents(naming: Naming, s: Shelf, es: seq<Emission>, id: string)
    ensures id in EmitAll(naming, s, es).contents
      <==> id in s.contents || exists k :: 0 <= k < |es| && IdOf(naming, es[k]) == id
    ensures (forall k :: 0 <= k < |es| ==> IdOf(naming, es[k]) != id) && id in s.contents ==>
      EmitAll(naming, s, es).contents[id] == s.contents[id]
    ensures (exists k :: 0 <= k < |es| && IdOf(naming, es[k]) == id) ==>
      exists k :: 0 <= k < |es| && IdOf(naming, es[k]) == id && EmitAll(naming, s, es).contents[id] == es[k].data
  {
    if es != [] {
      var n := |es| - 1;
      EmittedContents(naming, s, es[..n], id);
      var before := EmitAll(naming, s, es[..n]).contents;
      assert forall k :: 0 <= k < n ==> es[..n][k] == es[k];
      if IdOf(naming, es[n]) != id {
        if exists k :: 0 <= k < n && IdOf(naming, es[..n][k]) == id {
          var k :| 0 <= k < n && IdOf(naming, es[..n][k]) == id && before[id] == es[..n][k].data;
          assert IdOf(naming, es[k]) == id;
        }
      }
    }
  }

  function RecordsOf(naming: Naming, es: seq<Emission>): (r: seq<ArtifactRecord>)
    ensures |r| == |es|
  {
    seq(|es|, k requires 0 <= k < |es| => RecordOf(naming, es[k]))
  }

  lemma {:induction false} EmittedRecords(naming: Naming, s: Shelf, es: seq<Emission>)
    ensures EmitAll(naming, s, es).records == s.records + RecordsOf(naming, es)
  {
    if es != [] {
      EmittedRecords(naming, s, es[..|es| - 1]);
    }
  }

  /** One occurrence of an element, taken out. */
  lemma TakeOut<T>(fs: seq<T>, x: T) returns (k: nat)
    requires x in fs
    ensures k < |fs| && fs[k] == x
    ensures multiset(fs) == multiset(fs[..k] + fs[k + 1..]) + multiset{x}
  {
    k :| 0 <= k < |fs| && fs[k] == x;
    assert fs == fs[..k] + [fs[k]] + fs[k + 1..];
  }

  lemma RecordsWithout(naming: Naming, fs: seq<Emission>, k: nat)
    requires k < |fs|
    ensures multiset(RecordsOf(naming, fs))
         == multiset(RecordsOf(naming, fs[..k] + fs[k + 1..])) + multiset{RecordOf(naming, fs[k])}
  {
    hide RecordOf;
    assert RecordsOf(naming, fs[..k] + fs[k + 1..]) == RecordsOf(naming, fs[..k]) + RecordsOf(naming, fs[k + 1..]);
    assert RecordsOf(naming, fs)
        == RecordsOf(naming, fs[..k]) + [RecordOf(naming, fs[k])] + RecordsOf(naming, fs[k + 1..]);
  }

  lemma {:induction false} RecordsPermute(naming: Naming, es: seq<Emission>, fs: seq<Emission>)
    requires multiset(es) == multiset(fs)
    ensures multiset(RecordsOf(naming, es)) == multiset(RecordsOf(naming, fs))
    decreases |es|
  {
    hide RecordsOf, RecordOf;
    if es == [] {
      assert |multiset(fs)| == 0;
    } else {
      assert es[0] in multiset(fs);
      var k := TakeOut(fs, es[0]);
      var rest := fs[..k] + fs[k + 1..];
      assert es == [es[0]] + es[1..] && es[..0] + es[1..] == es[1..];
      assert multiset(es) == multiset([es[0]] + es[1..]) == multiset{es[0]} + multiset(es[1..]);
      assert multiset(es[1..]) == multiset(es) - multiset{es[0]} == multiset(rest);
      RecordsPermute(naming, es[1..], rest);
      RecordsWithout(naming, es, 0);
      RecordsWithout(naming, fs, k);
    }
  }

  lemma SameElements(es: seq<Emission>, fs: seq<Emission>, k: nat)
    requires multiset(es) == multiset(fs) && k < |es|
    ensures exists j :: 0 <= j < |fs| && fs[j] == es[k]
  {
    assert es[k] in multiset(fs);
  }

  /** Without collisions the order of emission is invisible: the same bytes under every id, the same bag of records. */
  lemma OrderIsInvisible(naming: Naming, s: Shelf, es: seq<Emission>, fs: seq<Emission>)
    requires multiset(es) == multiset(fs) && CollisionFree(naming, es)
    ensures EmitAll(naming, s, es).contents == EmitAll(naming, s, fs).contents
    ensures multiset(EmitAll(naming, s, es).records) == multiset(EmitAll(naming, s, fs).records)
  {
    var a, b := EmitAll(naming, s, es).contents, EmitAll(naming, s, fs).contents;
    forall id: string
      ensures id in a <==> id in b
      ensures id in a ==> a[id] == b[id]
    {
      EmittedContents(naming, s, es, id);
      EmittedContents(naming, s, fs, id);
      if k :| 0 <= k < |es| && IdOf(naming, es[k]) == id && a[id] == es[k].data {
        SameElements(es, fs, k);
        var j :| 0 <= j < |fs| && fs[j] == es[k];
        var m :| 0 <= m < |fs| && IdOf(naming, fs[m]) == id && b[id] == fs[m].data;
        SameElements(fs, es, m);
      } else if j :| 0 <= j < |fs| && IdOf(naming, fs[j]) == id {
        SameElements(fs, es, j);
      }
    }
    EmittedRecords(naming, s, es);
    EmittedRecords(naming, s, fs);
    RecordsPermute(naming, es, fs);
  }

  /** The record tells the artifact's name, type, digest and size. */
  predicate Describes(naming: Naming, rec: ArtifactRecord, e: Emission) {
    && rec.name == e.name && rec.kind == e.kind && rec.fingerprint == naming.sha256(e.data) && rec.byteSize == |e.data|
    && rec.mediaType == if e.kind == Table then "text/csv" else if e.kind == Json then "application/json"
                        else "application/vnd.chart+json"
  }

  /** Without collisions every record of a fresh sink opens the very bytes it describes. */
  lemma RecordsOpenTheirBytes(naming: Naming, es: seq<Emission>)
    requires CollisionFree(naming, es)
    ensures var s := EmitAll(naming, Shelf(map[], []), es);
            && |s.records| == |es|
            && forall k :: 0 <= k < |es| ==>
                 && Describes(naming, s.records[k], es[k])
                 && s.records[k].id in s.contents && s.contents[s.records[k].id] == es[k].data
  {
    hide EmitAll;
    var shelf := Shelf(map[], []);
    EmittedRecords(naming, shelf, es);
    forall k | 0 <= k < |es|
      ensures var s := EmitAll(naming, shelf, es);
              IdOf(naming, es[k]) in s.contents && s.contents[IdOf(naming, es[k])] == es[k].data
    {
      EmittedContents(naming, shelf, es, IdOf(naming, es[k]));
    }
  }

  /** Moving one emission to the end leaves a permutation, and the bytes it carries under its id. */
  lemma LastWins(naming: Naming, s: Shelf, es: seq<Emission>, k: nat)
    requires k < |es|
    ensures var moved := es[..k] + es[k + 1..] + [es[k]];
            && multiset(moved) == multiset(es)
            && IdOf(naming, es[k]) in EmitAll(naming, s, moved).contents
            && EmitAll(naming, s, moved).contents[IdOf(naming, es[k])] == es[k].data
  {
    var rest := es[..k] + es[k + 1..];
    assert es == es[..k] + [es[k]] + es[k + 1..];
    assert (rest + [es[k]])[..|rest|] == rest;
  }

  /** Where an id names two byte strings, two orders of the same emissions keep different bytes. */
  lemma CollisionShows(naming: Naming, s: Shelf, es: seq<Emission>) returns (x: seq<Emission>, y: seq<Emission>)
    requires !CollisionFree(naming, es)
    ensures multiset(x) == multiset(es) && multiset(y) == multiset(es)
    ensures EmitAll(naming, s, x).contents != EmitAll(naming, s, y).contents
  {
    hide EmitAll;
    var i, j :| 0 <= i < |es| && 0 <= j < |es| && SameId(naming, es[i], es[j])
             && es[i].data != es[j].data;
    LastWins(naming, s, es, i);
    LastWins(naming, s, es, j);
    x, y := es[..i] + es[i + 1..] + [es[i]], es[..j] + es[j + 1..] + [es[j]];
  }

  /** The kept bytes are independent of the order of emission exactly when no id names two byte strings. */
  lemma OrderIsInvisibleIffCollisionFree(naming: Naming, s: Shelf, es: seq<Emission>)
    ensures CollisionFree(naming, es)
      <==> forall fs :: multiset(fs) == multiset(es) ==>
           EmitAll(naming, s, fs).contents == EmitAll(naming, s, es).contents
  {
    hide EmitAll, CollisionFree;
    if CollisionFree(naming, es) {
      forall fs | multiset(fs) == multiset(es)
        ensures EmitAll(naming, s, fs).contents == EmitAll(naming, s, es).contents
      {
        OrderIsInvisible(naming, s, es, fs);
      }
    } else {
      var x, y := CollisionShows(naming, s, es);
    }
  }
}
