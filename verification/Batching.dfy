/**
 _run_batch: a pool of workers shares one locked sink, each emitting its artifacts and then returning its record, in any
 interleaving. Collected by index and folded in selection order, a parallel batch is a sequential one.
 */
module Batching {
  import opened Outcomes
  import opened Enums
  import opened Domain
  import opened Environment
  import opened Budgets
  import opened Running
  import opened Artifacts

  /** A tool's whole effect: the artifacts it emits, in its own order, and the record it returns. */
  datatype Work = Work(emissions: Request -> seq<Emission>, run: Request -> Record)

  /** The pool half-way: how far each worker has got, and which have returned. */
  datatype Pool = Pool(shelf: Shelf, progress: seq<nat>, outcomes: seq<Option<Record>>)

  predicate Fits(batch: seq<Request>, p: Pool) {
    |p.progress| == |batch| && |p.outcomes| == |batch|
  }

  function Begin(batch: seq<Request>, s: Shelf): (p: Pool)
    ensures Fits(batch, p)
  {
    Pool(s, seq(|batch|, _ => 0), seq(|batch|, _ => None))
  }

  /** Worker w takes one step: it emits its next artifact, or, having emitted all, returns its record. */
  function Step(naming: Naming, work: Work, batch: seq<Request>, p: Pool, w: nat): (r: Pool)
    requires Fits(batch, p) && w < |batch|
    ensures Fits(batch, r)
  {
    var es := work.emissions(batch[w]);
    if p.progress[w] < |es| then
      p.(shelf := Emitted(naming, p.shelf, es[p.progress[w]]), progress := p.progress[w := p.progress[w] + 1])
    else
      p.(outcomes := p.outcomes[w := Some(work.run(batch[w]))])
  }

  predicate Scheduled(batch: seq<Request>, schedule: seq<nat>) {
    forall k :: 0 <= k < |schedule| ==> schedule[k] < |batch|
  }

  /** The pool after a schedule: the order in which the workers were let run. */
  function After(naming: Naming, work: Work, batch: seq<Request>, s: Shelf, schedule: seq<nat>): (p: Pool)
    requires Scheduled(batch, schedule)
    ensures Fits(batch, p)
  {
    if schedule == [] then Begin(batch, s)
    else Step(naming, work, batch, After(naming, work, batch, s, schedule[..|schedule| - 1]), schedule[|schedule| - 1])
  }

  /** Every worker has returned. */
  predicate Finished(p: Pool) {
    forall w :: 0 <= w < |p.outcomes| ==> p.outcomes[w].Some?
  }

  /** The workers' futures, collected by index. */
  function Collected(p: Pool): (r: seq<Record>)
    requires Finished(p)
    ensures |r| == |p.outcomes| && forall w :: 0 <= w < |r| ==> r[w] == p.outcomes[w].value
  {
    seq(|p.outcomes|, w requires 0 <= w < |p.outcomes| => p.outcomes[w].value)
  }

  /** The emissions of a batch run one experiment after another. */
  function InOrder(work: Work, batch: seq<Request>): seq<Emission> {
    if batch == [] then [] else InOrder(work, batch[..|batch| - 1]) + work.emissions(batch[|batch| - 1])
  }

  /** What worker w's next step emits. */
  function EmissionOf(work: Work, batch: seq<Request>, p: Pool, w: nat): seq<Emission>
    requires Fits(batch, p) && w < |batch|
  {
    var es := work.emissions(batch[w]);
    if p.progress[w] < |es| then [es[p.progress[w]]] else []
  }

  /** The emissions in the order this schedule lets them happen. */
  function Emissions(naming: Naming, work: Work, batch: seq<Request>, s: Shelf, schedule: seq<nat>): seq<Emission>
    requires Scheduled(batch, schedule)
  {
    if schedule == [] then []
    else
      var n := |schedule| - 1;
      Emissions(naming, work, batch, s, schedule[..n])
      + EmissionOf(work, batch, After(naming, work, batch, s, schedule[..n]), schedule[n])
  }

  /** What each worker has emitted so far, as one bag. */
  function EmittedBy(work: Work, batch: seq<Request>, progress: seq<nat>): multiset<Emission>
    requires |progress| == |batch|
    requires forall w :: 0 <= w < |batch| ==> progress[w] <= |work.emissions(batch[w])|
  {
    if batch == [] then multiset{}
    else
      var n := |batch| - 1;
      EmittedBy(work, batch[..n], progress[..n]) + multiset(work.emissions(batch[n])[..progress[n]])
  }

  /** Workers stay inside their own work, and a worker that has returned has emitted all of it. */
  predicate Sound(work: Work, batch: seq<Request>, p: Pool) {
    && Fits(batch, p)
    && forall w :: 0 <= w < |batch| ==>
         && p.progress[w] <= |work.emissions(batch[w])|
         && (p.outcomes[w].Some? ==>
              p.progress[w] == |work.emissions(batch[w])| && p.outcomes[w].value == work.run(batch[w]))
  }

  /** The shelf is what emitting the schedule's emissions one by one gives. */
  lemma {:induction false} ShelfIsEmissions(naming: Naming, work: Work, batch: seq<Request>, s: Shelf,
                                            schedule: seq<nat>)
    requires Scheduled(batch, schedule)
    ensures After(naming, work, batch, s, schedule).shelf
         == EmitAll(naming, s, Emissions(naming, work, batch, s, schedule))
  {
    if schedule != [] {
      var n := |schedule| - 1;
      ShelfIsEmissions(naming, work, batch, s, schedule[..n]);
      var p, w := After(naming, work, batch, s, schedule[..n]), schedule[n];
      var es, done := work.emissions(batch[w]), Emissions(naming, work, batch, s, schedule[..n]);
      if p.progress[w] < |es| {
        assert (done + [es[p.progress[w]]])[..|done|] == done;
      } else {
        assert done + [] == done;
      }
    }
  }

  lemma LongerByOne(es: seq<Emission>, k: nat)
    requires k < |es|
    ensures multiset(es[..k + 1]) == multiset(es[..k]) + multiset{es[k]}
  {
    assert es[..k + 1] == es[..k] + [es[k]];
  }

  /** One worker's step adds one emission to the bag. */
  lemma {:induction false} OneMoreEmitted(work: Work, batch: seq<Request>, progress: seq<nat>, w: nat)
    requires |progress| == |batch| && w < |batch|
    requires forall v :: 0 <= v < |batch| ==> progress[v] <= |work.emissions(batch[v])|
    requires progress[w] < |work.emissions(batch[w])|
    ensures EmittedBy(work, batch, progress[w := progress[w] + 1])
         == EmittedBy(work, batch, progress) + multiset{work.emissions(batch[w])[progress[w]]}
  {
    var n := |batch| - 1;
    var more := progress[w := progress[w] + 1];
    if w == n {
      assert more[..n] == progress[..n];
      LongerByOne(work.emissions(batch[n]), progress[n]);
    } else {
      assert more[n] == progress[n] && progress[..n][w] == progress[w] && batch[..n][w] == batch[w];
      assert more[..n] == progress[..n][w := progress[w] + 1];
      OneMoreEmitted(work, batch[..n], progress[..n], w);
    }
  }

  /** One step adds the same emission to the schedule's emissions and to the workers' bag. */
  lemma StepEmitsOne(naming: Naming, work: Work, batch: seq<Request>, p: Pool, w: nat)
    requires Sound(work, batch, p) && w < |batch|
    ensures Sound(work, batch, Step(naming, work, batch, p, w))
    ensures EmittedBy(work, batch, Step(naming, work, batch, p, w).progress)
         == EmittedBy(work, batch, p.progress) + multiset(EmissionOf(work, batch, p, w))
  {
    hide Emitted;
    if p.progress[w] < |work.emissions(batch[w])| {
      OneMoreEmitted(work, batch, p.progress, w);
    }
  }

  lemma {:induction false} EmissionsAreEmitted(naming: Naming, work: Work, batch: seq<Request>, s: Shelf,
                                               schedule: seq<nat>)
    requires Scheduled(batch, schedule)
    ensures Sound(work, batch, After(naming, work, batch, s, schedule))
    ensures multiset(Emissions(naming, work, batch, s, schedule))
         == EmittedBy(work, batch, After(naming, work, batch, s, schedule).progress)
  {
    hide Step, EmittedBy, EmissionOf;
    if schedule == [] {
      NothingEmitted(work, batch, Begin(batch, s).progress);
    } else {
      var n := |schedule| - 1;
      EmissionsAreEmitted(naming, work, batch, s, schedule[..n]);
      StepEmitsOne(naming, work, batch, After(naming, work, batch, s, schedule[..n]), schedule[n]);
    }
  }

  lemma {:induction false} NothingEmitted(work: Work, batch: seq<Request>, progress: seq<nat>)
    requires |progress| == |batch| && forall w :: 0 <= w < |batch| ==> progress[w] == 0
    ensures EmittedBy(work, batch, progress) == multiset{}
  {
    if batch != [] {
      NothingEmitted(work, batch[..|batch| - 1], progress[..|batch| - 1]);
    }
  }

  lemma {:induction false} EverythingEmitted(work: Work, batch: seq<Request>, progress: seq<nat>)
    requires |progress| == |batch| && forall w :: 0 <= w < |batch| ==> progress[w] == |work.emissions(batch[w])|
    ensures EmittedBy(work, batch, progress) == multiset(InOrder(work, batch))
  {
    if batch != [] {
      var n := |batch| - 1;
      EverythingEmitted(work, batch[..n], progress[..n]);
      var es := work.emissions(batch[n]);
      assert es[..progress[n]] == es;
    }
  }

  /**
   Whatever the interleaving, once every worker has returned: the outcomes in selection order are the tools' own
   records, and the shared sink holds the bytes and the bag of records that running the batch one by one would
   leave.
   */
  lemma ParallelIsSequential(naming: Naming, work: Work, batch: seq<Request>, s: Shelf, schedule: seq<nat>)
    requires Scheduled(batch, schedule) && Finished(After(naming, work, batch, s, schedule))
    ensures Collected(After(naming, work, batch, s, schedule)) == RunAll(work.run, batch)
    ensures multiset(After(naming, work, batch, s, schedule).shelf.records)
         == multiset(EmitAll(naming, s, InOrder(work, batch)).records)
    ensures CollisionFree(naming, InOrder(work, batch)) ==>
      After(naming, work, batch, s, schedule).shelf.contents == EmitAll(naming, s, InOrder(work, batch)).contents
  {
    var p, es, order := After(naming, work, batch, s, schedule), Emissions(naming, work, batch, s, schedule),
                        InOrder(work, batch);
    EmissionsAreEmitted(naming, work, batch, s, schedule);
    EverythingEmitted(work, batch, p.progress);
    ShelfIsEmissions(naming, work, batch, s, schedule);
    EmittedRecords(naming, s, es);
    EmittedRecords(naming, s, order);
    RecordsPermute(naming, es, order);
    if CollisionFree(naming, order) {
      OrderIsInvisible(naming, s, order, es);
    }
  }

  /** Folding a parallel batch in selection order gives the state that running and folding one by one gives. */
  lemma ParallelFoldsAlike(env: Env, seed: string, f: Fold, naming: Naming, emissions: Request -> seq<Emission>,
                           batch: seq<Request>, s: Shelf, schedule: seq<nat>)
    requires Scheduled(batch, schedule) && Finished(After(naming, Work(emissions, env.run), batch, s, schedule))
    ensures FoldFirst(env, seed, f, batch, Collected(After(naming, Work(emissions, env.run), batch, s, schedule)),
                      |batch|)
         == OneByOne(env, seed, f, batch, |batch|)
  {
    ParallelIsSequential(naming, Work(emissions, env.run), batch, s, schedule);
    FoldIsOneByOne(env, seed, f, batch, |batch|);
  }

  /** ExperimentExecutor.execute in a loop: each experiment run and folded before the next is run. */
  function OneByOne(env: Env, seed: string, f: Fold, batch: seq<Request>, n: nat): Outcome<Fold>
    requires n <= |batch|
  {
    if n == 0 then Ok(f)
    else
      var f1 :- OneByOne(env, seed, f, batch, n - 1);
      var rec := env.run(batch[n - 1]);
      var st :- FoldExperiment(env, seed, f1.state, batch[n - 1], rec);
      Ok(Fold(st, AfterExperiment(f1.tracker, batch[n - 1].tool, rec.status == FailedRun),
              f1.anySucceeded || rec.status != FailedRun))
  }

  lemma {:induction false} FoldIsOneByOne(env: Env, seed: string, f: Fold, batch: seq<Request>, n: nat)
    requires n <= |batch|
    ensures FoldFirst(env, seed, f, batch, RunAll(env.run, batch), n) == OneByOne(env, seed, f, batch, n)
  {
    hide FoldExperiment, AfterExperiment, RunAll;
    if n > 0 {
      var k := n - 1;
      FoldIsOneByOne(env, seed, f, batch, k);
      assert RunAll(env.run, batch)[k] == env.run(batch[k]);
    }
  }

  // The pool itself

  /** Running a pool over a locked sink under one schedule. */
  method RunPool(work: Work, batch: seq<Request>, sink: LockedArtifactSink, schedule: seq<nat>)
    returns (outcomes: seq<Option<Record>>)
    requires Scheduled(batch, schedule)
    modifies sink.inner
    ensures Pool(sink.inner.View(), After(sink.inner.naming, work, batch, old(sink.inner.View()), schedule).progress,
                 outcomes)
         == After(sink.inner.naming, work, batch, old(sink.inner.View()), schedule)
  {
    ghost var s := sink.inner.View();
    var progress: seq<nat> := seq(|batch|, _ => 0);
    outcomes := seq(|batch|, _ => None);
    var turn := 0;
    while turn < |schedule|
      invariant 0 <= turn <= |schedule| && |progress| == |batch| && |outcomes| == |batch|
      invariant Scheduled(batch, schedule[..turn])
      invariant Pool(sink.inner.View(), progress, outcomes)
             == After(sink.inner.naming, work, batch, s, schedule[..turn])
    {
      var w := schedule[turn];
      assert schedule[..turn + 1][..turn] == schedule[..turn];
      var es := work.emissions(batch[w]);
      if progress[w] < |es| {
        var _ := sink.Emit(es[progress[w]]);
        progress := progress[w := progress[w] + 1];
      } else {
        outcomes := outcomes[w := Some(work.run(batch[w]))];
      }
      turn := turn + 1;
    }
    assert schedule[..turn] == schedule;
  }

  /**
   _run_batch: one experiment takes the sequential path, a wider batch the pool; results come back in selection
   order.
   */
  method RunBatch(work: Work, batch: seq<Request>, sink: InMemoryArtifactSink, schedule: seq<nat>)
    returns (records: seq<Record>)
    requires Scheduled(batch, schedule)
    requires |batch| != 1 ==> Finished(After(sink.naming, work, batch, sink.View(), schedule))
    modifies sink
    ensures records == RunAll(work.run, batch)
    ensures multiset(sink.View().records)
         == multiset(EmitAll(sink.naming, old(sink.View()), InOrder(work, batch)).records)
    ensures CollisionFree(sink.naming, InOrder(work, batch)) ==>
      sink.View().contents == EmitAll(sink.naming, old(sink.View()), InOrder(work, batch)).contents
  {
    hide After, Finished, EmitAll, InOrder, CollisionFree;
    if |batch| == 1 {
      var rec := RunAlone(work, batch[0], sink);
      OneInOrder(work, batch);
      records := [rec];
    } else {
      records := RunTogether(work, batch, sink, schedule);
    }
  }

  lemma OneInOrder(work: Work, batch: seq<Request>)
    requires |batch| == 1
    ensures InOrder(work, batch) == work.emissions(batch[0])
  {
    assert InOrder(work, batch[..0]) == [];
  }

  /** The sequential path: the experiment emits straight into the shared sink. */
  method RunAlone(work: Work, request: Request, sink: InMemoryArtifactSink) returns (rec: Record)
    modifies sink
    ensures rec == work.run(request)
    ensures sink.View() == EmitAll(sink.naming, old(sink.View()), work.emissions(request))
  {
    hide Emitted;
    var es := work.emissions(request);
    for k := 0 to |es|
      invariant sink.View() == EmitAll(sink.naming, old(sink.View()), es[..k])
    {
      var _ := sink.Record(es[k]);
      assert es[..k + 1][..k] == es[..k];
    }
    assert es[..|es|] == es;
    rec := work.run(request);
  }

  /** The pool: every worker emits through the same lock, and the futures are read by index. */
  method RunTogether(work: Work, batch: seq<Request>, sink: InMemoryArtifactSink, schedule: seq<nat>)
    returns (records: seq<Record>)
    requires Scheduled(batch, schedule) && Finished(After(sink.naming, work, batch, sink.View(), schedule))
    modifies sink
    ensures records == RunAll(work.run, batch)
    ensures multiset(sink.View().records)
         == multiset(EmitAll(sink.naming, old(sink.View()), InOrder(work, batch)).records)
    ensures CollisionFree(sink.naming, InOrder(work, batch)) ==>
      sink.View().contents == EmitAll(sink.naming, old(sink.View()), InOrder(work, batch)).contents
  {
    hide After, EmitAll, InOrder, CollisionFree, RunAll;
    ParallelIsSequential(sink.naming, work, batch, sink.View(), schedule);
    var locked := new LockedArtifactSink(sink);
    var outcomes := RunPool(work, batch, locked, schedule);
    records := Gather(outcomes);
  }

  /** `future.result()`, worker by worker. */
  method Gather(outcomes: seq<Option<Record>>) returns (records: seq<Record>)
    requires forall w :: 0 <= w < |outcomes| ==> outcomes[w].Some?
    ensures |records| == |outcomes| && forall w :: 0 <= w < |outcomes| ==> records[w] == outcomes[w].value
  {
    records := [];
    for w := 0 to |outcomes|
      invariant |records| == w && forall v :: 0 <= v < w ==> records[v] == outcomes[v].value
    {
      records := records + [outcomes[w].value];
    }
  }
}
