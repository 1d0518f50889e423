/** What the planner's candidates and the selector's batch satisfy. */
module PlanningProofs {
  import opened Outcomes
  import opened Enums
  import opened Ids
  import opened Domain
  import opened Environment
  import opened Mutators
  import opened Budgets
  import opened Planning
  import opened Explanation
  import opened Trace

  // Grouping

  /** The open claims among these positions whose experiments would measure this metric, in order. */
  function Measuring(claims: seq<Claim>, it: Interpretation, m: Manifest, open: seq<nat>,
                     metric: Option<string>): seq<nat>
    requires forall k :: 0 <= k < |open| ==> open[k] < |claims|
  {
    if open == [] then []
    else
      var last := open[|open| - 1];
      Measuring(claims, it, m, open[..|open| - 1], metric)
      + if MetricFor(Some(claims[last]), it, m) == metric then [last] else []
  }

  /** Groups are the classes of the open claims under "measures the same metric". */
  predicate Partitioned(claims: seq<Claim>, it: Interpretation, m: Manifest, open: seq<nat>, groups: seq<Group>)
    requires forall k :: 0 <= k < |open| ==> open[k] < |claims|
  {
    && (forall g, h :: 0 <= g < h < |groups| ==> groups[g].metric != groups[h].metric)
    && (forall g :: 0 <= g < |groups| ==>
          groups[g].members != [] && groups[g].members == Measuring(claims, it, m, open, groups[g].metric))
    && (forall k :: 0 <= k < |open| ==>
          exists g :: 0 <= g < |groups| && groups[g].metric == MetricFor(Some(claims[open[k]]), it, m))
  }

  lemma MeasuringStep(claims: seq<Claim>, it: Interpretation, m: Manifest, open: seq<nat>, n: nat,
                      metric: Option<string>)
    requires 0 < n <= |open| && forall k :: 0 <= k < |open| ==> open[k] < |claims|
    ensures Measuring(claims, it, m, open[..n], metric)
         == Measuring(claims, it, m, open[..n - 1], metric)
            + if MetricFor(Some(claims[open[n - 1]]), it, m) == metric then [open[n - 1]] else []
  {
    assert open[..n][..n - 1] == open[..n - 1];
  }

  lemma {:induction false} NothingMeasures(claims: seq<Claim>, it: Interpretation, m: Manifest, open: seq<nat>,
                                           metric: Option<string>)
    requires forall k :: 0 <= k < |open| ==> open[k] < |claims| && MetricFor(Some(claims[open[k]]), it, m) != metric
    ensures Measuring(claims, it, m, open, metric) == []
  {
    if open != [] {
      NothingMeasures(claims, it, m, open[..|open| - 1], metric);
    }
  }

  lemma {:induction false} GroupFirstPartitions(claims: seq<Claim>, it: Interpretation, m: Manifest, open: seq<nat>,
                                                n: nat)
    requires n <= |open| && forall k :: 0 <= k < |open| ==> open[k] < |claims|
    ensures Partitioned(claims, it, m, open[..n], GroupFirst(claims, it, m, open, n))
  {
    hide MetricFor, Measuring, AddToGroup;
    if n > 0 {
      var k := n - 1;
      GroupFirstPartitions(claims, it, m, open, k);
      var groups := GroupFirst(claims, it, m, open, k);
      var metric := MetricFor(Some(claims[open[k]]), it, m);
      AddedGroupsDiffer(groups, metric, open[k]);
      AddedGroupsClassify(claims, it, m, open, n, groups);
      AddedGroupsCover(claims, it, m, open, n, groups);
    }
  }

  lemma AddedGroupsDiffer(groups: seq<Group>, metric: Option<string>, member: nat)
    requires forall g, h :: 0 <= g < h < |groups| ==> groups[g].metric != groups[h].metric
    ensures var r := AddToGroup(groups, metric, member); forall g, h :: 0 <= g < h < |r| ==> r[g].metric != r[h].metric
  {
    hide GroupIndex;
  }

  lemma AddedGroupsClassify(claims: seq<Claim>, it: Interpretation, m: Manifest, open: seq<nat>, n: nat,
                            groups: seq<Group>)
    requires 0 < n <= |open| && forall k :: 0 <= k < |open| ==> open[k] < |claims|
    requires Partitioned(claims, it, m, open[..n - 1], groups)
    ensures var r := AddToGroup(groups, MetricFor(Some(claims[open[n - 1]]), it, m), open[n - 1]);
      forall g :: 0 <= g < |r| ==>
        r[g].members != [] && r[g].members == Measuring(claims, it, m, open[..n], r[g].metric)
  {
    hide MetricFor, Measuring, GroupIndex;
    var k := n - 1;
    var metric := MetricFor(Some(claims[open[k]]), it, m);
    var r := AddToGroup(groups, metric, open[k]);
    forall g | 0 <= g < |r|
      ensures r[g].members != [] && r[g].members == Measuring(claims, it, m, open[..n], r[g].metric)
    {
      MeasuringStep(claims, it, m, open, n, r[g].metric);
      if g == |groups| {
        NothingMeasures(claims, it, m, open[..k], metric);
      }
    }
  }

  lemma AddedGroupsCover(claims: seq<Claim>, it: Interpretation, m: Manifest, open: seq<nat>, n: nat,
                         groups: seq<Group>)
    requires 0 < n <= |open| && forall k :: 0 <= k < |open| ==> open[k] < |claims|
    requires Partitioned(claims, it, m, open[..n - 1], groups)
    ensures var r := AddToGroup(groups, MetricFor(Some(claims[open[n - 1]]), it, m), open[n - 1]);
      forall k :: 0 <= k < n ==> exists g :: 0 <= g < |r| && r[g].metric == MetricFor(Some(claims[open[..n][k]]), it, m)
  {
    hide MetricFor, Measuring, GroupIndex;
    var last := n - 1;
    var metric := MetricFor(Some(claims[open[last]]), it, m);
    var r, at := AddToGroup(groups, metric, open[last]), GroupIndex(groups, metric);
    forall k | 0 <= k < n
      ensures exists g :: 0 <= g < |r| && r[g].metric == MetricFor(Some(claims[open[..n][k]]), it, m)
    {
      if k < last {
        var g :| 0 <= g < |groups| && groups[g].metric == MetricFor(Some(claims[open[..last][k]]), it, m);
        assert r[g].metric == groups[g].metric;
      } else {
        assert r[if at.Some? then at.value else |groups|].metric == metric;
      }
    }
  }

  /** The regular candidates' target lists partition the open claims by the metric they resolve to. */
  lemma GroupsPartitionOpenClaims(claims: seq<Claim>, it: Interpretation, m: Manifest)
    requires OpenClaims(claims) != []
    ensures Partitioned(claims, it, m, OpenClaims(claims), Groups(claims, it, m))
  {
    var open := OpenClaims(claims);
    GroupFirstPartitions(claims, it, m, open, |open|);
    assert open[..|open|] == open;
  }

  lemma {:induction false} MeasuringMeasures(claims: seq<Claim>, it: Interpretation, m: Manifest, open: seq<nat>,
                                             metric: Option<string>)
    requires forall k :: 0 <= k < |open| ==> open[k] < |claims|
    ensures forall k :: 0 <= k < |Measuring(claims, it, m, open, metric)| ==>
      Measuring(claims, it, m, open, metric)[k] < |claims|
      && MetricFor(Some(claims[Measuring(claims, it, m, open, metric)[k]]), it, m) == metric
  {
    if open != [] {
      MeasuringMeasures(claims, it, m, open[..|open| - 1], metric);
    }
  }

  // Candidates

  /** The parameters are what the planner gives the tool for some claim, or for none. */
  ghost predicate Parametrized(r: Request, it: Interpretation, m: Manifest) {
    exists c: Option<Claim> :: r.parameters == ParamsFor(r.tool, it, m, c)
  }

  /** Ids by position, tools that are registered and not spent, and the parameters the planner gives them. */
  ghost predicate DraftWell(s: Setting, d: Draft) {
    forall k :: 0 <= k < |d.out| ==>
      && d.out[k].id == Make(s.seed, "exp", s.base + k)
      && d.out[k].status == PlannedRun
      && UsesOf(s.uses, d.out[k].tool) < s.maxUses && s.registered(d.out[k].tool)
      && s.validates(d.out[k].tool, d.out[k].parameters)
      && Parametrized(d.out[k], s.it, s.manifest)
  }

  /** The key each candidate will be remembered by. */
  function RememberedKey(s: Setting, r: Request): Key {
    ResolvedKey(s.claims, s.it, s.manifest, r)
  }

  /** No candidate repeats a key that has been executed or that another candidate covers. */
  predicate DraftFresh(s: Setting, d: Draft) {
    && (forall k :: 0 <= k < |d.out| ==> RememberedKey(s, d.out[k]) in d.seen && RememberedKey(s, d.out[k]) !in s.done)
    && (forall j, k :: 0 <= j < k < |d.out| ==> RememberedKey(s, d.out[j]) != RememberedKey(s, d.out[k]))
  }

  /** A group's experiments are remembered under the group's metric. */
  predicate Faithful(s: Setting, g: Group) {
    && (forall k :: 0 <= k < |g.members| ==> g.members[k] < |s.claims|)
    && MetricFor(if GroupTargets(s, g) == [] then None else LookUp(s.claims, GroupTargets(s, g)[0]), s.it, s.manifest)
       == g.metric
  }

  lemma CritiqueKeepsDraft(s: Setting, d: Draft, c: Critique)
    requires DraftWell(s, d) && DraftFresh(s, d)
    ensures DraftWell(s, ConsiderCritique(s, d, c)) && DraftFresh(s, ConsiderCritique(s, d, c))
  {
    hide ParamsFor, Make, MetricFor;
  }

  lemma ToolKeepsDraft(s: Setting, d: Draft, g: Group, tool: string, priority: nat)
    requires DraftWell(s, d) && DraftFresh(s, d) && Faithful(s, g)
    ensures DraftWell(s, ConsiderTool(s, d, g, tool, priority)) && DraftFresh(s, ConsiderTool(s, d, g, tool, priority))
  {
    hide ParamsFor, GroupTargets, Representative, Make, MetricFor, Max;
  }

  lemma ToolKeepsWell(s: Setting, d: Draft, g: Group, tool: string, priority: nat)
    requires DraftWell(s, d) && forall k :: 0 <= k < |g.members| ==> g.members[k] < |s.claims|
    ensures DraftWell(s, ConsiderTool(s, d, g, tool, priority))
  {
  }

  lemma {:induction false} CritiquesKeepDraft(s: Setting, critiques: seq<Critique>, n: nat)
    requires n <= |critiques|
    ensures DraftWell(s, ConsiderCritiques(s, critiques, n)) && DraftFresh(s, ConsiderCritiques(s, critiques, n))
  {
    if n > 0 {
      CritiquesKeepDraft(s, critiques, n - 1);
      CritiqueKeepsDraft(s, ConsiderCritiques(s, critiques, n - 1), critiques[n - 1]);
    }
  }

  lemma {:induction false} ToolsKeepDraft(s: Setting, d: Draft, g: Group, tools: seq<string>, n: nat)
    requires DraftWell(s, d) && n <= |tools| && forall k :: 0 <= k < |g.members| ==> g.members[k] < |s.claims|
    ensures DraftWell(s, ConsiderTools(s, d, g, tools, n))
    ensures DraftFresh(s, d) && Faithful(s, g) ==> DraftFresh(s, ConsiderTools(s, d, g, tools, n))
  {
    hide ConsiderTool, DraftWell, DraftFresh, Faithful;
    if n > 0 {
      ToolsKeepDraft(s, d, g, tools, n - 1);
      var d1 := ConsiderTools(s, d, g, tools, n - 1);
      ToolKeepsWell(s, d1, g, tools[n - 1], n - 1);
      if DraftFresh(s, d) && Faithful(s, g) {
        ToolKeepsDraft(s, d1, g, tools[n - 1], n - 1);
      }
    }
  }

  lemma {:induction false} GroupsKeepDraft(s: Setting, d: Draft, groups: seq<Group>, tools: seq<string>, n: nat)
    requires GroupsFit(s, groups) && n <= |groups| && DraftWell(s, d)
    ensures DraftWell(s, ConsiderGroups(s, d, groups, tools, n))
    ensures DraftFresh(s, d) && (forall g :: 0 <= g < n ==> Faithful(s, groups[g])) ==>
      DraftFresh(s, ConsiderGroups(s, d, groups, tools, n))
  {
    hide ConsiderTools, DraftWell, DraftFresh, Faithful;
    if n > 0 {
      GroupsKeepDraft(s, d, groups, tools, n - 1);
      ToolsKeepDraft(s, ConsiderGroups(s, d, groups, tools, n - 1), groups[n - 1], tools, |tools|);
    }
  }

  /** Some claim is still open, or the run has no claims at all. */
  predicate WorkRemains(claims: seq<Claim>) {
    OpenClaims(claims) != [] || claims == []
  }

  /**
   Experiments are remembered under the metric they are planned for: while work remains, and with every claim
   rejected where the first claim, which the fallback names, resolves to the default metric (or has an empty id, and
   nobody is named).
   */
  predicate PlansAreKept(claims: seq<Claim>, it: Interpretation, m: Manifest) {
    || WorkRemains(claims)
    || claims[0].id == ""
    || MetricFor(Some(claims[0]), it, m) == DefaultMetric(it, m)
  }

  /** That condition is exact. */
  lemma GroupsAreFaithful(s: Setting)
    requires DistinctIds(s.claims)
    ensures PlansAreKept(s.claims, s.it, s.manifest)
       <==> forall g :: 0 <= g < |Groups(s.claims, s.it, s.manifest)| ==>
            Faithful(s, Groups(s.claims, s.it, s.manifest)[g])
  {
    hide Faithful, Partitioned, GroupFirst;
    if OpenClaims(s.claims) == [] {
      FallbackFaithfulIff(s);
      assert Groups(s.claims, s.it, s.manifest)[0] == Group(DefaultMetric(s.it, s.manifest), []);
    } else {
      GroupsPartitionOpenClaims(s.claims, s.it, s.manifest);
      var groups := Groups(s.claims, s.it, s.manifest);
      forall g | 0 <= g < |groups| ensures Faithful(s, groups[g]) {
        ClassIsFaithful(s, groups, g);
      }
    }
  }

  /** With no open claim the one group is the fallback's. */
  lemma FallbackFaithfulIff(s: Setting)
    requires DistinctIds(s.claims) && OpenClaims(s.claims) == []
    ensures Faithful(s, Group(DefaultMetric(s.it, s.manifest), [])) <==> PlansAreKept(s.claims, s.it, s.manifest)
  {
    if s.claims != [] {
      assert FindClaim(s.claims, s.claims[0].id) == Some(0);
    }
  }

  /** A class of the partition names its first member first, and measures that member's metric. */
  lemma ClassIsFaithful(s: Setting, groups: seq<Group>, g: nat)
    requires DistinctIds(s.claims) && g < |groups|
    requires Partitioned(s.claims, s.it, s.manifest, OpenClaims(s.claims), groups)
    ensures Faithful(s, groups[g])
  {
    hide MetricFor, Measuring;
    MeasuringMeasures(s.claims, s.it, s.manifest, OpenClaims(s.claims), groups[g].metric);
    var first := groups[g].members[0];
    assert GroupTargets(s, groups[g])[0] == s.claims[first].id;
    var found := FindClaim(s.claims, s.claims[first].id);
    assert found == Some(first);
  }

  /** The planner's list: well-formed always, and free of repeated work wherever plans are kept. */
  lemma CandidatesAreSound(env: Env, seed: string, st: State, it: Interpretation, uses: map<string, nat>)
    requires DistinctIds(st.claims)
    ensures var s := SettingOf(env, seed, st, it, uses);
            var d := Draft(Candidates(env, seed, st, it, uses), {});
            && DraftWell(s, d)
            && (PlansAreKept(st.claims, it, env.manifest) ==>
                  && (forall k :: 0 <= k < |d.out| ==> RememberedKey(s, d.out[k]) !in s.done)
                  && (forall j, k :: 0 <= j < k < |d.out| ==> RememberedKey(s, d.out[j]) != RememberedKey(s, d.out[k])))
  {
    var s := SettingOf(env, seed, st, it, uses);
    var groups, tools := Groups(st.claims, it, env.manifest), IntentTools(it.intent, env.manifest);
    GroupsAreInRange(st.claims, it, env.manifest);
    CritiquesKeepDraft(s, st.critiques, |st.critiques|);
    GroupsKeepDraft(s, ConsiderCritiques(s, st.critiques, |st.critiques|), groups, tools, |groups|);
    GroupsAreFaithful(s);
  }

  // Selection

  /** Candidates drawn from a list, with pairwise distinct ids and tools. */
  predicate DrawnFrom(batch: seq<Request>, candidates: seq<Request>) {
    && (forall k :: 0 <= k < |batch| ==> batch[k] in candidates)
    && (forall j, k :: 0 <= j < k < |batch| ==>
          batch[j].id != batch[k].id && batch[j].tool != batch[k].tool && batch[j] != batch[k])
  }

  predicate DistinctRequestIds(rs: seq<Request>) {
    forall j, k :: 0 <= j < k < |rs| ==> rs[j].id != rs[k].id
  }

  /** One of the first n candidates. */
  predicate AmongFirst(candidates: seq<Request>, n: nat, r: Request)
    requires n <= |candidates|
  {
    exists i :: 0 <= i < n && candidates[i] == r
  }

  /** The followers of a batch are candidates seen so far, and none has the lead's id. */
  predicate Follows(batch: seq<Request>, candidates: seq<Request>, lead: Request, n: nat)
    requires n <= |candidates|
  {
    batch != [] && batch[0] == lead
    && forall k :: 1 <= k < |batch| ==> batch[k].id != lead.id && AmongFirst(candidates, n, batch[k])
  }

  lemma {:induction false} FillFirstDraws(candidates: seq<Request>, lead: Request, limit: int, n: nat)
    requires n <= |candidates| && lead in candidates && DistinctRequestIds(candidates) && 1 <= limit
    ensures DrawnFrom(FillFirst(candidates, lead, limit, n), candidates)
    ensures |FillFirst(candidates, lead, limit, n)| <= limit
    ensures Follows(FillFirst(candidates, lead, limit, n), candidates, lead, n)
  {
    hide DrawnFrom, Follows, DistinctRequestIds;
    if n == 0 {
      LeadIsDrawn(candidates, lead);
    } else {
      var k := n - 1;
      FillFirstDraws(candidates, lead, limit, k);
      var prev, c := FillFirst(candidates, lead, limit, k), candidates[k];
      if |prev| < limit && c.id != lead.id && c.tool !in ToolsOf(prev) {
        FollowerIsDrawn(candidates, lead, prev, k);
      } else {
        FollowsFurther(candidates, lead, prev, k);
      }
    }
  }

  lemma LeadIsDrawn(candidates: seq<Request>, lead: Request)
    requires lead in candidates
    ensures DrawnFrom([lead], candidates) && Follows([lead], candidates, lead, 0)
  {
  }

  lemma FollowsFurther(candidates: seq<Request>, lead: Request, prev: seq<Request>, n: nat)
    requires n < |candidates| && Follows(prev, candidates, lead, n)
    ensures Follows(prev, candidates, lead, n + 1)
  {
    forall k | 1 <= k < |prev| ensures AmongFirst(candidates, n + 1, prev[k]) {
      assert AmongFirst(candidates, n, prev[k]);
    }
  }

  lemma FollowerIsDrawn(candidates: seq<Request>, lead: Request, prev: seq<Request>, n: nat)
    requires n < |candidates| && DistinctRequestIds(candidates)
    requires DrawnFrom(prev, candidates) && Follows(prev, candidates, lead, n)
    requires candidates[n].id != lead.id && candidates[n].tool !in ToolsOf(prev)
    ensures DrawnFrom(prev + [candidates[n]], candidates) && Follows(prev + [candidates[n]], candidates, lead, n + 1)
  {
    var c := candidates[n];
    FollowsFurther(candidates, lead, prev, n);
    forall j | 0 <= j < |prev|
      ensures prev[j].id != c.id && prev[j].tool != c.tool
    {
      assert prev[j].tool in ToolsOf(prev);
      if j > 0 {
        var i :| 0 <= i < n && candidates[i] == prev[j];
        assert candidates[i].id != candidates[n].id;
      }
    }
  }

  lemma BatchIsDrawn(candidates: seq<Request>, index: Option<int>, limit: int)
    requires DistinctRequestIds(candidates) && 1 <= limit
    ensures DrawnFrom(BatchFor(candidates, index, limit), candidates)
    ensures |BatchFor(candidates, index, limit)| <= limit
  {
    if index.Some? && 0 <= index.value < |candidates| && limit > 1 {
      FillFirstDraws(candidates, candidates[index.value], limit, |candidates|);
    }
  }

  /** Ids counted up from one base are distinct. */
  lemma CandidatesHaveDistinctIds(s: Setting, d: Draft)
    requires DraftWell(s, d)
    ensures DistinctRequestIds(d.out)
  {
    forall j, k | 0 <= j < k < |d.out|
      ensures d.out[j].id != d.out[k].id
    {
      if d.out[j].id == d.out[k].id {
        MakeInjective(s.seed, "exp", s.base + j, "exp", s.base + k);
      }
    }
  }

  lemma RequestMints(seed: string, st: State, r: Request)
    requires LogsMinted(seed, st)
    ensures LogsMinted(seed, AddRequest(st, r))
  {
  }

  lemma {:induction false} AcceptFirstKeeps(seed: string, st: State, batch: seq<Request>, n: nat)
    requires n <= |batch| && LogsMinted(seed, st)
    ensures var r := AcceptFirst(seed, st, batch, n);
            r.(decisions := st.decisions, pending := st.pending) == st
            && r.pending == st.pending + batch[..n] && LogsMinted(seed, r)
  {
    hide Make, LogsMinted;
    if n > 0 {
      AcceptFirstKeeps(seed, st, batch, n - 1);
      var r := AcceptFirst(seed, st, batch, n - 1);
      assert batch[..n] == batch[..n - 1] + [batch[n - 1]];
      RequestMints(seed, r, batch[n - 1]);
      LogDecisionMints(seed, AddRequest(r, batch[n - 1]), "dec-sel", [batch[n - 1].id]);
    }
  }
}
