/**
 The planner leaves no open claim out: a tool that is worth running for a group of claims has a candidate with the
 group's parameters, and the key it dedupes on decides those parameters. The selector fills its batch as far as it
 can.
 */
module Coverage {
  import opened Outcomes
  import opened Ids
  import opened Enums
  import opened Domain
  import opened Environment
  import opened Planning
  import opened PlanningProofs

  // A key stands for its parameters

  predicate MeasuresMetric(tool: string) {
    tool in {"summarize_distribution", "detect_outliers", "analyze_time_series_trend",
            "detect_change_points", "rank_entities"}
  }

  /**
   Two claims that resolve to the same metric get the same parameters from every tool: running it for both buys
   nothing.
   */
  lemma KeyDecidesParameters(tool: string, it: Interpretation, m: Manifest, c: Option<Claim>, d: Option<Claim>)
    ensures MetricFor(c, it, m) == MetricFor(d, it, m) ==> ParamsFor(tool, it, m, c) == ParamsFor(tool, it, m, d)
  {
  }

  /** The parameter that names the metric a tool measures. */
  function MetricColumn(tool: string): string {
    if tool == "summarize_distribution" || tool == "detect_outliers" then "column"
    else if tool == "rank_entities" then "metric_column"
    else "value_column"
  }

  predicate NamesMetric(parameters: map<string, string>, tool: string, metric: string) {
    MetricColumn(tool) in parameters && parameters[MetricColumn(tool)] == metric
  }

  /** A tool that measures a metric is told exactly the metric of its key, so different keys ask different questions. */
  lemma ParametersNameTheMetric(tool: string, it: Interpretation, m: Manifest, c: Option<Claim>)
    ensures MeasuresMetric(tool) && Truthy(MetricFor(c, it, m)) ==>
      NamesMetric(ParamsFor(tool, it, m, c), tool, MetricFor(c, it, m).value)
  {
    hide MetricFor;
  }

  // Completeness of the candidates

  /** A tool is worth proposing under a key, whatever other candidates there are. */
  predicate Worthwhile(s: Setting, tool: string, key: Key, c: Option<Claim>) {
    && (tool in s.uses ==> s.uses[tool] < s.maxUses) && 0 < s.maxUses
    && key !in s.done && s.registered(tool) && s.validates(tool, ParamsFor(tool, s.it, s.manifest, c))
  }

  /** Some candidate runs the key's tool with the parameters of a claim that resolves to the key's metric. */
  ghost predicate Proposed(s: Setting, d: Draft, key: Key) {
    exists k, c :: 0 <= k < |d.out| && d.out[k].tool == key.0 && MetricFor(c, s.it, s.manifest) == key.1
      && d.out[k].parameters == ParamsFor(key.0, s.it, s.manifest, c)
  }

  /** Covered keys are proposed. */
  ghost predicate Backed(s: Setting, d: Draft) {
    forall key :: key in d.seen ==> Proposed(s, d, key)
  }

  lemma StaysProposed(s: Setting, d: Draft, more: Request, seen: set<Key>, key: Key)
    requires Proposed(s, d, key)
    ensures Proposed(s, Draft(d.out + [more], seen), key)
  {
    var k, c :| 0 <= k < |d.out| && d.out[k].tool == key.0 && MetricFor(c, s.it, s.manifest) == key.1
                && d.out[k].parameters == ParamsFor(key.0, s.it, s.manifest, c);
    assert (d.out + [more])[k] == d.out[k];
  }

  lemma ExtendedIsBacked(s: Setting, d: Draft, more: Request, key: Key, c: Option<Claim>)
    requires Backed(s, d) && more.tool == key.0 && MetricFor(c, s.it, s.manifest) == key.1
    requires more.parameters == ParamsFor(key.0, s.it, s.manifest, c)
    ensures Backed(s, Draft(d.out + [more], d.seen + {key}))
  {
    hide MetricFor, ParamsFor;
    var r := Draft(d.out + [more], d.seen + {key});
    assert r.out[|d.out|] == more;
    forall other | other in r.seen ensures Proposed(s, r, other) {
      if other in d.seen {
        StaysProposed(s, d, more, r.seen, other);
      }
    }
  }

  /** A tool worth running for the group is covered. */
  predicate Covered(s: Setting, d: Draft, g: Group, tool: string)
    requires forall k :: 0 <= k < |g.members| ==> g.members[k] < |s.claims|
  {
    Worthwhile(s, tool, (tool, g.metric), Representative(s, g)) ==> (tool, g.metric) in d.seen
  }

  /** One tool considered: what is worthwhile is covered afterwards, and nothing loses its cover. */
  lemma ToolIsCovered(s: Setting, d: Draft, g: Group, tool: string, priority: nat)
    requires Backed(s, d) && forall k :: 0 <= k < |g.members| ==> g.members[k] < |s.claims|
    requires MetricFor(Representative(s, g), s.it, s.manifest) == g.metric
    ensures Backed(s, ConsiderTool(s, d, g, tool, priority)) && d.seen <= ConsiderTool(s, d, g, tool, priority).seen
    ensures Covered(s, ConsiderTool(s, d, g, tool, priority), g, tool)
  {
    hide MetricFor, ParamsFor, GroupTargets, Representative, Backed;
    if Admits(s, d, tool, (tool, g.metric), Representative(s, g)) {
      var r := ConsiderTool(s, d, g, tool, priority);
      ExtendedIsBacked(s, d, r.out[|d.out|], (tool, g.metric), Representative(s, g));
      assert r.out == d.out + [r.out[|d.out|]];
    }
  }

  lemma {:induction false} ToolsAreCovered(s: Setting, d: Draft, g: Group, tools: seq<string>, n: nat)
    requires n <= |tools| && Backed(s, d) && forall k :: 0 <= k < |g.members| ==> g.members[k] < |s.claims|
    requires MetricFor(Representative(s, g), s.it, s.manifest) == g.metric
    ensures Backed(s, ConsiderTools(s, d, g, tools, n)) && d.seen <= ConsiderTools(s, d, g, tools, n).seen
    ensures forall p :: 0 <= p < n ==> Covered(s, ConsiderTools(s, d, g, tools, n), g, tools[p])
  {
    hide MetricFor, Representative, Backed, Worthwhile, ConsiderTool;
    if n > 0 {
      ToolsAreCovered(s, d, g, tools, n - 1);
      ToolIsCovered(s, ConsiderTools(s, d, g, tools, n - 1), g, tools[n - 1], n - 1);
    }
  }

  /** Every group's metric is its representative's. */
  predicate Represented(s: Setting, groups: seq<Group>)
    requires GroupsFit(s, groups)
  {
    forall g :: 0 <= g < |groups| ==> MetricFor(Representative(s, groups[g]), s.it, s.manifest) == groups[g].metric
  }

  lemma {:induction false} GroupsAreCovered(s: Setting, d: Draft, groups: seq<Group>, tools: seq<string>, n: nat)
    requires GroupsFit(s, groups) && n <= |groups| && Backed(s, d) && Represented(s, groups)
    ensures Backed(s, ConsiderGroups(s, d, groups, tools, n)) && d.seen <= ConsiderGroups(s, d, groups, tools, n).seen
    ensures forall g, p :: 0 <= g < n && 0 <= p < |tools| ==>
      Covered(s, ConsiderGroups(s, d, groups, tools, n), groups[g], tools[p])
  {
    hide MetricFor, Representative, Backed, Worthwhile, ConsiderTools;
    if n > 0 {
      GroupsAreCovered(s, d, groups, tools, n - 1);
      ToolsAreCovered(s, ConsiderGroups(s, d, groups, tools, n - 1), groups[n - 1], tools, |tools|);
    }
  }

  lemma {:induction false} CritiquesAreBacked(s: Setting, critiques: seq<Critique>, n: nat)
    requires n <= |critiques|
    ensures Backed(s, ConsiderCritiques(s, critiques, n))
  {
    hide MetricFor, ParamsFor, Backed;
    if n == 0 {
      assert Backed(s, Draft([], {})) by { NothingToBack(s); }
    } else {
      CritiquesAreBacked(s, critiques, n - 1);
      var d, c := ConsiderCritiques(s, critiques, n - 1), critiques[n - 1];
      var r := ConsiderCritique(s, d, c);
      if r != d {
        var tool, challenged := c.suggestedAction.value, LookUp(s.claims, c.targetId);
        ExtendedIsBacked(s, d, r.out[|d.out|], (tool, MetricFor(challenged, s.it, s.manifest)), challenged);
        assert r.out == d.out + [r.out[|d.out|]];
      }
    }
  }

  /** A critique worth following up is covered. */
  predicate FollowedUp(s: Setting, d: Draft, c: Critique) {
    c.suggestedAction.Some? && c.suggestedAction.value != "" ==>
      var tool, challenged := c.suggestedAction.value, LookUp(s.claims, c.targetId);
      var key := (tool, MetricFor(challenged, s.it, s.manifest));
      Worthwhile(s, tool, key, challenged) ==> key in d.seen
  }

  lemma {:induction false} CritiquesAreFollowedUp(s: Setting, critiques: seq<Critique>, n: nat)
    requires n <= |critiques|
    ensures forall k :: 0 <= k < n ==> FollowedUp(s, ConsiderCritiques(s, critiques, n), critiques[k])
  {
    hide MetricFor, ParamsFor, LookUp;
    if n > 0 {
      CritiquesAreFollowedUp(s, critiques, n - 1);
      assert ConsiderCritiques(s, critiques, n - 1).seen <= ConsiderCritiques(s, critiques, n).seen;
    }
  }

  lemma NothingToBack(s: Setting)
    ensures Backed(s, Draft([], {}))
  {
  }

  lemma GroupsAreRepresented(s: Setting)
    requires GroupsFit(s, Groups(s.claims, s.it, s.manifest))
    ensures Represented(s, Groups(s.claims, s.it, s.manifest))
  {
    hide MetricFor, Measuring;
    var groups := Groups(s.claims, s.it, s.manifest);
    if OpenClaims(s.claims) == [] {
      NobodyMeasuresDefault(s.it, s.manifest);
    } else {
      GroupsPartitionOpenClaims(s.claims, s.it, s.manifest);
      forall g | 0 <= g < |groups|
        ensures MetricFor(Representative(s, groups[g]), s.it, s.manifest) == groups[g].metric
      {
        MeasuringMeasures(s.claims, s.it, s.manifest, OpenClaims(s.claims), groups[g].metric);
      }
    }
  }

  lemma NobodyMeasuresDefault(it: Interpretation, m: Manifest)
    ensures MetricFor(None, it, m) == DefaultMetric(it, m)
  {
  }

  predicate SomeRuns(requests: seq<Request>, tool: string, parameters: map<string, string>) {
    exists k :: 0 <= k < |requests| && requests[k].tool == tool && requests[k].parameters == parameters
  }

  /** The group's first member, whose metric the group shares. */
  function Spokesman(claims: seq<Claim>, g: Group): Option<Claim> {
    if g.members == [] || g.members[0] >= |claims| then None else Some(claims[g.members[0]])
  }

  /**
   Nothing worth running is left out: for every group and every tool of the intent that is unspent, registered,
   applicable and not already run on the group's metric, some candidate runs that tool with the group's own
   parameters.
   */
  lemma CandidatesAreComplete(env: Env, seed: string, st: State, it: Interpretation, uses: map<string, nat>,
                              group: Group, tool: string)
    requires group in Groups(st.claims, it, env.manifest) && tool in IntentTools(it.intent, env.manifest)
    requires Worthwhile(SettingOf(env, seed, st, it, uses), tool, (tool, group.metric), Spokesman(st.claims, group))
    ensures SomeRuns(Candidates(env, seed, st, it, uses), tool,
                     ParamsFor(tool, it, env.manifest, Spokesman(st.claims, group)))
    ensures MeasuresMetric(tool) && Truthy(group.metric) ==>
      NamesMetric(ParamsFor(tool, it, env.manifest, Spokesman(st.claims, group)), tool, group.metric.value)
  {
    hide Worthwhile, MetricFor, ParamsFor, Backed, ConsiderGroups, ConsiderCritiques, IntentTools, Groups, ExecutedKeys;
    var s, groups, tools := SettingOf(env, seed, st, it, uses), Groups(st.claims, it, env.manifest),
                            IntentTools(it.intent, env.manifest);
    var g: nat :| g < |groups| && groups[g] == group;
    var p: nat :| p < |tools| && tools[p] == tool;
    GroupsAreInRange(st.claims, it, env.manifest);
    var d0 := ConsiderCritiques(s, st.critiques, |st.critiques|);
    CritiquesAreBacked(s, st.critiques, |st.critiques|);
    GroupsAreRepresented(s);
    GroupsAreCovered(s, d0, groups, tools, |groups|);
    var d := ConsiderGroups(s, d0, groups, tools, |groups|);
    assert Covered(s, d, groups[g], tools[p]);
    var k := ProposedHasParameters(s, d, (tool, group.metric), Representative(s, group));
    assert d.out == Candidates(env, seed, st, it, uses);
    ParametersNameTheMetric(tool, it, env.manifest, Spokesman(st.claims, group));
  }

  /**
   Nor is a critique left out: if the tool it suggests is unspent, registered, applicable and not already run on the
   metric of the claim it is about, some candidate runs that tool with that claim's parameters.
   */
  lemma CritiquesHaveCandidates(env: Env, seed: string, st: State, it: Interpretation, uses: map<string, nat>, k: nat)
    requires k < |st.critiques| && Truthy(st.critiques[k].suggestedAction)
    requires var s, c := SettingOf(env, seed, st, it, uses), LookUp(st.claims, st.critiques[k].targetId);
             Worthwhile(s, st.critiques[k].suggestedAction.value,
                        (st.critiques[k].suggestedAction.value, MetricFor(c, it, env.manifest)), c)
    ensures var tool, c := st.critiques[k].suggestedAction.value, LookUp(st.claims, st.critiques[k].targetId);
            SomeRuns(Candidates(env, seed, st, it, uses), tool, ParamsFor(tool, it, env.manifest, c))
  {
    hide Worthwhile, MetricFor, ParamsFor, Backed, ConsiderGroups, ConsiderCritiques, IntentTools, Groups, ExecutedKeys,
         LookUp;
    var s, groups := SettingOf(env, seed, st, it, uses), Groups(st.claims, it, env.manifest);
    var tools := IntentTools(it.intent, env.manifest);
    var tool, c := st.critiques[k].suggestedAction.value, LookUp(st.claims, st.critiques[k].targetId);
    GroupsAreInRange(st.claims, it, env.manifest);
    var d0 := ConsiderCritiques(s, st.critiques, |st.critiques|);
    CritiquesAreBacked(s, st.critiques, |st.critiques|);
    CritiquesAreFollowedUp(s, st.critiques, |st.critiques|);
    assert FollowedUp(s, d0, st.critiques[k]);
    GroupsAreRepresented(s);
    GroupsAreCovered(s, d0, groups, tools, |groups|);
    var d := ConsiderGroups(s, d0, groups, tools, |groups|);
    var i := ProposedHasParameters(s, d, (tool, MetricFor(c, it, env.manifest)), c);
    assert d.out == Candidates(env, seed, st, it, uses);
  }

  lemma ProposedHasParameters(s: Setting, d: Draft, key: Key, c: Option<Claim>) returns (k: nat)
    requires Backed(s, d) && key in d.seen && MetricFor(c, s.it, s.manifest) == key.1
    ensures k < |d.out| && d.out[k].tool == key.0 && d.out[k].parameters == ParamsFor(key.0, s.it, s.manifest, c)
  {
    hide MetricFor, ParamsFor;
    assert Proposed(s, d, key);
    var i, other :| 0 <= i < |d.out| && d.out[i].tool == key.0 && MetricFor(other, s.it, s.manifest) == key.1
                    && d.out[i].parameters == ParamsFor(key.0, s.it, s.manifest, other);
    KeyDecidesParameters(key.0, s.it, s.manifest, c, other);
    k := i;
  }

  // A batch is as full as it can be

  /** The batch has reached its limit, or every candidate shares a tool with it or the lead's id. */
  predicate Full(candidates: seq<Request>, batch: seq<Request>, lead: Request, limit: int, n: nat)
    requires n <= |candidates|
  {
    |batch| >= limit || forall k :: 0 <= k < n ==> candidates[k].id == lead.id || candidates[k].tool in ToolsOf(batch)
  }

  lemma {:induction false} FilledIsFull(candidates: seq<Request>, lead: Request, limit: int, n: nat)
    requires n <= |candidates|
    ensures Full(candidates, FillFirst(candidates, lead, limit, n), lead, limit, n)
  {
    if n > 0 {
      FilledIsFull(candidates, lead, limit, n - 1);
      var prev, batch := FillFirst(candidates, lead, limit, n - 1), FillFirst(candidates, lead, limit, n);
      if batch != prev {
        MoreTools(prev, candidates[n - 1]);
      }
    }
  }

  lemma MoreTools(batch: seq<Request>, r: Request)
    ensures ToolsOf(batch + [r]) == ToolsOf(batch) + {r.tool}
  {
    var more := batch + [r];
    assert more[|batch|] == r && forall k :: 0 <= k < |batch| ==> more[k] == batch[k];
    assert r.tool in ToolsOf(more);
    forall k | 0 <= k < |batch| ensures batch[k].tool in ToolsOf(more) {
      assert more[k].tool in ToolsOf(more);
    }
  }

  /** A batch wider than one stops short of its limit only when no candidate of another tool is left. */
  lemma BatchIsFull(candidates: seq<Request>, index: int, limit: int)
    requires 0 <= index < |candidates| && limit > 1
    ensures Full(candidates, BatchFor(candidates, Some(index), limit), candidates[index], limit, |candidates|)
  {
    FilledIsFull(candidates, candidates[index], limit, |candidates|);
  }

  /**
   Where a batch comes from: the lead is the candidate the policy chose; the others follow in the order of the
   candidates, each the first of its tool.
   */
  predicate Followed(candidates: seq<Request>, batch: seq<Request>, lead: Request, places: seq<nat>) {
    && |batch| == |places| + 1 && batch[0] == lead
    && (forall j :: 0 <= j < |places| ==> places[j] < |candidates| && batch[j + 1] == candidates[places[j]]
                                          && candidates[places[j]].tool != lead.tool
                                          && FirstOfTool(candidates, lead, places[j]))
    && forall i, j :: 0 <= i < j < |places| ==> places[i] < places[j]
  }

  /** No candidate before it, but for the lead, has the tool. */
  predicate FirstOfTool(candidates: seq<Request>, lead: Request, place: nat)
    requires place < |candidates|
  {
    forall k :: 0 <= k < place && candidates[k].tool == candidates[place].tool ==> candidates[k].id == lead.id
  }

  lemma OneMoreFollows(candidates: seq<Request>, batch: seq<Request>, lead: Request, places: seq<nat>, limit: int,
                       n: nat)
    requires n < |candidates| && Followed(candidates[..n], batch, lead, places) && |batch| < limit
    requires Full(candidates, batch, lead, limit, n) && candidates[n].tool !in ToolsOf(batch)
    ensures Followed(candidates[..n + 1], batch + [candidates[n]], lead, places + [n])
  {
    var more := candidates[..n + 1];
    assert forall k :: 0 <= k < n ==> more[k] == candidates[..n][k];
    forall j | 0 <= j < |places|
      ensures FirstOfTool(more, lead, places[j])
    {
      assert FirstOfTool(candidates[..n], lead, places[j]);
    }
    assert batch[0].tool in ToolsOf(batch);
    assert FirstOfTool(more, lead, n);
  }

  lemma FollowersStay(candidates: seq<Request>, batch: seq<Request>, lead: Request, places: seq<nat>, n: nat)
    requires n < |candidates| && Followed(candidates[..n], batch, lead, places)
    ensures Followed(candidates[..n + 1], batch, lead, places)
  {
    var more := candidates[..n + 1];
    assert forall k :: 0 <= k < n ==> more[k] == candidates[..n][k];
    forall j | 0 <= j < |places|
      ensures FirstOfTool(more, lead, places[j])
    {
      assert FirstOfTool(candidates[..n], lead, places[j]);
    }
  }

  lemma {:induction false} FillFollows(candidates: seq<Request>, lead: Request, limit: int, n: nat)
    returns (places: seq<nat>)
    requires n <= |candidates|
    ensures Followed(candidates[..n], FillFirst(candidates, lead, limit, n), lead, places)
  {
    hide Followed, Full, ToolsOf;
    if n == 0 {
      places := [];
      LeadAlone(candidates, lead);
    } else {
      places := FillFollows(candidates, lead, limit, n - 1);
      var prev := FillFirst(candidates, lead, limit, n - 1);
      FilledIsFull(candidates, lead, limit, n - 1);
      if FillFirst(candidates, lead, limit, n) != prev {
        OneMoreFollows(candidates, prev, lead, places, limit, n - 1);
        places := places + [n - 1];
      } else {
        FollowersStay(candidates, prev, lead, places, n - 1);
      }
    }
  }

  lemma LeadAlone(candidates: seq<Request>, lead: Request)
    ensures Followed(candidates[..0], [lead], lead, [])
  {
  }

  /** The policy's index leads the batch; an index out of range selects nothing; the rest follows in order. */
  lemma BatchMeans(candidates: seq<Request>, index: Option<int>, limit: int) returns (places: seq<nat>)
    ensures BatchFor(candidates, index, limit) == [] <==> index.None? || index.value < 0 || |candidates| <= index.value
    ensures BatchFor(candidates, index, limit) != [] ==>
      Followed(candidates, BatchFor(candidates, index, limit), candidates[index.value], places)
    ensures limit <= 1 ==> |BatchFor(candidates, index, limit)| <= 1
  {
    places := [];
    assert candidates[..|candidates|] == candidates;
    if index.Some? && 0 <= index.value < |candidates| && limit > 1 {
      places := FillFollows(candidates, candidates[index.value], limit, |candidates|);
    }
  }

  /** Accepting a batch leaves its requests pending, in order, and one decision for each, naming it. */
  lemma {:induction false} AcceptMeans(seed: string, st: State, batch: seq<Request>, n: nat)
    requires n <= |batch|
    ensures var r := AcceptFirst(seed, st, batch, n);
            && r.(decisions := st.decisions, pending := st.pending) == st && r.pending == st.pending + batch[..n]
            && |r.decisions| == |st.decisions| + n && r.decisions[..|st.decisions|] == st.decisions
            && forall k :: 0 <= k < n ==> r.decisions[|st.decisions| + k].targets == [batch[k].id]
  {
    hide Make;
    if n > 0 {
      AcceptMeans(seed, st, batch, n - 1);
      assert batch[..n] == batch[..n - 1] + [batch[n - 1]];
    }
  }
}
