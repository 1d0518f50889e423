/**
 What every candidate experiment is: whom it names, which metric it is planned for, and the parameters its tool is
 given, told key by key from the goal's hints and the dataset's manifest.
 */
module Parameters {
  import opened Outcomes
  import opened Enums
  import opened Ids
  import opened Domain
  import opened Environment
  import opened Lifecycles
  import opened Planning
  import opened PlanningProofs

  // The metric

  /** A claim's own first metric; otherwise the goal's, if it names one; otherwise the dataset's first, if any. */
  predicate Measures(c: Option<Claim>, it: Interpretation, m: Manifest, metric: Option<string>) {
    if c.Some? && c.value.metricRefs != [] then metric == Some(c.value.metricRefs[0])
    else if it.metricHint.Some? && it.metricHint.value != "" then metric == it.metricHint
    else if m.metricNames != [] then metric == Some(m.metricNames[0])
    else metric == None
  }

  /** The column to group by: the goal's, if it names one; otherwise the dataset's first dimension, if there is one. */
  predicate GroupsBy(it: Interpretation, m: Manifest, group: Option<string>) {
    if it.groupHint.Some? && it.groupHint.value != "" then group == it.groupHint
    else if m.dimensions != [] then group == Some(m.dimensions[0])
    else group == None
  }

  // The parameters, key by key

  /** The key is there, with this value, exactly when the condition holds. */
  predicate Carries(p: map<string, string>, key: string, given: bool, value: string) {
    (key in p <==> given) && (given ==> p[key] == value)
  }

  /** A name that is there and not empty. */
  predicate Given(o: Option<string>) {
    o.Some? && o.value != ""
  }

  function Text(o: Option<string>): string {
    if o.Some? then o.value else ""
  }

  const KEYS := {"column", "value_column", "group_column", "metric_column", "entity_column", "ascending", "x_column",
                 "y_column", "column_a", "column_b"}

  /** What a tool is told about the metric, under the key that it knows the metric by. */
  predicate ToldMetric(tool: string, p: map<string, string>, metric: Option<string>, group: Option<string>) {
    && Carries(p, "column", tool in {"summarize_distribution", "detect_outliers"} && Given(metric), Text(metric))
    && Carries(p, "value_column",
               Given(metric) && (tool in {"analyze_time_series_trend", "detect_change_points"}
                                 || (tool == "compare_groups" && Given(group))), Text(metric))
    && Carries(p, "metric_column", tool == "rank_entities" && Given(metric), Text(metric))
  }

  /** What a tool is told about groups, entities and the end of the ranking the goal asks for. */
  predicate ToldOthers(tool: string, p: map<string, string>, it: Interpretation, m: Manifest, metric: Option<string>,
                       group: Option<string>) {
    && Carries(p, "group_column", tool == "compare_groups" && Given(metric) && Given(group), Text(group))
    && Carries(p, "entity_column", tool == "rank_entities" && Given(m.entityColumn), Text(m.entityColumn))
    && Carries(p, "ascending", tool == "rank_entities" && it.rankDown, "True")
  }

  /** What a tool of two columns is told: the dataset's first two metrics, or its first two dimensions. */
  predicate ToldPairs(tool: string, p: map<string, string>, m: Manifest) {
    var xy := tool == "fit_simple_regression" && |m.metricNames| >= 2;
    var ab := tool == "test_association" && |m.dimensions| >= 2;
    && Carries(p, "x_column", xy, if xy then m.metricNames[0] else "")
    && Carries(p, "y_column", xy, if xy then m.metricNames[1] else "")
    && Carries(p, "column_a", ab, if ab then m.dimensions[0] else "")
    && Carries(p, "column_b", ab, if ab then m.dimensions[1] else "")
  }

  /** All a tool is told for a claim. */
  ghost predicate Told(tool: string, p: map<string, string>, it: Interpretation, m: Manifest, c: Option<Claim>) {
    exists metric, group :: Measures(c, it, m, metric) && GroupsBy(it, m, group)
                            && ToldFor(tool, p, it, m, metric, group)
  }

  predicate ToldFor(tool: string, p: map<string, string>, it: Interpretation, m: Manifest, metric: Option<string>,
                    group: Option<string>) {
    && (forall key :: key in p ==> key in KEYS)
    && ToldMetric(tool, p, metric, group) && ToldOthers(tool, p, it, m, metric, group) && ToldPairs(tool, p, m)
  }

  lemma MetricMeasures(c: Option<Claim>, it: Interpretation, m: Manifest)
    ensures forall metric :: Measures(c, it, m, metric) <==> metric == MetricFor(c, it, m)
    ensures GroupsBy(it, m, OrElse(it.groupHint, First(m.dimensions)))
  {
  }

  lemma ParametersTellMetric(tool: string, it: Interpretation, m: Manifest, c: Option<Claim>)
    ensures ToldMetric(tool, ParamsFor(tool, it, m, c), MetricFor(c, it, m), OrElse(it.groupHint, First(m.dimensions)))
  {
    hide MetricFor, OrElse, First;
  }

  lemma ParametersTellOthers(tool: string, it: Interpretation, m: Manifest, c: Option<Claim>)
    ensures ToldOthers(tool, ParamsFor(tool, it, m, c), it, m, MetricFor(c, it, m),
                       OrElse(it.groupHint, First(m.dimensions)))
  {
    hide MetricFor, OrElse, First;
  }

  lemma ParametersTellPairs(tool: string, it: Interpretation, m: Manifest, c: Option<Claim>)
    ensures ToldPairs(tool, ParamsFor(tool, it, m, c), m)
  {
    hide MetricFor, OrElse, First;
  }

  lemma NoOtherKeys(tool: string, it: Interpretation, m: Manifest, c: Option<Claim>)
    ensures forall key :: key in ParamsFor(tool, it, m, c) ==> key in KEYS
  {
    hide MetricFor, OrElse, First;
  }

  lemma ParametersTell(tool: string, it: Interpretation, m: Manifest, c: Option<Claim>)
    ensures Told(tool, ParamsFor(tool, it, m, c), it, m, c)
  {
    hide MetricFor, Measures, GroupsBy, ParamsFor, OrElse, First, ToldMetric, ToldOthers, ToldPairs;
    MetricMeasures(c, it, m);
    ParametersTellMetric(tool, it, m, c);
    ParametersTellOthers(tool, it, m, c);
    ParametersTellPairs(tool, it, m, c);
    NoOtherKeys(tool, it, m, c);
    var metric, group, p := MetricFor(c, it, m), OrElse(it.groupHint, First(m.dimensions)), ParamsFor(tool, it, m, c);
    assert ToldFor(tool, p, it, m, metric, group);
  }

  // Candidates

  /** Where a candidate comes from: the critique at a position, or a group of claims and a tool of the intent. */
  datatype Origin = OfCritique(k: nat) | OfGroup(g: nat, p: nat)

  /** Critiques come first, in order; then the groups in order, and for each the tools in order. */
  predicate Before(a: Origin, b: Origin) {
    match (a, b)
    case (OfCritique(j), OfCritique(k)) => j < k
    case (OfCritique(_), OfGroup(_, _)) => true
    case (OfGroup(_, _), OfCritique(_)) => false
    case (OfGroup(g, p), OfGroup(h, q)) => g < h || (g == h && p < q)
  }

  /** A falsification candidate runs the tool a critique suggests, on the claim that the critique is about. */
  ghost predicate Falsifies(s: Setting, c: Critique, r: Request) {
    && c.suggestedAction == Some(r.tool) && r.tool != "" && r.falsification && r.gain == 0.95
    && r.targets == [c.targetId] && Told(r.tool, r.parameters, s.it, s.manifest, LookUp(s.claims, c.targetId))
  }

  /** The claims an experiment for a group names: its members, or, where nobody is open, the first claim if any. */
  predicate NamesGroup(s: Setting, g: Group, targets: seq<string>)
    requires forall k :: 0 <= k < |g.members| ==> g.members[k] < |s.claims|
  {
    if g.members != [] then
      |targets| == |g.members| && forall k :: 0 <= k < |targets| ==> targets[k] == s.claims[g.members[k]].id
    else if s.claims != [] && s.claims[0].id != "" then targets == [s.claims[0].id]
    else targets == []
  }

  /** A group's candidate runs a tool of the intent for the group's claims, worth less the later the tool comes. */
  ghost predicate Explores(s: Setting, g: Group, tool: string, p: nat, r: Request)
    requires forall k :: 0 <= k < |g.members| ==> g.members[k] < |s.claims|
  {
    && r.tool == tool && !r.falsification && r.gain == (if p <= 5 then 0.85 - 0.1 * p as real else 0.3)
    && NamesGroup(s, g, r.targets)
    && Told(tool, r.parameters, s.it, s.manifest, if g.members == [] then None else Some(s.claims[g.members[0]]))
  }

  ghost predicate ComesFrom(s: Setting, critiques: seq<Critique>, groups: seq<Group>, tools: seq<string>, r: Request,
                            o: Origin)
    requires GroupsFit(s, groups)
  {
    match o
    case OfCritique(k) => k < |critiques| && Falsifies(s, critiques[k], r)
    case OfGroup(g, p) => g < |groups| && p < |tools| && Explores(s, groups[g], tools[p], p, r)
  }

  /** Every candidate has an origin, candidates come in the order of their origins, and ids count up. */
  ghost predicate Derived(s: Setting, critiques: seq<Critique>, groups: seq<Group>, tools: seq<string>,
                          out: seq<Request>, origins: seq<Origin>)
    requires GroupsFit(s, groups)
  {
    && |origins| == |out|
    && (forall k :: 0 <= k < |out| ==>
          out[k].id == Make(s.seed, "exp", s.base + k) && out[k].status == PlannedRun
          && ComesFrom(s, critiques, groups, tools, out[k], origins[k]))
    && forall j, k :: 0 <= j < k < |out| ==> Before(origins[j], origins[k])
  }

  /** All origins so far come before a position. */
  predicate AllBefore(origins: seq<Origin>, o: Origin) {
    forall k :: 0 <= k < |origins| ==> Before(origins[k], o)
  }

  lemma OneMoreDerived(s: Setting, critiques: seq<Critique>, groups: seq<Group>, tools: seq<string>, out: seq<Request>,
                       origins: seq<Origin>, r: Request, o: Origin)
    requires GroupsFit(s, groups) && Derived(s, critiques, groups, tools, out, origins) && AllBefore(origins, o)
    requires r.id == Make(s.seed, "exp", s.base + |out|) && r.status == PlannedRun
    requires ComesFrom(s, critiques, groups, tools, r, o)
    ensures Derived(s, critiques, groups, tools, out + [r], origins + [o])
  {
    hide ComesFrom, Make;
  }

  lemma {:induction false} CritiquesDerive(s: Setting, critiques: seq<Critique>, groups: seq<Group>, tools: seq<string>,
                                           n: nat) returns (origins: seq<Origin>)
    requires n <= |critiques| && GroupsFit(s, groups)
    ensures Derived(s, critiques, groups, tools, ConsiderCritiques(s, critiques, n).out, origins)
    ensures AllBefore(origins, OfCritique(n))
  {
    hide Told, ParamsFor, MetricFor, Make, Admits, LookUp;
    origins := [];
    if n > 0 {
      origins := CritiquesDerive(s, critiques, groups, tools, n - 1);
      var d, c := ConsiderCritiques(s, critiques, n - 1), critiques[n - 1];
      var r := ConsiderCritique(s, d, c);
      if r != d {
        var tool, challenged := c.suggestedAction.value, LookUp(s.claims, c.targetId);
        ParametersTell(tool, s.it, s.manifest, challenged);
        OneMoreDerived(s, critiques, groups, tools, d.out, origins, r.out[|d.out|], OfCritique(n - 1));
        assert r.out == d.out + [r.out[|d.out|]];
        origins := origins + [OfCritique(n - 1)];
      }
    }
  }

  /** Whom the group's candidates name. */
  lemma TargetsNameGroup(s: Setting, g: Group)
    requires forall k :: 0 <= k < |g.members| ==> g.members[k] < |s.claims|
    requires g.members == [] ==> OpenClaims(s.claims) == []
    ensures NamesGroup(s, g, GroupTargets(s, g))
  {
  }

  lemma ToolExplores(s: Setting, d: Draft, g: Group, tool: string, p: nat)
    requires forall k :: 0 <= k < |g.members| ==> g.members[k] < |s.claims|
    requires g.members == [] ==> OpenClaims(s.claims) == []
    ensures var r := ConsiderTool(s, d, g, tool, p);
            r.out == d.out
            || (|r.out| == |d.out| + 1 && r.out == d.out + [r.out[|d.out|]] && Explores(s, g, tool, p, r.out[|d.out|])
                && r.out[|d.out|].id == Make(s.seed, "exp", s.base + |d.out|) && r.out[|d.out|].status == PlannedRun)
  {
    hide Told, ParamsFor, Make, Admits, GroupTargets;
    TargetsNameGroup(s, g);
    ParametersTell(tool, s.it, s.manifest, Representative(s, g));
  }

  lemma {:induction false} ToolsDerive(s: Setting, critiques: seq<Critique>, groups: seq<Group>, tools: seq<string>,
                                       d: Draft, before: seq<Origin>, g: nat, n: nat) returns (origins: seq<Origin>)
    requires GroupsFit(s, groups) && g < |groups| && n <= |tools|
    requires groups[g].members == [] ==> OpenClaims(s.claims) == []
    requires Derived(s, critiques, groups, tools, d.out, before) && AllBefore(before, OfGroup(g, 0))
    ensures Derived(s, critiques, groups, tools, ConsiderTools(s, d, groups[g], tools, n).out, origins)
    ensures AllBefore(origins, OfGroup(g, n))
  {
    hide Derived, Explores, ConsiderTool, Make;
    origins := before;
    if n > 0 {
      origins := ToolsDerive(s, critiques, groups, tools, d, before, g, n - 1);
      var d1 := ConsiderTools(s, d, groups[g], tools, n - 1);
      var r := ConsiderTool(s, d1, groups[g], tools[n - 1], n - 1);
      ToolExplores(s, d1, groups[g], tools[n - 1], n - 1);
      if r.out != d1.out {
        assert ComesFrom(s, critiques, groups, tools, r.out[|d1.out|], OfGroup(g, n - 1));
        OneMoreDerived(s, critiques, groups, tools, d1.out, origins, r.out[|d1.out|], OfGroup(g, n - 1));
        origins := origins + [OfGroup(g, n - 1)];
      }
    }
  }

  lemma {:induction false} GroupsDerive(s: Setting, critiques: seq<Critique>, groups: seq<Group>, tools: seq<string>,
                                        d: Draft, before: seq<Origin>, n: nat) returns (origins: seq<Origin>)
    requires GroupsFit(s, groups) && n <= |groups|
    requires forall g :: 0 <= g < |groups| && groups[g].members == [] ==> OpenClaims(s.claims) == []
    requires Derived(s, critiques, groups, tools, d.out, before) && AllBefore(before, OfCritique(|critiques|))
    ensures Derived(s, critiques, groups, tools, ConsiderGroups(s, d, groups, tools, n).out, origins)
    ensures AllBefore(origins, OfGroup(n, 0))
  {
    hide Derived, ConsiderTools;
    origins := before;
    if n > 0 {
      origins := GroupsDerive(s, critiques, groups, tools, d, before, n - 1);
      var d1 := ConsiderGroups(s, d, groups, tools, n - 1);
      origins := ToolsDerive(s, critiques, groups, tools, d1, origins, n - 1, |tools|);
    }
  }

  /**
   What the planner's candidates are: first one for each critique worth running, in order, then for each group of open
   claims one for each tool worth running, in order; with ids counted on from the experiments that there are.
   */
  lemma CandidatesDerive(env: Env, seed: string, st: State, it: Interpretation, uses: map<string, nat>)
    returns (origins: seq<Origin>)
    ensures var s, groups := SettingOf(env, seed, st, it, uses), Groups(st.claims, it, env.manifest);
            && s.base == |st.pending| + |st.completed| + |st.failed|
            && GroupsFit(s, groups)
            && Derived(s, st.critiques, groups, IntentTools(it.intent, env.manifest),
                       Candidates(env, seed, st, it, uses), origins)
  {
    hide Derived, ConsiderGroups, ConsiderCritiques, IntentTools, ExecutedKeys, Partitioned;
    var s, groups := SettingOf(env, seed, st, it, uses), Groups(st.claims, it, env.manifest);
    var tools := IntentTools(it.intent, env.manifest);
    GroupsAreInRange(st.claims, it, env.manifest);
    EmptyGroupsAreFallbacks(st.claims, it, env.manifest);
    origins := CritiquesDerive(s, st.critiques, groups, tools, |st.critiques|);
    origins := GroupsDerive(s, st.critiques, groups, tools, ConsiderCritiques(s, st.critiques, |st.critiques|), origins,
                            |groups|);
  }

  lemma EmptyGroupsAreFallbacks(claims: seq<Claim>, it: Interpretation, m: Manifest)
    ensures forall g :: 0 <= g < |Groups(claims, it, m)| && Groups(claims, it, m)[g].members == [] ==>
      OpenClaims(claims) == []
  {
    hide Measuring;
    if OpenClaims(claims) != [] {
      GroupsPartitionOpenClaims(claims, it, m);
    }
  }

  // The claim an experiment names when no group has one

  /** A claim that is not given up and either names no metric or names the goal's. */
  predicate Suits(c: Claim, metric: Option<string>) {
    c.status != Rejected && (c.metricRefs == [] || (metric.Some? && metric.value != "" && metric.value in c.metricRefs))
  }

  /** The first claim that suits, otherwise the first claim, if there is one. */
  lemma FallbackMeans(claims: seq<Claim>, metric: Option<string>) returns (k: nat)
    ensures FallbackTarget(claims, metric).None? <==> claims == []
    ensures claims != [] ==>
      && k < |claims| && FallbackTarget(claims, metric) == Some(claims[k].id)
      && (forall j :: 0 <= j < k ==> !Suits(claims[j], metric))
      && (Suits(claims[k], metric) || (k == 0 && forall j :: 0 <= j < |claims| ==> !Suits(claims[j], metric)))
  {
    hide Suits;
    var open := OpenClaims(claims);
    forall j | 0 <= j < |claims|
      ensures Suits(claims[j], metric) ==> j in open
    {
      SuitingIsOpen(claims[j], metric);
    }
    k := FallbackFound(claims, metric, open, 0);
  }

  lemma SuitingIsOpen(c: Claim, metric: Option<string>)
    ensures Suits(c, metric) ==> !IsTerminal(c.status)
    ensures !IsTerminal(c.status) ==>
      (Suits(c, metric) <==> c.metricRefs == [] || (Truthy(metric) && metric.value in c.metricRefs))
  {
    OnlyRejectedIsTerminal(c.status);
  }

  lemma {:induction false} FallbackFound(claims: seq<Claim>, metric: Option<string>, open: seq<nat>, from: nat)
    returns (k: nat)
    requires from <= |open| && forall i :: 0 <= i < |open| ==> open[i] < |claims| && !IsTerminal(claims[open[i]].status)
    requires forall i, j :: 0 <= i < j < |open| ==> open[i] < open[j]
    requires forall j :: 0 <= j < |claims| && Suits(claims[j], metric) ==> j in open[from..]
    decreases |open| - from
    ensures FallbackFrom(claims, metric, open, from).None? <==> claims == []
    ensures claims != [] ==>
      && k < |claims| && FallbackFrom(claims, metric, open, from) == Some(claims[k].id)
      && (forall j :: 0 <= j < k ==> !Suits(claims[j], metric))
      && (Suits(claims[k], metric) || (k == 0 && forall j :: 0 <= j < |claims| ==> !Suits(claims[j], metric)))
  {
    hide Suits;
    k := 0;
    if from < |open| {
      var c := claims[open[from]];
      SuitingIsOpen(c, metric);
      assert open[from..] == [open[from]] + open[from + 1..];
      if Suits(c, metric) {
        k := open[from];
      } else {
        k := FallbackFound(claims, metric, open, from + 1);
      }
    }
  }

  // The tools of an intent

  /** For which goals each general tool is a candidate, tool by tool. */
  lemma GeneralToolsMean(intent: Intent)
    ensures var tools := GeneralTools(intent);
            && ("profile_dataset" in tools <==> intent in {Distribution, Profile, General})
            && ("summarize_distribution" in tools <==> intent in {Trend, AnomalyHunt, Distribution, Profile, General})
            && ("detect_outliers" in tools <==> intent in {AnomalyHunt, Distribution})
            && ("compare_groups" in tools <==> intent in {Comparison, Ranking, Association})
            && ("rank_entities" in tools <==> intent in {Comparison, Ranking})
            && |tools| == if intent in {Trend, Distribution} then 3 else 2
  {
    ToolNamesDiffer();
  }

  /** The tools of a single kind of goal, and which of the shared ones comes first. */
  lemma SpecialToolsMean(intent: Intent)
    ensures var tools := GeneralTools(intent);
            && ("analyze_time_series_trend" in tools <==> intent == Trend)
            && ("detect_change_points" in tools <==> intent == Trend)
            && ("analyze_correlation" in tools <==> intent == Correlation)
            && ("fit_simple_regression" in tools <==> intent == Correlation)
            && ("test_association" in tools <==> intent == Association)
            && ("rank_entities" == tools[0] <==> intent == Ranking)
            && ("compare_groups" == tools[0] <==> intent == Comparison)
            && ("profile_dataset" == tools[0] <==> intent in {Profile, General})
  {
    ToolNamesDiffer();
  }

  lemma ToolNamesDiffer()
    ensures |"profile_dataset"| == 15 && |"summarize_distribution"| == 22 && |"detect_outliers"| == 15
    ensures |"compare_groups"| == 14 && |"rank_entities"| == 13 && |"analyze_time_series_trend"| == 25
    ensures |"detect_change_points"| == 20 && |"analyze_correlation"| == 19 && |"fit_simple_regression"| == 21
    ensures |"test_association"| == 16 && "profile_dataset"[0] == 'p' && "detect_outliers"[0] == 'd'
  {
  }

  /** On an EDGAR dataset the tools of filings come first, where the goal has any; the general ones always follow. */
  lemma IntentToolsMean(intent: Intent, m: Manifest)
    ensures var tools, n := IntentTools(intent, m), |GeneralTools(intent)|;
            && |tools| >= n && tools[|tools| - n..] == GeneralTools(intent)
            && |tools| - n == (if !m.isEdgar then 0 else if intent == AnomalyHunt then 2
                               else if intent in {Trend, Comparison} then 1 else 0)
            && (m.isEdgar && intent == Trend ==> tools[0] == "edgar_trend_break_analysis")
            && (m.isEdgar && intent == Comparison ==> tools[0] == "edgar_peer_comparison")
            && (m.isEdgar && intent == AnomalyHunt ==>
                  tools[0] == "edgar_revenue_growth_analysis" && tools[1] == "edgar_margin_quality_analysis")
  {
    hide GeneralTools, EdgarTools;
    EdgarToolsMean(intent);
    if m.isEdgar {
      var front, general := EdgarTools(intent), GeneralTools(intent);
      assert (front + general)[|front|..] == general;
    }
  }

  lemma EdgarToolsMean(intent: Intent)
    ensures var tools := EdgarTools(intent);
            && |tools| == (if intent == AnomalyHunt then 2 else if intent in {Trend, Comparison} then 1 else 0)
            && (intent == Trend ==> tools[0] == "edgar_trend_break_analysis")
            && (intent == Comparison ==> tools[0] == "edgar_peer_comparison")
            && (intent == AnomalyHunt ==>
                  tools[0] == "edgar_revenue_growth_analysis" && tools[1] == "edgar_margin_quality_analysis")
  {
  }
}
