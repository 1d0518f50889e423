/** InvestigationPlanner and ExperimentSelector: the candidate experiments and the batch taken from them. */
module Planning {
  import opened Outcomes
  import opened Enums
  import opened Ids
  import opened Domain
  import opened Environment
  import opened Mutators
  import opened Budgets

  /** What the planner dedupes on: a tool and the metric it would measure. */
  type Key = (string, Option<string>)

  function First(names: seq<string>): Option<string> {
    if names == [] then None else Some(names[0])
  }

  /** The metric of the whole investigation, where no claim names its own. */
  function DefaultMetric(it: Interpretation, m: Manifest): Option<string> {
    OrElse(it.metricHint, First(m.metricNames))
  }

  /** _metric_for */
  function MetricFor(c: Option<Claim>, it: Interpretation, m: Manifest): Option<string> {
    if c.Some? && c.value.metricRefs != [] then Some(c.value.metricRefs[0]) else DefaultMetric(it, m)
  }

  /** _params_for */
  function ParamsFor(tool: string, it: Interpretation, m: Manifest, c: Option<Claim>): map<string, string> {
    var metric := MetricFor(c, it, m);
    var group := OrElse(it.groupHint, First(m.dimensions));
    if tool == "summarize_distribution" || tool == "detect_outliers" then
      if Truthy(metric) then map["column" := metric.value] else map[]
    else if tool == "analyze_time_series_trend" || tool == "detect_change_points" then
      if Truthy(metric) then map["value_column" := metric.value] else map[]
    else if tool == "compare_groups" then
      if Truthy(metric) && Truthy(group)
      then map["value_column" := metric.value, "group_column" := group.value] else map[]
    else if tool == "rank_entities" then
      (if Truthy(metric) then map["metric_column" := metric.value] else map[])
      + (if Truthy(m.entityColumn) then map["entity_column" := m.entityColumn.value] else map[])
      + (if it.rankDown then map["ascending" := "True"] else map[])
    else if tool == "fit_simple_regression" then
      if |m.metricNames| >= 2 then map["x_column" := m.metricNames[0], "y_column" := m.metricNames[1]] else map[]
    else if tool == "test_association" then
      if |m.dimensions| >= 2 then map["column_a" := m.dimensions[0], "column_b" := m.dimensions[1]] else map[]
    else map[]
  }

  /** A request's key, resolved as _executed_pairs resolves it: by the first claim the request names. */
  function ResolvedKey(claims: seq<Claim>, it: Interpretation, m: Manifest, r: Request): Key {
    (r.tool, MetricFor(if r.targets == [] then None else LookUp(claims, r.targets[0]), it, m))
  }

  /** _executed_pairs */
  function ExecutedKeys(claims: seq<Claim>, it: Interpretation, m: Manifest, executed: seq<Request>): set<Key> {
    set k | 0 <= k < |executed| :: ResolvedKey(claims, it, m, executed[k])
  }

  /** _target_hypothesis: whom an experiment names when no open claim remains. */
  function FallbackTarget(claims: seq<Claim>, metric: Option<string>): Option<string> {
    FallbackFrom(claims, metric, OpenClaims(claims), 0)
  }

  function FallbackFrom(claims: seq<Claim>, metric: Option<string>, open: seq<nat>, from: nat): Option<string>
    requires from <= |open| && forall k :: 0 <= k < |open| ==> open[k] < |claims|
    decreases |open| - from
  {
    if from == |open| then if claims == [] then None else Some(claims[0].id)
    else
      var c := claims[open[from]];
      if c.metricRefs == [] || (Truthy(metric) && metric.value in c.metricRefs) then Some(c.id)
      else FallbackFrom(claims, metric, open, from + 1)
  }

  /** Open claims that share a resolved metric, in the order the metric was first met. */
  datatype Group = Group(metric: Option<string>, members: seq<nat>)

  function GroupIndex(groups: seq<Group>, metric: Option<string>): (r: Option<nat>)
    ensures r.Some? ==> r.value < |groups| && groups[r.value].metric == metric
    ensures r.None? ==> forall g :: 0 <= g < |groups| ==> groups[g].metric != metric
  {
    if groups == [] then None
    else if groups[|groups| - 1].metric == metric then Some(|groups| - 1)
    else GroupIndex(groups[..|groups| - 1], metric)
  }

  /** `grouped.setdefault(metric, []).append(claim)` */
  function AddToGroup(groups: seq<Group>, metric: Option<string>, member: nat): seq<Group> {
    match GroupIndex(groups, metric)
    case None => groups + [Group(metric, [member])]
    case Some(g) => groups[g := Group(metric, groups[g].members + [member])]
  }

  function GroupFirst(claims: seq<Claim>, it: Interpretation, m: Manifest, open: seq<nat>, n: nat): seq<Group>
    requires n <= |open| && forall k :: 0 <= k < |open| ==> open[k] < |claims|
  {
    if n == 0 then []
    else AddToGroup(GroupFirst(claims, it, m, open, n - 1), MetricFor(Some(claims[open[n - 1]]), it, m), open[n - 1])
  }

  /** The groups the regular candidates are drawn for; with no open claim, one group of nobody on the default metric. */
  function Groups(claims: seq<Claim>, it: Interpretation, m: Manifest): seq<Group> {
    var open := OpenClaims(claims);
    if open == [] then [Group(DefaultMetric(it, m), [])] else GroupFirst(claims, it, m, open, |open|)
  }

  /** What does not change while one list of candidates is drawn up. */
  datatype Setting = Setting(
    seed: string,
    claims: seq<Claim>,
    it: Interpretation,
    manifest: Manifest,
    registered: string -> bool,
    validates: (string, map<string, string>) -> bool,
    uses: map<string, nat>,
    maxUses: nat,
    done: set<Key>,
    base: nat)

  /** The candidates so far, and the keys they cover. */
  datatype Draft = Draft(out: seq<Request>, seen: set<Key>)

  /** A tool is worth proposing under a key when it is neither spent, nor covered, nor unknown, nor inapplicable. */
  predicate Admits(s: Setting, d: Draft, tool: string, key: Key, c: Option<Claim>) {
    && UsesOf(s.uses, tool) < s.maxUses
    && key !in s.done && key !in d.seen
    && s.registered(tool)
    && s.validates(tool, ParamsFor(tool, s.it, s.manifest, c))
  }

  /** One critique's falsification candidate. */
  function ConsiderCritique(s: Setting, d: Draft, c: Critique): Draft {
    if !Truthy(c.suggestedAction) then d
    else
      var tool := c.suggestedAction.value;
      var challenged := LookUp(s.claims, c.targetId);
      var key := (tool, MetricFor(challenged, s.it, s.manifest));
      if !Admits(s, d, tool, key, challenged) then d
      else Draft(d.out + [Request(Make(s.seed, "exp", s.base + |d.out|), tool,
                                  ParamsFor(tool, s.it, s.manifest, challenged),
                                  [c.targetId], true, 0.95, PlannedRun)],
                 d.seen + {key})
  }

  function ConsiderCritiques(s: Setting, critiques: seq<Critique>, n: nat): Draft
    requires n <= |critiques|
  {
    if n == 0 then Draft([], {}) else ConsiderCritique(s, ConsiderCritiques(s, critiques, n - 1), critiques[n - 1])
  }

  /** The ids of a group's members. */
  function MemberIds(claims: seq<Claim>, members: seq<nat>): (r: seq<string>)
    requires forall k :: 0 <= k < |members| ==> members[k] < |claims|
    ensures |r| == |members| && forall k :: 0 <= k < |r| ==> r[k] == claims[members[k]].id
  {
    seq(|members|, k requires 0 <= k < |members| => claims[members[k]].id)
  }

  function GroupTargets(s: Setting, g: Group): seq<string>
    requires forall k :: 0 <= k < |g.members| ==> g.members[k] < |s.claims|
  {
    if g.members != [] then MemberIds(s.claims, g.members)
    else
      var t := FallbackTarget(s.claims, DefaultMetric(s.it, s.manifest));
      if Truthy(t) then [t.value] else []
  }

  function Representative(s: Setting, g: Group): Option<Claim>
    requires forall k :: 0 <= k < |g.members| ==> g.members[k] < |s.claims|
  {
    if g.members == [] then None else Some(s.claims[g.members[0]])
  }

  /** One group's regular candidate for the tool of this priority. */
  function ConsiderTool(s: Setting, d: Draft, g: Group, tool: string, priority: nat): Draft
    requires forall k :: 0 <= k < |g.members| ==> g.members[k] < |s.claims|
  {
    var key := (tool, g.metric);
    if !Admits(s, d, tool, key, Representative(s, g)) then d
    else Draft(d.out + [Request(Make(s.seed, "exp", s.base + |d.out|), tool,
                                ParamsFor(tool, s.it, s.manifest, Representative(s, g)), GroupTargets(s, g), false,
                                Max(0.3, 0.85 - 0.1 * priority as real), PlannedRun)],
               d.seen + {key})
  }

  function ConsiderTools(s: Setting, d: Draft, g: Group, tools: seq<string>, n: nat): Draft
    requires forall k :: 0 <= k < |g.members| ==> g.members[k] < |s.claims|
    requires n <= |tools|
  {
    if n == 0 then d else ConsiderTool(s, ConsiderTools(s, d, g, tools, n - 1), g, tools[n - 1], n - 1)
  }

  predicate GroupsFit(s: Setting, groups: seq<Group>) {
    forall g :: 0 <= g < |groups| ==> forall k :: 0 <= k < |groups[g].members| ==> groups[g].members[k] < |s.claims|
  }

  function ConsiderGroups(s: Setting, d: Draft, groups: seq<Group>, tools: seq<string>, n: nat): Draft
    requires GroupsFit(s, groups) && n <= |groups|
  {
    if n == 0 then d
    else ConsiderTools(s, ConsiderGroups(s, d, groups, tools, n - 1), groups[n - 1], tools, |tools|)
  }

  function SettingOf(env: Env, seed: string, st: State, it: Interpretation, uses: map<string, nat>): Setting {
    Setting(seed, st.claims, it, env.manifest, env.registered, env.validates, uses, env.budget.maxToolUses,
            ExecutedKeys(st.claims, it, env.manifest, st.executed), |st.pending| + |st.completed| + |st.failed|)
  }

  /** InvestigationPlanner.candidates */
  function Candidates(env: Env, seed: string, st: State, it: Interpretation, uses: map<string, nat>): seq<Request> {
    var s := SettingOf(env, seed, st, it, uses);
    GroupsAreInRange(st.claims, it, env.manifest);
    ConsiderGroups(s, ConsiderCritiques(s, st.critiques, |st.critiques|), Groups(st.claims, it, env.manifest),
                   IntentTools(it.intent, env.manifest), |Groups(st.claims, it, env.manifest)|).out
  }

  lemma {:induction false} GroupFirstInRange(claims: seq<Claim>, it: Interpretation, m: Manifest, open: seq<nat>,
                                             n: nat)
    requires n <= |open| && forall k :: 0 <= k < |open| ==> open[k] < |claims|
    ensures forall g :: 0 <= g < |GroupFirst(claims, it, m, open, n)| ==>
      forall k :: 0 <= k < |GroupFirst(claims, it, m, open, n)[g].members| ==>
        GroupFirst(claims, it, m, open, n)[g].members[k] < |claims|
  {
    if n > 0 {
      GroupFirstInRange(claims, it, m, open, n - 1);
    }
  }

  lemma GroupsAreInRange(claims: seq<Claim>, it: Interpretation, m: Manifest)
    ensures forall g :: 0 <= g < |Groups(claims, it, m)| ==>
      forall k :: 0 <= k < |Groups(claims, it, m)[g].members| ==> Groups(claims, it, m)[g].members[k] < |claims|
  {
    GroupFirstInRange(claims, it, m, OpenClaims(claims), |OpenClaims(claims)|);
  }

  // Selection

  /** The tools a batch already uses. */
  function ToolsOf(batch: seq<Request>): set<string> {
    set k | 0 <= k < |batch| :: batch[k].tool
  }

  /** The filling loop of select_batch over the first n candidates, after the policy's lead. */
  function FillFirst(candidates: seq<Request>, lead: Request, limit: int, n: nat): (batch: seq<Request>)
    requires n <= |candidates|
    ensures batch != [] && batch[0] == lead
  {
    if n == 0 then [lead]
    else
      var batch := FillFirst(candidates, lead, limit, n - 1);
      var c := candidates[n - 1];
      if |batch| >= limit || c.id == lead.id || c.tool in ToolsOf(batch) then batch else batch + [c]
  }

  /** What select_batch picks once the policy has named an index: nothing, the lead, or the lead and its followers. */
  function BatchFor(candidates: seq<Request>, index: Option<int>, limit: int): (batch: seq<Request>)
    ensures batch != [] ==> index.Some? && 0 <= index.value < |candidates| && batch[0] == candidates[index.value]
  {
    if index.None? || !(0 <= index.value < |candidates|) then []
    else if limit <= 1 then [candidates[index.value]]
    else FillFirst(candidates, candidates[index.value], limit, |candidates|)
  }

  /** _accept over the first n requests of the batch. */
  function AcceptFirst(seed: string, st: State, batch: seq<Request>, n: nat): State
    requires n <= |batch|
  {
    if n == 0 then st
    else LogDecision(AddRequest(AcceptFirst(seed, st, batch, n - 1), batch[n - 1]), seed, "dec-sel", [batch[n - 1].id])
  }

  datatype Selection = Selection(batch: seq<Request>, state: State)

  /** ExperimentSelector.select_batch: no candidates means no policy call and an empty batch. */
  function SelectBatch(env: Env, seed: string, st: State, candidates: seq<Request>, limit: int): Outcome<Selection> {
    if candidates == [] then Ok(Selection([], st))
    else match env.policy.choose(st, candidates)
      case Malformed => Raised(PolicyError)
      case Reply(index) =>
        var batch := BatchFor(candidates, index, limit);
        Ok(Selection(batch, AcceptFirst(seed, st, batch, |batch|)))
  }
}
