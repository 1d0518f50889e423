/** InvestigationPlanner and ExperimentSelector over the live state. */
module Choosing {
  import opened Outcomes
  import opened Ids
  import opened Enums
  import opened Domain
  import opened Environment
  import opened Mutators
  import opened Planning
  import opened Entities
  import opened Tracking
  import Running

  /** The claim behind an id, as the planner reads it. */
  method ClaimBehind(st: InvestigationState, id: string) returns (c: Option<Claim>)
    ensures c == LookUp(st.View().claims, id)
  {
    hide FindClaim;
    var found := st.FindHypothesis(id);
    return if found.Some? then Some(st.hypotheses[found.value].View()) else None;
  }

  /** _executed_pairs */
  method ExecutedPairs(st: InvestigationState, it: Interpretation, m: Manifest) returns (pairs: set<Key>)
    ensures pairs == ExecutedKeys(st.View().claims, it, m, st.executedRequests)
  {
    hide LookUp, MetricFor, Views;
    pairs := {};
    for n := 0 to |st.executedRequests|
      invariant forall key :: key in pairs <==>
        exists k :: 0 <= k < n && ResolvedKey(st.View().claims, it, m, st.executedRequests[k]) == key
    {
      var request := st.executedRequests[n];
      var claim: Option<Claim> := None;
      if request.targets != [] {
        claim := ClaimBehind(st, request.targets[0]);
      }
      pairs := pairs + {(request.tool, MetricFor(claim, it, m))};
      assert ResolvedKey(st.View().claims, it, m, request) == (request.tool, MetricFor(claim, it, m));
    }
  }

  /** The falsification candidates: one for every open critique that suggests a tool still worth running. */
  method FromCritiques(env: Env, seed: string, st: InvestigationState, it: Interpretation, tracker: BudgetTracker,
                       done: set<Key>, base: nat, ghost s: Setting)
    returns (out: seq<Request>, seen: set<Key>)
    requires s == SettingOf(env, seed, st.View(), it, tracker.toolUses) && s.done == done && s.base == base
    ensures Draft(out, seen) == ConsiderCritiques(s, st.critiques, |st.critiques|)
  {
    hide LookUp, MetricFor, ParamsFor, ExecutedKeys, Views, Make;
    out, seen := [], {};
    for n := 0 to |st.critiques|
      invariant Draft(out, seen) == ConsiderCritiques(s, st.critiques, n)
    {
      var c := st.critiques[n];
      if !Truthy(c.suggestedAction) || tracker.AtLimit(env.budget, c.suggestedAction.value) {
        continue;
      }
      var tool := c.suggestedAction.value;
      var challenged := ClaimBehind(st, c.targetId);
      var key := (tool, MetricFor(challenged, it, env.manifest));
      if key in done || key in seen {
        continue;
      }
      if !env.registered(tool) {
        continue;
      }
      var params := ParamsFor(tool, it, env.manifest, challenged);
      if !env.validates(tool, params) {
        continue;
      }
      out := out + [Request(Make(seed, "exp", base + |out|), tool, params, [c.targetId], true, 0.95, PlannedRun)];
      seen := seen + {key};
    }
  }

  /** The open claims, grouped by the metric their experiments would measure. */
  method GroupOpenClaims(st: InvestigationState, it: Interpretation, m: Manifest) returns (groups: seq<Group>)
    ensures groups == Groups(st.View().claims, it, m)
  {
    hide MetricFor, AddToGroup;
    var open := st.OpenHypotheses();
    if open == [] {
      return [Group(DefaultMetric(it, m), [])];
    }
    groups := [];
    for n := 0 to |open|
      invariant groups == GroupFirst(st.View().claims, it, m, open, n)
    {
      groups := AddToGroup(groups, MetricFor(Some(st.hypotheses[open[n]].View()), it, m), open[n]);
    }
  }

  /** One group's regular candidates, in tool priority. */
  method FromGroup(env: Env, seed: string, it: Interpretation, tracker: BudgetTracker, done: set<Key>, base: nat,
                   tools: seq<string>,
                   g: Group, targets: seq<string>, representative: Option<Claim>, drafted: seq<Request>,
                   covered: set<Key>,
                   ghost s: Setting)
    returns (out: seq<Request>, seen: set<Key>)
    requires s.seed == seed && s.it == it && s.manifest == env.manifest && s.registered == env.registered
    requires s.validates == env.validates
    requires s.uses == tracker.toolUses && s.maxUses == env.budget.maxToolUses && s.done == done && s.base == base
    requires forall k :: 0 <= k < |g.members| ==> g.members[k] < |s.claims|
    requires targets == GroupTargets(s, g) && representative == Representative(s, g)
    ensures Draft(out, seen) == ConsiderTools(s, Draft(drafted, covered), g, tools, |tools|)
  {
    hide ParamsFor, Make, GroupTargets, Representative;
    out, seen := drafted, covered;
    for priority := 0 to |tools|
      invariant Draft(out, seen) == ConsiderTools(s, Draft(drafted, covered), g, tools, priority)
    {
      var tool := tools[priority];
      if tracker.AtLimit(env.budget, tool) {
        continue;
      }
      var key := (tool, g.metric);
      if key in done || key in seen {
        continue;
      }
      if !env.registered(tool) {
        continue;
      }
      var params := ParamsFor(tool, it, env.manifest, representative);
      if !env.validates(tool, params) {
        continue;
      }
      var gain := Max(0.3, 0.85 - 0.1 * priority as real);
      out := out + [Request(Make(seed, "exp", base + |out|), tool, params, targets, false, gain, PlannedRun)];
      seen := seen + {key};
    }
  }

  /** InvestigationPlanner.candidates */
  method CandidatesOf(env: Env, seed: string, st: InvestigationState, it: Interpretation, tracker: BudgetTracker)
    returns (out: seq<Request>)
    ensures out == Candidates(env, seed, st.View(), it, tracker.View().toolUses)
  {
    hide ConsiderCritiques, ConsiderTools, Groups, ExecutedKeys, FallbackTarget, IntentTools;
    ghost var s := SettingOf(env, seed, st.View(), it, tracker.toolUses);
    var done := ExecutedPairs(st, it, env.manifest);
    var base := |st.pendingExperiments| + |st.completedExperiments| + |st.failedExperiments|;
    var seen: set<Key>;
    out, seen := FromCritiques(env, seed, st, it, tracker, done, base, s);
    GroupsAreInRange(st.View().claims, it, env.manifest);
    var groups := GroupOpenClaims(st, it, env.manifest);
    var tools := IntentTools(it.intent, env.manifest);
    ghost var drafted := Draft(out, seen);
    for n := 0 to |groups|
      invariant Draft(out, seen) == ConsiderGroups(s, drafted, groups, tools, n)
    {
      var g := groups[n];
      var targets := TargetsOf(env, st, it, g, s);
      var representative := if g.members == [] then None else Some(st.hypotheses[g.members[0]].View());
      out, seen := FromGroup(env, seed, it, tracker, done, base, tools, g, targets, representative, out, seen, s);
    }
  }

  /** Whom a group's experiments name: its members, or the fallback when no claim is open. */
  method TargetsOf(env: Env, st: InvestigationState, it: Interpretation, g: Group, ghost s: Setting)
    returns (targets: seq<string>)
    requires s.claims == st.View().claims && s.it == it && s.manifest == env.manifest
    requires forall k :: 0 <= k < |g.members| ==> g.members[k] < |st.hypotheses|
    ensures targets == GroupTargets(s, g)
  {
    if g.members == [] {
      var target := TargetHypothesis(st, DefaultMetric(it, env.manifest));
      return if Truthy(target) then [target.value] else [];
    }
    targets := [];
    for k := 0 to |g.members|
      invariant |targets| == k && forall j :: 0 <= j < k ==> targets[j] == st.View().claims[g.members[j]].id
    {
      targets := targets + [st.hypotheses[g.members[k]].id];
    }
  }

  /** _target_hypothesis */
  method TargetHypothesis(st: InvestigationState, metric: Option<string>) returns (target: Option<string>)
    ensures target == FallbackTarget(st.View().claims, metric)
  {
    var open := st.OpenHypotheses();
    var n := 0;
    while n < |open|
      invariant 0 <= n <= |open|
      invariant FallbackFrom(st.View().claims, metric, open, 0) == FallbackFrom(st.View().claims, metric, open, n)
    {
      var h := st.hypotheses[open[n]];
      assert h.View() == st.View().claims[open[n]];
      if h.metricRefs == [] || (Truthy(metric) && metric.value in h.metricRefs) {
        return Some(h.id);
      }
      n := n + 1;
    }
    return if st.hypotheses == [] then None else Some(st.hypotheses[0].id);
  }

  // ExperimentSelector

  /** _accept */
  method Accept(seed: string, st: InvestigationState, chosen: Request)
    modifies st`pendingExperiments, st`decisions
    ensures st.View() == LogDecision(AddRequest(old(st.View()), chosen), seed, "dec-sel", [chosen.id])
  {
    st.AddExperimentRequest(chosen);
    st.RecordDecision(seed, "dec-sel", [chosen.id]);
  }

  /** Accepting looks only at the requests accepted. */
  lemma {:induction false} AcceptedPrefix(seed: string, st: State, batch: seq<Request>, more: seq<Request>, n: nat)
    requires n <= |batch|
    ensures AcceptFirst(seed, st, batch + more, n) == AcceptFirst(seed, st, batch, n)
  {
    hide LogDecision, AddRequest;
    if n > 0 {
      AcceptedPrefix(seed, st, batch, more, n - 1);
    }
  }

  /** A full batch takes nobody else. */
  lemma {:induction false} FullBatch(candidates: seq<Request>, lead: Request, limit: int, n: nat, m: nat)
    requires n <= m <= |candidates| && |FillFirst(candidates, lead, limit, n)| >= limit
    ensures FillFirst(candidates, lead, limit, m) == FillFirst(candidates, lead, limit, n)
  {
    if n < m {
      FullBatch(candidates, lead, limit, n, m - 1);
    }
  }

  /** The policy's lead, and the followers that fill the batch after it. */
  method Fill(seed: string, st: InvestigationState, candidates: seq<Request>, lead: Request, limit: int)
    returns (batch: seq<Request>)
    modifies st`pendingExperiments, st`decisions
    ensures batch == if limit <= 1 then [lead] else FillFirst(candidates, lead, limit, |candidates|)
    ensures st.View() == AcceptFirst(seed, old(st.View()), batch, |batch|)
  {
    hide LogDecision, AddRequest, Views;
    ghost var before := st.View();
    Accept(seed, st, lead);
    batch := [lead];
    assert AcceptFirst(seed, before, batch, 0) == before;
    if limit <= 1 {
      return;
    }
    var n := 0;
    while n < |candidates|
      invariant 0 <= n <= |candidates|
      invariant batch == FillFirst(candidates, lead, limit, n)
      invariant st.View() == AcceptFirst(seed, before, batch, |batch|)
    {
      if |batch| >= limit {
        FullBatch(candidates, lead, limit, n, |candidates|);
        return;
      }
      var candidate := candidates[n];
      if candidate.id != lead.id && candidate.tool !in ToolsOf(batch) {
        AcceptedPrefix(seed, before, batch, [candidate], |batch|);
        Accept(seed, st, candidate);
        batch := batch + [candidate];
      }
      n := n + 1;
    }
  }

  /**
   What choosing leaves: the batch and the state it was accepted into, or the policy's error and the state as it
   was.
   */
  predicate Chose(o: Outcome<seq<Request>>, spec: Outcome<Selection>, before: State, now: State) {
    match o
    case Ok(batch) => spec == Ok(Selection(batch, now))
    case Raised(e) => spec == Raised(e) && now == before
  }

  /** ExperimentSelector.select_batch */
  method SelectBatchOf(env: Env, seed: string, st: InvestigationState, candidates: seq<Request>, tracker: BudgetTracker,
                       limit: int)
    returns (o: Outcome<seq<Request>>)
    modifies st`pendingExperiments, st`decisions, tracker
    ensures Chose(o, SelectBatch(env, seed, old(st.View()), candidates, limit), old(st.View()), st.View())
    ensures tracker.View() == Running.AfterChoosing(env, old(st.View()), old(tracker.View()), candidates)
  {
    hide FillFirst, AcceptFirst, Views;
    NothingToAccept(seed, st.View());
    if candidates == [] {
      return Ok([]);
    }
    tracker.Charge(env.policy.callCost(st.View(), ChooseCall));
    match env.policy.choose(st.View(), candidates) {
      case Malformed =>
        return Raised(PolicyError);
      case Reply(index) =>
        if index.None? || !(0 <= index.value < |candidates|) {
          return Ok([]);
        }
        var batch := Fill(seed, st, candidates, candidates[index.value], limit);
        return Ok(batch);
    }
  }

  lemma NothingToAccept(seed: string, st: State)
    ensures AcceptFirst(seed, st, [], 0) == st
  {
  }
}
