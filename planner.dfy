/**
 * Plan building (`create_invocation_plan`) and resource estimation
 * (`estimate_resources`).  The plan's warnings are a tagged datatype that
 * carries the agent lists and counts the source formats into text.
 */
module Planner {
  import opened Wrappers
  import opened Lists
  import opened Config
  import opened Classifier
  import opened Selector

  datatype Warning =
    | CriticalMissing(agents: seq<string>)
    | AddedForCompleteness(agents: seq<string>)
    | LargeInvocation(count: nat, estimatedTime: real)

  datatype InvocationPlan = InvocationPlan(
    requestText: string,
    requestType: string,
    agentsToInvoke: seq<string>,
    estimatedTime: real,
    estimatedCost: real,
    requiresConfirmation: bool,
    criticalAgentsIncluded: bool,
    warnings: seq<Warning>)

  /** Above this many agents a plan carries the large-invocation warning (fixed, not configurable). */
  const LargeInvocationSize: nat := 25

  /** (time, cost) for invoking `agents`: linear in their number. */
  function EstimateResources(cfg: OrchConfig, agents: seq<string>): (real, real) {
    (|agents| as real * TimePerAgent(cfg) + TimeOverhead(cfg), |agents| as real * CostPerAgent(cfg))
  }

  /**
   * Each further agent adds exactly the configured time and cost per agent;
   * with no agents only the overhead remains.
   */
  lemma EstimateResourcesLinear(cfg: OrchConfig, agents: seq<string>, extra: string)
    ensures EstimateResources(cfg, agents + [extra]).0 == EstimateResources(cfg, agents).0 + TimePerAgent(cfg)
    ensures EstimateResources(cfg, agents + [extra]).1 == EstimateResources(cfg, agents).1 + CostPerAgent(cfg)
    ensures EstimateResources(cfg, []) == (TimeOverhead(cfg), 0.0)
  {
  }

  /** Without a `resource_management` section: 0.5 per agent plus 2 time units, 0.10 cost per agent. */
  lemma EstimateResourcesDefaults(cfg: OrchConfig, agents: seq<string>)
    requires cfg.timePerAgent.None? && cfg.timeOverhead.None? && cfg.estimatedCostPerAgent.None?
    ensures EstimateResources(cfg, agents) == (|agents| as real * 0.5 + 2.0, |agents| as real * 0.10)
  {
  }

  /** Non-negative rates give non-negative estimates that grow with the number of agents. */
  lemma {:induction false} EstimateResourcesMonotone(cfg: OrchConfig, small: seq<string>, large: seq<string>)
    requires TimePerAgent(cfg) >= 0.0 && TimeOverhead(cfg) >= 0.0 && CostPerAgent(cfg) >= 0.0
    requires |small| <= |large|
    ensures 0.0 <= EstimateResources(cfg, small).0 <= EstimateResources(cfg, large).0
    ensures 0.0 <= EstimateResources(cfg, small).1 <= EstimateResources(cfg, large).1
  {
    var d := (|large| - |small|) as real;
    assert |large| as real == |small| as real + d;
    assert |large| as real * TimePerAgent(cfg) == |small| as real * TimePerAgent(cfg) + d * TimePerAgent(cfg);
    assert |large| as real * CostPerAgent(cfg) == |small| as real * CostPerAgent(cfg) + d * CostPerAgent(cfg);
  }

  /** The position a warning kind takes in a plan's warning list. */
  function Rank(w: Warning): nat {
    match w
    case CriticalMissing(_) => 0
    case AddedForCompleteness(_) => 1
    case LargeInvocation(_, _) => 2
  }

  /** The warnings a plan carries, in the fixed order missing-critical, additions, large. */
  function PlanWarnings(missing: seq<string>, added: seq<string>, n: nat, time: real): seq<Warning> {
    (if missing != [] then [CriticalMissing(missing)] else [])
    + (if added != [] then [AddedForCompleteness(added)] else [])
    + (if n > LargeInvocationSize then [LargeInvocation(n, time)] else [])
  }

  /**
   * The warnings are ordered by kind; each of the three is present iff its
   * condition holds, and there are no others.
   */
  lemma PlanWarningsSpec(missing: seq<string>, added: seq<string>, n: nat, time: real)
    ensures var ws := PlanWarnings(missing, added, n, time);
            && (forall i, j :: 0 <= i < j < |ws| ==> Rank(ws[i]) < Rank(ws[j]))
            && (CriticalMissing(missing) in ws <==> missing != [])
            && (AddedForCompleteness(added) in ws <==> added != [])
            && (LargeInvocation(n, time) in ws <==> n > LargeInvocationSize)
            && (forall w :: w in ws ==> w in {CriticalMissing(missing), AddedForCompleteness(added), LargeInvocation(n, time)})
  {
  }

  /** The additions list: duplicate-free, exactly the complete-group suggestions for `selected`. */
  ghost predicate IsAdditionList(cfg: OrchConfig, selected: seq<string>, added: seq<string>) {
    NoDup(added) && forall a :: a in added <==> IsSuggestion(cfg.completeGroups, selected, a)
  }

  /** `plan` is what the source builds for `requestText`, given the additions list `added`. */
  ghost predicate PlannedWith(cfg: OrchConfig, manifest: Manifest, requestText: string,
                              added: seq<string>, plan: InvocationPlan)
  {
    var requestType := ParseRequest(cfg, requestText);
    var selected := AgentsForRequest(cfg, manifest, requestType);
    var missing := Missing(manifest.criticalAgents, selected);
    var n := |plan.agentsToInvoke|;
    var estimate := EstimateResources(cfg, plan.agentsToInvoke);
    && IsAdditionList(cfg, selected, added)
    && plan.requestText == requestText
    && plan.requestType == requestType
    && (if added == [] then plan.agentsToInvoke == selected
        else NoDup(plan.agentsToInvoke)
             && forall a :: a in plan.agentsToInvoke <==> a in selected || a in added)
    && plan.criticalAgentsIncluded == (missing == [])
    && plan.estimatedTime == estimate.0
    && plan.estimatedCost == estimate.1
    && plan.requiresConfirmation == (n > ConfirmThreshold(cfg))
    && plan.warnings == PlanWarnings(missing, added, n, estimate.0)
  }

  /**
   * `plan` is a plan the source may build for `requestText`: the order of a
   * list rebuilt through a set is not fixed, so any order of the additions
   * (and of the merged agent list) is allowed.
   */
  ghost predicate IsPlanFor(cfg: OrchConfig, manifest: Manifest, requestText: string, plan: InvocationPlan) {
    exists added :: PlannedWith(cfg, manifest, requestText, added, plan)
  }

  /** The agent list selected for the request, before complete-group expansion. */
  function SelectedAgents(cfg: OrchConfig, manifest: Manifest, requestText: string): seq<string> {
    AgentsForRequest(cfg, manifest, ParseRequest(cfg, requestText))
  }

  /** Merging the additions and removing duplicates keeps exactly the selected and the added agents. */
  lemma MergedAgents(selected: seq<string>, added: seq<string>)
    ensures NoDup(Distinct(selected + added))
    ensures forall a :: a in Distinct(selected + added) <==> a in selected || a in added
  {
    var merged := selected + added;
    forall a ensures a in Distinct(merged) <==> a in selected || a in added {
      assert a in Distinct(merged) <==> a in Elems(Distinct(merged));
      assert a in merged <==> a in Elems(merged);
    }
  }

  /** A plan assembled from the selection, its missing critical agents and an additions list. */
  lemma PlanFromParts(cfg: OrchConfig, manifest: Manifest, requestText: string,
                      selected: seq<string>, missing: seq<string>, added: seq<string>, plan: InvocationPlan)
    requires selected == SelectedAgents(cfg, manifest, requestText)
    requires missing == Missing(manifest.criticalAgents, selected)
    requires IsAdditionList(cfg, selected, added)
    requires plan.requestText == requestText && plan.requestType == ParseRequest(cfg, requestText)
    requires plan.agentsToInvoke == if added == [] then selected else Distinct(selected + added)
    requires (plan.estimatedTime, plan.estimatedCost) == EstimateResources(cfg, plan.agentsToInvoke)
    requires plan.requiresConfirmation == (|plan.agentsToInvoke| > ConfirmThreshold(cfg))
    requires plan.criticalAgentsIncluded == (missing == [])
    requires plan.warnings == PlanWarnings(missing, added, |plan.agentsToInvoke|, plan.estimatedTime)
    ensures PlannedWith(cfg, manifest, requestText, added, plan)
  {
    if added != [] {
      MergedAgents(selected, added);
    }
    assert PlannedWith(cfg, manifest, requestText, added, plan);
  }

  /**
   * Whether the list `get_agents_for_request` hands back for `requestType`
   * is a list object stored in the configuration, not a fresh one: a rule's
   * literal `agents` list, or, when no rule exists, a preset's `agents`
   * list.  An "all" rule, an absent `agents` field and an unknown type all
   * build a new list.
   */
  predicate SharedSelection(cfg: OrchConfig, requestType: string) {
    if requestType in cfg.invocationRules then
      match cfg.invocationRules[requestType].agents
      case Some(Listed(_)) => true
      case _ => false
    else requestType in cfg.presets && cfg.presets[requestType].agents.Some?
  }

  /**
   * The configuration after `agents_list.extend(suggested_additions)`: when
   * there are additions and the selection is a stored list, that stored
   * list grows by them; nothing else in the configuration changes.
   */
  function ExtendSelectionSource(cfg: OrchConfig, requestType: string, added: seq<string>): (after: OrchConfig)
    ensures after.(invocationRules := cfg.invocationRules, presets := cfg.presets) == cfg
    ensures after.invocationRules.Keys == cfg.invocationRules.Keys && after.presets.Keys == cfg.presets.Keys
    ensures added == [] || !SharedSelection(cfg, requestType) ==> after == cfg
  {
    if added != [] && SharedSelection(cfg, requestType) then
      if requestType in cfg.invocationRules then
        var stored := cfg.invocationRules[requestType].agents.value.agents;
        cfg.(invocationRules := cfg.invocationRules[requestType := Rule(Some(Listed(stored + added)))])
      else
        var stored := cfg.presets[requestType].agents.value;
        cfg.(presets := cfg.presets[requestType := Preset(Some(stored + added))])
    else cfg
  }

  /**
   * After the extension the same request type selects the old selection
   * followed by the additions when that selection was a stored list, and
   * the old selection otherwise; every other request type selects what it
   * did before.
   */
  lemma ExtendedSelection(cfg: OrchConfig, manifest: Manifest, requestType: string, added: seq<string>)
    ensures AgentsForRequest(ExtendSelectionSource(cfg, requestType, added), manifest, requestType) ==
              AgentsForRequest(cfg, manifest, requestType) + (if SharedSelection(cfg, requestType) then added else [])
    ensures forall t :: t != requestType ==>
              AgentsForRequest(ExtendSelectionSource(cfg, requestType, added), manifest, t) ==
              AgentsForRequest(cfg, manifest, t)
  {
    var before := AgentsForRequest(cfg, manifest, requestType);
    if added == [] || !SharedSelection(cfg, requestType) {
      assert before + [] == before;
    }
  }

  /** The "Build warnings" steps of `create_invocation_plan`. */
  method BuildWarnings(missing: seq<string>, added: seq<string>, n: nat, time: real) returns (warnings: seq<Warning>)
    ensures warnings == PlanWarnings(missing, added, n, time)
  {
    warnings := [];
    if |missing| > 0 {
      warnings := warnings + [CriticalMissing(missing)];
    }
    if |added| > 0 {
      warnings := warnings + [AddedForCompleteness(added)];
    }
    if n > LargeInvocationSize {
      warnings := warnings + [LargeInvocation(n, time)];
    }
  }

  /**
   * `InvocationVerifier`: the loaded configuration, which building a plan
   * can change, and the manifest, which it only reads.  The verifier's
   * other operations read the configuration without changing it and are
   * functions of the configuration value.
   */
  class InvocationVerifier {
    var config: OrchConfig
    const manifest: Manifest

    constructor(config: OrchConfig, manifest: Manifest)
      ensures this.config == config && this.manifest == manifest
    {
      this.config := config;
      this.manifest := manifest;
    }

    /**
     * `create_invocation_plan`.  The plan is one the source may build for
     * the configuration as it was on entry; as in the source, the agent
     * list being extended is the configured list itself when the
     * selection came from one, so the configuration keeps the additions.
     */
    method CreateInvocationPlan(requestText: string) returns (plan: InvocationPlan)
      modifies this
      ensures IsPlanFor(old(config), manifest, requestText, plan)
      ensures exists added :: PlannedWith(old(config), manifest, requestText, added, plan)
                              && config == ExtendSelectionSource(old(config), plan.requestType, added)
    {
      var cfg := config;
      var requestType := ParseRequest(cfg, requestText);
      var agentsList := AgentsForRequest(cfg, manifest, requestType);
      var selected := agentsList;
      var criticalIncluded, missingCritical := CheckCriticalAgents(manifest, agentsList);
      var suggestedAdditions := CheckGroupCompleteness(cfg, agentsList);

      if |suggestedAdditions| > 0 {
        config := ExtendSelectionSource(cfg, requestType, suggestedAdditions);
        agentsList := agentsList + suggestedAdditions;
        agentsList := Distinct(agentsList);
      }

      var estimate := EstimateResources(cfg, agentsList);

      var requiresConfirmation := false;
      if |agentsList| > ConfirmThreshold(cfg) {
        requiresConfirmation := true;
      }

      var warnings := BuildWarnings(missingCritical, suggestedAdditions, |agentsList|, estimate.0);
      plan := InvocationPlan(requestText, requestType, agentsList, estimate.0, estimate.1,
                             requiresConfirmation, criticalIncluded, warnings);
      PlanFromParts(cfg, manifest, requestText, selected, missingCritical, suggestedAdditions, plan);
      assert config == ExtendSelectionSource(cfg, plan.requestType, suggestedAdditions);
    }
  }

  /**
   * Planning the same request again after the extension: the request type
   * is the same, the selection has grown by the first plan's additions when
   * it was a stored list, and then the critical flag describes the first
   * plan's expanded agent list instead of its selection.
   */
  lemma RepeatedRequest(cfg: OrchConfig, manifest: Manifest, requestText: string, added: seq<string>,
                        first: InvocationPlan, second: InvocationPlan)
    requires PlannedWith(cfg, manifest, requestText, added, first)
    requires IsPlanFor(ExtendSelectionSource(cfg, first.requestType, added), manifest, requestText, second)
    ensures second.requestType == first.requestType
    ensures SelectedAgents(ExtendSelectionSource(cfg, first.requestType, added), manifest, requestText) ==
              SelectedAgents(cfg, manifest, requestText) + (if SharedSelection(cfg, first.requestType) then added else [])
    ensures SharedSelection(cfg, first.requestType) ==>
              (second.criticalAgentsIncluded <==>
                 forall c :: c in manifest.criticalAgents ==> c in first.agentsToInvoke)
    ensures !SharedSelection(cfg, first.requestType) ==> second.criticalAgentsIncluded == first.criticalAgentsIncluded
  {
    var after := ExtendSelectionSource(cfg, first.requestType, added);
    assert after.invocationAliases == cfg.invocationAliases;
    assert ParseRequest(after, requestText) == ParseRequest(cfg, requestText);
    ExtendedSelection(cfg, manifest, first.requestType, added);
    assert IsPlanFor(cfg, manifest, requestText, first);
    PlanCriticalFlag(cfg, manifest, requestText, first);
    PlanCriticalFlag(after, manifest, requestText, second);
    var selected := SelectedAgents(cfg, manifest, requestText);
    forall a ensures a in selected + added <==> a in first.agentsToInvoke {
      if added == [] {
        assert selected + added == selected;
      }
    }
  }

  /**
   * The critical-agent flag describes the list selected BEFORE group
   * expansion: it holds iff every critical agent was already selected.
   */
  lemma PlanCriticalFlag(cfg: OrchConfig, manifest: Manifest, requestText: string, plan: InvocationPlan)
    requires IsPlanFor(cfg, manifest, requestText, plan)
    ensures plan.criticalAgentsIncluded <==>
              forall c :: c in manifest.criticalAgents ==> c in SelectedAgents(cfg, manifest, requestText)
  {
    MissingEmpty(manifest.criticalAgents, SelectedAgents(cfg, manifest, requestText));
  }

  /**
   * The plan keeps every selected agent, adds only complete-group
   * suggestions, and holds every `must_include` member of each group
   * triggered by the selection.
   */
  lemma PlanAgents(cfg: OrchConfig, manifest: Manifest, requestText: string, plan: InvocationPlan)
    requires IsPlanFor(cfg, manifest, requestText, plan)
    ensures forall a :: a in SelectedAgents(cfg, manifest, requestText) ==> a in plan.agentsToInvoke
    ensures forall a :: a in plan.agentsToInvoke ==>
              a in SelectedAgents(cfg, manifest, requestText)
              || IsSuggestion(cfg.completeGroups, SelectedAgents(cfg, manifest, requestText), a)
    ensures forall k, m :: 0 <= k < |cfg.completeGroups|
                        && Triggered(cfg.completeGroups[k].1, SelectedAgents(cfg, manifest, requestText))
                        && m in cfg.completeGroups[k].1.mustInclude
                        ==> m in plan.agentsToInvoke
  {
    var added :| PlannedWith(cfg, manifest, requestText, added, plan);
    var selected := SelectedAgents(cfg, manifest, requestText);
    forall k, m | 0 <= k < |cfg.completeGroups| && Triggered(cfg.completeGroups[k].1, selected)
                  && m in cfg.completeGroups[k].1.mustInclude
      ensures m in plan.agentsToInvoke
    {
      if m !in selected {
        assert IsSuggestion(cfg.completeGroups, selected, m);
        assert m in added;
      }
    }
  }

  /** Without complete groups nothing is added: the plan is the selection, warned only about missing critical agents and size. */
  lemma PlanWithoutGroups(cfg: OrchConfig, manifest: Manifest, requestText: string, plan: InvocationPlan)
    requires IsPlanFor(cfg, manifest, requestText, plan)
    requires cfg.completeGroups == []
    ensures plan.agentsToInvoke == SelectedAgents(cfg, manifest, requestText)
    ensures plan.warnings == PlanWarnings(Missing(manifest.criticalAgents, SelectedAgents(cfg, manifest, requestText)), [],
                                          |plan.agentsToInvoke|, plan.estimatedTime)
  {
    var added :| PlannedWith(cfg, manifest, requestText, added, plan);
    NonEmptyHasMember(added);
  }

  /** A duplicate-free selection gives a duplicate-free plan (duplicates are only removed when agents are added). */
  lemma PlanNoDup(cfg: OrchConfig, manifest: Manifest, requestText: string, plan: InvocationPlan)
    requires IsPlanFor(cfg, manifest, requestText, plan)
    requires NoDup(SelectedAgents(cfg, manifest, requestText))
    ensures NoDup(plan.agentsToInvoke)
  {
  }

  /** Plan size decides confirmation; the estimates are linear in the final agent count. */
  lemma PlanConfirmationAndEstimates(cfg: OrchConfig, manifest: Manifest, requestText: string, plan: InvocationPlan)
    requires IsPlanFor(cfg, manifest, requestText, plan)
    ensures plan.requiresConfirmation <==> |plan.agentsToInvoke| > ConfirmThreshold(cfg)
    ensures plan.estimatedTime == |plan.agentsToInvoke| as real * TimePerAgent(cfg) + TimeOverhead(cfg)
    ensures plan.estimatedCost == |plan.agentsToInvoke| as real * CostPerAgent(cfg)
  {
  }

  /**
   * The warnings come in the order missing-critical, additions, large; a
   * missing-critical warning is present exactly when the critical flag is
   * false, and a large-invocation one exactly when the plan has more than
   * 25 agents.
   */
  lemma PlanWarningsMatchFlags(cfg: OrchConfig, manifest: Manifest, requestText: string, plan: InvocationPlan)
    requires IsPlanFor(cfg, manifest, requestText, plan)
    ensures forall i, j :: 0 <= i < j < |plan.warnings| ==> Rank(plan.warnings[i]) < Rank(plan.warnings[j])
    ensures (exists i :: 0 <= i < |plan.warnings| && plan.warnings[i].CriticalMissing?) <==> !plan.criticalAgentsIncluded
    ensures (exists i :: 0 <= i < |plan.warnings| && plan.warnings[i].LargeInvocation?) <==>
              |plan.agentsToInvoke| > LargeInvocationSize
  {
    var added :| PlannedWith(cfg, manifest, requestText, added, plan);
    var missing := Missing(manifest.criticalAgents, SelectedAgents(cfg, manifest, requestText));
    var n := |plan.agentsToInvoke|;
    WarningKinds(missing, added, n, plan.estimatedTime);
  }

  lemma WarningKinds(missing: seq<string>, added: seq<string>, n: nat, time: real)
    ensures var ws := PlanWarnings(missing, added, n, time);
            && ((exists i :: 0 <= i < |ws| && ws[i].CriticalMissing?) <==> missing != [])
            && ((exists i :: 0 <= i < |ws| && ws[i].LargeInvocation?) <==> n > LargeInvocationSize)
  {
    var ws := PlanWarnings(missing, added, n, time);
    if missing != [] {
      assert ws[0] == CriticalMissing(missing);
    }
    if n > LargeInvocationSize {
      assert ws[|ws| - 1] == LargeInvocation(n, time);
    }
  }
}

/** Concrete plans that show how the plan builder treats critical agents. */
module PlannerScenarios {
  import opened Wrappers
  import opened Lists
  import opened Text
  import opened Config
  import opened Classifier
  import opened Selector
  import opened Planner

  /** Request type "T" (alias phrase "x") selects only "b"; "a" is the critical agent. */
  function ScenarioConfig(groups: seq<(string, CompleteGroup)>): OrchConfig {
    OrchConfig(map["T" := Rule(Some(Listed(["b"])))], map[], [("T", Phrase("x"))], groups,
               None, None, None, None, None)
  }

  const ScenarioManifest: Manifest := Manifest(["a", "b", "c"], ["a"], None)

  lemma ScenarioClassifies(groups: seq<(string, CompleteGroup)>)
    ensures ParseRequest(ScenarioConfig(groups), "x") == "T"
    ensures SelectedAgents(ScenarioConfig(groups), ScenarioManifest, "x") == ["b"]
  {
    assert Lower("x") == "x";
    assert IsPrefix("x", "x");
    ParseRequestAlias(ScenarioConfig(groups), "x", 0);
  }

  /**
   * Any configuration whose selection for the request is ["b"], with no
   * complete groups and a confirmation threshold of at least 1: the plan is
   * ["b"] and needs no confirmation.
   */
  lemma SingleAgentPlan(cfg: OrchConfig, manifest: Manifest, requestText: string, plan: InvocationPlan)
    requires SelectedAgents(cfg, manifest, requestText) == ["b"]
    requires cfg.completeGroups == [] && ConfirmThreshold(cfg) >= 1
    requires IsPlanFor(cfg, manifest, requestText, plan)
    ensures plan.agentsToInvoke == ["b"]
    ensures !plan.requiresConfirmation
  {
    PlanWithoutGroups(cfg, manifest, requestText, plan);
    PlanConfirmationAndEstimates(cfg, manifest, requestText, plan);
  }

  lemma MissingAOfB()
    ensures Missing(["a"], ["b"]) == ["a"]
  {
    assert ["a"][..0] == [];
  }

  /**
   * When that selection leaves out "a", the only critical agent, the plan
   * is flagged and carries a single missing-critical warning naming "a".
   */
  lemma MissingCriticalPlan(cfg: OrchConfig, manifest: Manifest, requestText: string, plan: InvocationPlan)
    requires SelectedAgents(cfg, manifest, requestText) == ["b"]
    requires manifest.criticalAgents == ["a"] && cfg.completeGroups == []
    requires IsPlanFor(cfg, manifest, requestText, plan)
    ensures !plan.criticalAgentsIncluded
    ensures plan.warnings == [CriticalMissing(["a"])]
  {
    PlanWithoutGroups(cfg, manifest, requestText, plan);
    PlanCriticalFlag(cfg, manifest, requestText, plan);
    MissingAOfB();
    var sel := SelectedAgents(cfg, manifest, requestText);
    assert plan.agentsToInvoke == sel;
    assert plan.warnings == PlanWarnings(["a"], [], |sel|, plan.estimatedTime);
  }

  /**
   * A rule that leaves out the critical agent, with no complete groups:
   * the plan is exactly the rule's list, flagged, with a missing-critical
   * warning naming the agent.
   */
  lemma MissingCriticalScenario(plan: InvocationPlan)
    requires IsPlanFor(ScenarioConfig([]), ScenarioManifest, "x", plan)
    ensures plan.agentsToInvoke == ["b"]
    ensures !plan.criticalAgentsIncluded
    ensures plan.warnings == [CriticalMissing(["a"])]
    ensures !plan.requiresConfirmation
  {
    ScenarioClassifies([]);
    SingleAgentPlan(ScenarioConfig([]), ScenarioManifest, "x", plan);
    MissingCriticalPlan(ScenarioConfig([]), ScenarioManifest, "x", plan);
  }

  /**
   * The critical check runs before group expansion: when a complete group
   * triggered by "b" brings in the critical agent "a", the plan contains
   * every critical agent and is still flagged as missing one.
   */
  lemma CriticalFlagIgnoresExpansion(plan: InvocationPlan)
    requires IsPlanFor(ScenarioConfig([("g", CompleteGroup(["b"], ["a"]))]), ScenarioManifest, "x", plan)
    ensures forall c :: c in ScenarioManifest.criticalAgents ==> c in plan.agentsToInvoke
    ensures !plan.criticalAgentsIncluded
  {
    var cfg := ScenarioConfig([("g", CompleteGroup(["b"], ["a"]))]);
    ScenarioClassifies(cfg.completeGroups);
    assert cfg.completeGroups[0].1.triggerAgents[0] in ["b"];
    PlanAgents(cfg, ScenarioManifest, "x", plan);
    PlanCriticalFlag(cfg, ScenarioManifest, "x", plan);
  }

  /**
   * Expansion is a single pass: an agent added for one group does not
   * trigger another group ("a" brings "b", but "b"'s companion "c" is not
   * added).
   */
  lemma ExpansionIsSinglePass()
    ensures var groups := [("g1", CompleteGroup(["a"], ["b"])), ("g2", CompleteGroup(["b"], ["c"]))];
            forall s :: IsSuggestion(groups, ["a"], s) <==> s == "b"
  {
    var groups := [("g1", CompleteGroup(["a"], ["b"])), ("g2", CompleteGroup(["b"], ["c"]))];
    assert groups[0].1.triggerAgents[0] in ["a"];
    assert !Triggered(groups[1].1, ["a"]);
  }

  /** One complete group: selecting "b" demands "a". */
  const ExpansionGroups: seq<(string, CompleteGroup)> := [("g", CompleteGroup(["b"], ["a"]))]

  lemma NothingMissingFromBA()
    ensures Missing(["a"], ["b", "a"]) == []
  {
    assert ["a"][..0] == [];
  }

  /**
   * The first plan for the stored rule ["b"] adds exactly "a" and is
   * flagged as missing the critical agent.
   */
  lemma FirstPlanAddsCritical(added: seq<string>, first: InvocationPlan)
    requires PlannedWith(ScenarioConfig(ExpansionGroups), ScenarioManifest, "x", added, first)
    ensures added == ["a"]
    ensures first.requestType == "T"
    ensures !first.criticalAgentsIncluded
  {
    var cfg := ScenarioConfig(ExpansionGroups);
    ScenarioClassifies(ExpansionGroups);
    assert Triggered(ExpansionGroups[0].1, ["b"]) by {
      assert ExpansionGroups[0].1.triggerAgents[0] in ["b"];
    }
    forall a ensures IsSuggestion(cfg.completeGroups, ["b"], a) <==> a == "a" {
    }
    SingletonOf(added, "a");
    MissingAOfB();
  }

  /**
   * Planned again after the first plan extended the rule to ["b", "a"]:
   * nothing is added, the critical agent is selected, and no warning is
   * raised.
   */
  lemma SecondPlanIsClean(after: OrchConfig, second: InvocationPlan)
    requires after.completeGroups == ExpansionGroups && ConfirmThreshold(after) == 10
    requires SelectedAgents(after, ScenarioManifest, "x") == ["b", "a"]
    requires IsPlanFor(after, ScenarioManifest, "x", second)
    ensures second.agentsToInvoke == ["b", "a"]
    ensures second.criticalAgentsIncluded
    ensures second.warnings == []
    ensures !second.requiresConfirmation
  {
    var added :| PlannedWith(after, ScenarioManifest, "x", added, second);
    forall s ensures !IsSuggestion(after.completeGroups, ["b", "a"], s) {
    }
    NonEmptyHasMember(added);
    NothingMissingFromBA();
  }

  /**
   * Planning the same request twice on one verifier: the first plan adds
   * the critical agent "a" through the complete group and is flagged; the
   * rule list now holds "a", so the second plan is not flagged and carries
   * no warning.
   */
  lemma RepeatedRequestScenario(added: seq<string>, first: InvocationPlan, second: InvocationPlan)
    requires PlannedWith(ScenarioConfig(ExpansionGroups), ScenarioManifest, "x", added, first)
    requires IsPlanFor(ExtendSelectionSource(ScenarioConfig(ExpansionGroups), first.requestType, added),
                       ScenarioManifest, "x", second)
    ensures !first.criticalAgentsIncluded && "a" in first.agentsToInvoke
    ensures second.criticalAgentsIncluded
    ensures second.agentsToInvoke == ["b", "a"]
    ensures second.warnings == []
  {
    var cfg := ScenarioConfig(ExpansionGroups);
    FirstPlanAddsCritical(added, first);
    ScenarioClassifies(ExpansionGroups);
    RepeatedRequest(cfg, ScenarioManifest, "x", added, first, second);
    var after := ExtendSelectionSource(cfg, "T", added);
    assert SelectedAgents(after, ScenarioManifest, "x") == ["b"] + ["a"];
    SecondPlanIsClean(after, second);
  }

  /** The same request planned twice on one `InvocationVerifier`. */
  method PlanTwice() returns (first: InvocationPlan, second: InvocationPlan)
    ensures !first.criticalAgentsIncluded
    ensures second.criticalAgentsIncluded && second.warnings == []
  {
    var verifier := new InvocationVerifier(ScenarioConfig(ExpansionGroups), ScenarioManifest);
    first := verifier.CreateInvocationPlan("x");
    ghost var added :| PlannedWith(ScenarioConfig(ExpansionGroups), ScenarioManifest, "x", added, first)
                       && verifier.config == ExtendSelectionSource(ScenarioConfig(ExpansionGroups), first.requestType, added);
    second := verifier.CreateInvocationPlan("x");
    RepeatedRequestScenario(added, first, second);
  }
}
