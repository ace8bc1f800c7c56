/**
 * Agent selection: resolving a request-type tag to an agent list
 * (`get_agents_for_request`), the critical-agent comparison
 * (`check_critical_agents`) and complete-group expansion
 * (`check_group_completeness`).
 */
module Selector {
  import opened Wrappers
  import opened Lists
  import opened Config

  /**
   * Rules take precedence over presets; "all" and an unknown tag both give
   * every manifest agent (the fail-open policy), and a rule or preset
   * without an `agents` field gives the empty list.
   */
  function AgentsForRequest(cfg: OrchConfig, manifest: Manifest, requestType: string): (agents: seq<string>)
    ensures requestType in cfg.invocationRules ==>
              agents == match cfg.invocationRules[requestType].agents
                        case Some(All) => manifest.agents
                        case Some(Listed(l)) => l
                        case None => []
    ensures requestType !in cfg.invocationRules && requestType in cfg.presets ==>
              agents == cfg.presets[requestType].agents.GetOr([])
    ensures requestType !in cfg.invocationRules && requestType !in cfg.presets ==>
              agents == manifest.agents
  {
    if requestType in cfg.invocationRules then
      match cfg.invocationRules[requestType].agents
      case Some(All) => manifest.agents
      case Some(Listed(l)) => l
      case None => []
    else if requestType in cfg.presets then
      cfg.presets[requestType].agents.GetOr([])
    else
      manifest.agents
  }

  /** The tag is resolved by the fail-open default rather than by configuration. */
  predicate SelectsEveryAgent(cfg: OrchConfig, requestType: string) {
    if requestType in cfg.invocationRules then cfg.invocationRules[requestType].agents == Some(All)
    else requestType !in cfg.presets
  }

  /**
   * Every selected agent is a manifest agent or is named by the rule or
   * preset the tag resolves to; with duplicate-free manifest keys an
   * "all" or unknown tag selects each manifest agent exactly once.
   */
  lemma SelectionSources(cfg: OrchConfig, manifest: Manifest, requestType: string)
    requires NoDup(manifest.agents)
    ensures SelectsEveryAgent(cfg, requestType) ==>
              NoDup(AgentsForRequest(cfg, manifest, requestType))
              && Elems(AgentsForRequest(cfg, manifest, requestType)) == Elems(manifest.agents)
    ensures !SelectsEveryAgent(cfg, requestType) ==>
              AgentsForRequest(cfg, manifest, requestType) ==
                (if requestType in cfg.invocationRules
                 then (match cfg.invocationRules[requestType].agents
                       case Some(Listed(l)) => l
                       case _ => [])
                 else cfg.presets[requestType].agents.GetOr([]))
  {
  }

  /** The critical agents absent from `agents`, in critical-list order, and whether there are none. */
  method CheckCriticalAgents(manifest: Manifest, agents: seq<string>) returns (allIncluded: bool, missing: seq<string>)
    ensures missing == Missing(manifest.criticalAgents, agents)
    ensures forall a :: a in missing <==> a in manifest.criticalAgents && a !in agents
    ensures allIncluded <==> missing == []
    ensures allIncluded <==> forall c :: c in manifest.criticalAgents ==> c in agents
  {
    var critical := manifest.criticalAgents;
    missing := [];
    var i := 0;
    while i < |critical|
      invariant 0 <= i <= |critical|
      invariant missing == Missing(critical[..i], agents)
    {
      MissingSnoc(critical, i, agents);
      if critical[i] !in agents {
        missing := missing + [critical[i]];
      }
      i := i + 1;
    }
    assert critical[..|critical|] == critical;
    MissingMembers(critical, agents);
    MissingEmpty(critical, agents);
    allIncluded := |missing| == 0;
  }

  /** `any(agent in agents for agent in trigger_agents)`. */
  predicate Triggered(g: CompleteGroup, agents: seq<string>) {
    exists i :: 0 <= i < |g.triggerAgents| && g.triggerAgents[i] in agents
  }

  /** The additions one group asks for: its missing `must_include` members, if triggered. */
  function GroupSuggestions(g: CompleteGroup, agents: seq<string>): seq<string> {
    if Triggered(g, agents) then Missing(g.mustInclude, agents) else []
  }

  /** The suggestions list before duplicate removal, group by group in configured order. */
  function RawSuggestions(groups: seq<(string, CompleteGroup)>, agents: seq<string>): seq<string>
    decreases |groups|
  {
    if groups == [] then []
    else RawSuggestions(groups[..|groups| - 1], agents) + GroupSuggestions(groups[|groups| - 1].1, agents)
  }

  lemma RawSuggestionsSnoc(groups: seq<(string, CompleteGroup)>, i: nat, agents: seq<string>)
    requires i < |groups|
    ensures RawSuggestions(groups[..i + 1], agents) ==
              RawSuggestions(groups[..i], agents) + GroupSuggestions(groups[i].1, agents)
  {
    assert groups[..i + 1][..i] == groups[..i];
  }

  /** `a` is a missing `must_include` member of some triggered group. */
  ghost predicate IsSuggestion(groups: seq<(string, CompleteGroup)>, agents: seq<string>, a: string) {
    a !in agents && exists k :: 0 <= k < |groups| && Triggered(groups[k].1, agents) && a in groups[k].1.mustInclude
  }

  lemma {:induction false} RawSuggestionsMembers(groups: seq<(string, CompleteGroup)>, agents: seq<string>)
    ensures forall a :: a in RawSuggestions(groups, agents) <==> IsSuggestion(groups, agents, a)
    decreases |groups|
  {
    if groups != [] {
      var init, last := groups[..|groups| - 1], groups[|groups| - 1];
      RawSuggestionsMembers(init, agents);
      MissingMembers(last.1.mustInclude, agents);
      forall a ensures a in RawSuggestions(groups, agents) <==> IsSuggestion(groups, agents, a) {
        if IsSuggestion(groups, agents, a) {
          var k :| 0 <= k < |groups| && Triggered(groups[k].1, agents) && a in groups[k].1.mustInclude;
          if k < |init| {
            assert init[k] == groups[k];
          }
        }
        if IsSuggestion(init, agents, a) {
          var k :| 0 <= k < |init| && Triggered(init[k].1, agents) && a in init[k].1.mustInclude;
          assert groups[k] == init[k];
        }
      }
    }
  }

  lemma DistinctSuggestions(groups: seq<(string, CompleteGroup)>, agents: seq<string>)
    ensures forall a :: a in Distinct(RawSuggestions(groups, agents)) <==> IsSuggestion(groups, agents, a)
  {
    var raw := RawSuggestions(groups, agents);
    RawSuggestionsMembers(groups, agents);
    forall a ensures a in Distinct(raw) <==> a in raw {
      assert a in Distinct(raw) <==> a in Elems(Distinct(raw));
    }
  }

  /** The `for required in must_include` loop: appends the members absent from `agents`, in order. */
  method AppendMissing(suggestions: seq<string>, must: seq<string>, agents: seq<string>) returns (extended: seq<string>)
    ensures extended == suggestions + Missing(must, agents)
  {
    extended := suggestions;
    var j := 0;
    while j < |must|
      invariant 0 <= j <= |must|
      invariant extended == suggestions + Missing(must[..j], agents)
    {
      MissingSnoc(must, j, agents);
      if must[j] !in agents {
        extended := extended + [must[j]];
      }
      j := j + 1;
    }
    assert must[..|must|] == must;
  }

  /**
   * The additions complete groups demand: duplicate-free, and exactly the
   * `must_include` members of triggered groups that `agents` lacks.
   */
  method CheckGroupCompleteness(cfg: OrchConfig, agents: seq<string>) returns (suggestions: seq<string>)
    ensures NoDup(suggestions)
    ensures forall a :: a in suggestions <==> IsSuggestion(cfg.completeGroups, agents, a)
    ensures Elems(suggestions) == Elems(RawSuggestions(cfg.completeGroups, agents))
  {
    var groups := cfg.completeGroups;
    var raw: seq<string> := [];
    var i := 0;
    while i < |groups|
      invariant 0 <= i <= |groups|
      invariant raw == RawSuggestions(groups[..i], agents)
    {
      RawSuggestionsSnoc(groups, i, agents);
      var group := groups[i].1;
      if Triggered(group, agents) {
        raw := AppendMissing(raw, group.mustInclude, agents);
      }
      i := i + 1;
    }
    assert groups[..|groups|] == groups;
    suggestions := Distinct(raw);
    DistinctSuggestions(groups, agents);
  }
}
