/**
 * The loaded configuration document and team manifest, as values.
 * Python dictionaries whose iteration order matters (aliases, complete
 * groups) are ordered sequences of (key, value) pairs; dictionaries that are
 * only looked up (rules, presets) are maps.  A field the document omits is
 * `None`, and each accessor applies the default the source uses.
 */
module Config {
  import opened Wrappers

  /** The `agents` field of an invocation rule: the marker "all" or a literal list. */
  datatype AgentSpec = All | Listed(agents: seq<string>)

  /** One entry of `invocation_rules`; `agents` is `None` when the field is absent. */
  datatype Rule = Rule(agents: Option<AgentSpec>)

  /** One entry of `presets`. */
  datatype Preset = Preset(agents: Option<seq<string>>)

  /** The value of an `invocation_aliases` entry: one phrase or a list of phrases. */
  datatype Phrases = Phrase(phrase: string) | PhraseList(phrases: seq<string>)

  /** One entry of `safety_checks.complete_groups` (an absent list is empty). */
  datatype CompleteGroup = CompleteGroup(triggerAgents: seq<string>, mustInclude: seq<string>)

  datatype OrchConfig = OrchConfig(
    invocationRules: map<string, Rule>,
    presets: map<string, Preset>,
    invocationAliases: seq<(string, Phrases)>,
    completeGroups: seq<(string, CompleteGroup)>,
    requireConfirmationAbove: Option<int>,
    requireDoubleConfirmationAbove: Option<int>,
    timePerAgent: Option<real>,
    timeOverhead: Option<real>,
    estimatedCostPerAgent: Option<real>)

  /**
   * The team manifest: the keys of its `agents` object in document order,
   * `validation.critical_agents_always_include` (empty when absent) and
   * `total_agents`.
   */
  datatype Manifest = Manifest(
    agents: seq<string>,
    criticalAgents: seq<string>,
    totalAgents: Option<int>)

  /** A configuration document with every section absent. */
  const EmptyConfig: OrchConfig :=
    OrchConfig(map[], map[], [], [], None, None, None, None, None)

  function ConfirmThreshold(cfg: OrchConfig): int { cfg.requireConfirmationAbove.GetOr(10) }

  function DoubleConfirmThreshold(cfg: OrchConfig): int { cfg.requireDoubleConfirmationAbove.GetOr(25) }

  function TimePerAgent(cfg: OrchConfig): real { cfg.timePerAgent.GetOr(0.5) }

  function TimeOverhead(cfg: OrchConfig): real { cfg.timeOverhead.GetOr(2.0) }

  function CostPerAgent(cfg: OrchConfig): real { cfg.estimatedCostPerAgent.GetOr(0.10) }
}
