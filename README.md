# ORCH team invocation: a Dafny model

ORCH runs a roster of named specialist agents against a work request. This
project models its decision core in Dafny and proves properties of that model.
The core has two parts.

- **Invocation verifier** (`InvocationVerifier`). It classifies a request
  into a request type and selects the agents for that type. It reports
  critical agents the selection misses. It adds the missing members of
  "complete groups" whose trigger agents were selected. It estimates time
  and cost and builds the invocation plan. Separately, it reconciles a plan
  against the agents reported as actually invoked, and it decides whether
  the operator's answer confirms a large invocation.
- **Roster discovery** (`AgentDiscovery`). It filters agent definition
  files by name and builds the table of discovered agents with a display
  name and a validity flag. It lists the valid agents for a request type,
  checks the table against the team manifest and an expected count, and
  reports which of six hardcoded critical agents are absent or invalid.

Modules, one per file:

- `Wrappers`: `Option`.
- `Text`: ASCII `lower()` and `title()`, and substring search.
- `Lists`: list filters and duplicate removal.
- `Config`: the configuration document and the team manifest, as values.
- `Classifier`: `parse_request`.
- `Selector`: `get_agents_for_request`, `check_critical_agents` and `check_group_completeness`.
- `Planner`: `estimate_resources` and `create_invocation_plan`.
- `Confirmation`: the decision of `get_confirmation`.
- `Verification`: `verify_invocation_completeness`.
- `Discovery`: the `AgentDiscovery` class.

The `...Scenarios` modules prove concrete cases.

`InvocationVerifier` holds the loaded configuration and manifest. Almost
all of its operations only read them, so those operations are functions of
the configuration and manifest passed as datatype values. Building a plan
is the exception, because it can change the configuration (see below). So
`Planner.InvocationVerifier` is a class: `config` is a field that
`CreateInvocationPlan` modifies, and the manifest is a constant field.
`AgentDiscovery` assigns `discovered_agents`, so it is a class with that
field too. The methods that change a field say so in `modifies`, and the
functions that read one say so in `reads`.

Python dictionaries whose iteration order matters become ordered sequences
of (key, value) pairs: aliases, complete groups, and the discovered-agent
table. Assigning to such a table replaces the entry in place, or appends one
when the key is new. Dictionaries that are only looked up become maps:
rules and presets.

`list(set(xs))` has no defined order. Every contract that mentions it fixes
only the element set and the absence of duplicates. The plan is given by the
predicate `IsPlanFor`, which admits any order of the additions and of the
merged list. The method `InvocationVerifier.CreateInvocationPlan` is proved
to produce one such plan for the configuration it started from.

In these places the code does something a reader might not expect. The
model does what the code does:

- **Low completion rate.** A rate below 90% only adds an issue
  (orch/scripts/verify-invocation.py:300-301). `success` is set false only
  for skipped critical agents (:293-295). See `Verification.ResultIssues`
  and `VerificationScenarios.FourOfFive`.
- **Empty plan.** The completion rate of an empty plan is 0 (:298). So it
  gets a low-completion issue while `success` stays true. See
  `VerificationScenarios.EmptyPlan`.
- **The configuration grows.** `get_agents_for_request` returns the
  configured list object itself for a rule with an agent list (:108, :114)
  and for a preset (:119). So `agents_list.extend(suggested_additions)`
  (:183) appends the additions to that configured list. The next plan for
  the same request type then starts from the longer list. An "all" rule, a
  missing `agents` field and an unknown type build a fresh list, which is
  then not shared. See `Planner.ExtendSelectionSource`,
  `Planner.RepeatedRequest` and `PlannerScenarios.RepeatedRequestScenario`.
  There, a first plan is flagged as missing the critical agent that
  expansion added. A second plan for the same request is not flagged and
  has no warnings, so repeating a request is not idempotent.
- **Critical flag.** `critical_agents_included` and the missing-critical
  warning come from the selection *before* complete-group expansion
  (:176, :179-184). A critical agent that only expansion adds still leaves
  the flag false. See `Planner.PlanCriticalFlag` and
  `PlannerScenarios.CriticalFlagIgnoresExpansion`. For a stored list this
  holds for the first plan of a request type; later plans see the earlier
  additions, as above.
- **Duplicates.** They are removed only when expansion added something
  (:182-184). Otherwise the selected list is used as it is. See
  `Planner.PlanNoDup`.
- **Default selection.** The verifier's fallback selects every agent key in
  the manifest, valid or not (:122). Only the discovery side filters by
  validity (orch/scripts/discover-agents.py:159).
- **Expansion depth.** Expansion is one pass over the groups, evaluated against
  the selection (orch/scripts/verify-invocation.py:141-150). An added agent
  does not trigger further groups within that plan. See
  `PlannerScenarios.ExpansionIsSinglePass`. A later plan that starts from a
  grown stored list can trigger them.

## Model

| member | source | states |
|---|---|---|
| Text.Lower | orch/scripts/verify-invocation.py:69 | `lower()` keeps the length and maps every character through the ASCII lower-case map |
| Text.Contains | orch/scripts/verify-invocation.py:76-80 | Python's `needle in hay` for strings, as a left-to-right scan; its meaning is proved in `Text.ContainsIff` |
| Text.ContainsIff | orch/scripts/verify-invocation.py:76-80 | the left-to-right substring scan behind Python's `in` succeeds iff the needle occurs at some position |
| Text.NotContainsByChar | orch/scripts/discover-agents.py:36-40 | a text lacking some character of the needle does not contain the needle |
| Text.Title | orch/scripts/discover-agents.py:108 | `title()` keeps the length, and each character is cased by whether the character before it is a letter |
| Lists.Missing | orch/scripts/verify-invocation.py:129-131 | the members of one list absent from another, in order (also :275-279 and :148-150); proved in `Lists.MissingMembers` and `Lists.MissingEmpty` |
| Lists.Common | orch/scripts/verify-invocation.py:275-277 | the members of one list present in another, in order; proved in `Lists.CommonMembers`, `Lists.CommonAll` and `Lists.CommonMissingPartition` |
| Lists.Distinct | orch/scripts/verify-invocation.py:152 | duplicate removal gives a duplicate-free list with exactly the input's elements |
| Lists.CommonAll | orch/scripts/verify-invocation.py:275-276 | filtering a list by a second list that holds all its elements keeps the list unchanged, in order |
| Lists.CommonMissingPartition | orch/scripts/verify-invocation.py:275-279 | the kept and dropped parts of a filtered list are together a permutation of it |
| Classifier.MatchAliasFound | orch/scripts/verify-invocation.py:71-80 | a matched alias type is the key of an entry with a phrase contained in the lowercased request, and no earlier entry matches |
| Classifier.MatchAliasFirst | orch/scripts/verify-invocation.py:74-80 | the first entry, in configured order, with a matching phrase decides the type |
| Classifier.MatchAliasNone | orch/scripts/verify-invocation.py:74-80 | with no matching phrase no alias type is returned |
| Classifier.KeywordTag | orch/scripts/verify-invocation.py:82-100 | the keyword chain over the lowercased request; its priority rule is `Classifier.KeywordPriority` |
| Classifier.KeywordPriority | orch/scripts/verify-invocation.py:82-100 | the fallback chain yields one of the eight fixed request types; each fallback type is returned iff its keyword test holds and no earlier test holds; "whole_team" iff no domain keyword but a review verb; "custom" iff neither |
| Classifier.ParseRequest | orch/scripts/verify-invocation.py:67-100 | the first matching alias entry's type, else the keyword chain over the lowercased request; proved in `Classifier.ParseRequestAlias`, `Classifier.ParseRequestFallback` and `Classifier.ParseRequestRange` |
| Classifier.ParseRequestRange | orch/scripts/verify-invocation.py:67-100 | the request type is a fixed fallback type or the key of a configured alias |
| Classifier.ParseRequestAlias | orch/scripts/verify-invocation.py:71-80 | an alias entry that matches, with no earlier match, decides the type |
| Classifier.ParseRequestFallback | orch/scripts/verify-invocation.py:82-100 | with no alias match the keyword chain over the lowercased request decides |
| Classifier.ParseRequestIgnoresCase | orch/scripts/verify-invocation.py:69 | lowercasing the request first does not change its type |
| Classifier.FirstAliasInAnyContext | orch/scripts/verify-invocation.py:74-80 | a request holding the first alias entry's phrase, in any surrounding text, gets that entry's type |
| Selector.AgentsForRequest | orch/scripts/verify-invocation.py:102-122 | a rule's "all" gives the manifest's agents, a rule's list gives that list, a missing field gives nothing; a preset gives its list; an unknown type gives the manifest's agents |
| Selector.SelectionSources | orch/scripts/verify-invocation.py:102-122 | the fail-open default selects exactly the manifest's agents without duplicates; otherwise the selection is the configured rule or preset list |
| Selector.CheckCriticalAgents | orch/scripts/verify-invocation.py:124-134 | the missing list is exactly the critical agents absent from the list, in critical-list order, and the flag is true iff that list is empty iff every critical agent is listed |
| Selector.RawSuggestionsMembers | orch/scripts/verify-invocation.py:136-150 | an agent is suggested iff it is a missing `must_include` member of a group with a selected trigger agent |
| Selector.DistinctSuggestions | orch/scripts/verify-invocation.py:150-152 | duplicate removal keeps exactly the suggested agents |
| Selector.AppendMissing | orch/scripts/verify-invocation.py:148-150 | the inner loop appends, in order, exactly the `must_include` members absent from the list |
| Selector.CheckGroupCompleteness | orch/scripts/verify-invocation.py:136-152 | the suggestions are duplicate-free and are exactly the missing `must_include` members of triggered groups |
| Planner.EstimateResources | orch/scripts/verify-invocation.py:154-165 | time is agents times the per-agent time plus the overhead, and cost is agents times the per-agent cost, with the configured or default rates; proved in the three lemmas below |
| Planner.EstimateResourcesLinear | orch/scripts/verify-invocation.py:154-165 | each further agent adds the per-agent time and cost; no agents cost only the time overhead |
| Planner.EstimateResourcesDefaults | orch/scripts/verify-invocation.py:158-163 | without a resource section the estimate is 0.5 per agent plus 2 time units, and 0.10 cost per agent |
| Planner.EstimateResourcesMonotone | orch/scripts/verify-invocation.py:162-163 | with non-negative rates the estimates are non-negative and grow with the number of agents |
| Planner.PlanWarningsSpec | orch/scripts/verify-invocation.py:197-206 | the warnings come in the order missing-critical, additions, large; each is present iff its condition holds, and there are no others |
| Planner.MergedAgents | orch/scripts/verify-invocation.py:182-184 | merging the selection with the additions gives a duplicate-free list holding exactly the agents of both |
| Planner.PlanFromParts | orch/scripts/verify-invocation.py:167-220 | a plan assembled from the selection, its missing critical agents, an addition list, the estimates, the confirmation flag and the warnings as the source computes them is a plan for the request |
| Planner.BuildWarnings | orch/scripts/verify-invocation.py:197-206 | the warnings built are the plan warnings for the missing critical agents, the additions and the final size |
| Planner.ExtendSelectionSource | orch/scripts/verify-invocation.py:106-119 | the extension changes only the rule and preset entries, keeps their keys, and changes nothing when there are no additions or the selection was a fresh list |
| Planner.ExtendedSelection | orch/scripts/verify-invocation.py:102-122 | after the extension the request type selects the old selection followed by the additions when that selection was a stored list, the old selection otherwise, and every other type selects what it did before |
| Planner.InvocationVerifier.CreateInvocationPlan | orch/scripts/verify-invocation.py:167-220 | the plan built is a plan for the configuration on entry: its type, selection, expansion, critical flag, estimates, confirmation flag and warnings are those the source computes; the configuration afterwards is the entry configuration with that plan's additions appended to the stored selection list |
| Planner.RepeatedRequest | orch/scripts/verify-invocation.py:173-184 | planning the same request after the extension gives the same type; the selection has grown by the first plan's additions when it was stored, and then the critical flag holds iff every critical agent is in the first plan's agent list; otherwise the flag is unchanged |
| Planner.PlanCriticalFlag | orch/scripts/verify-invocation.py:173-176 | the critical flag holds iff every critical agent was in the selection before expansion |
| Planner.PlanAgents | orch/scripts/verify-invocation.py:173-184 | the plan keeps every selected agent, adds only group suggestions, and holds every `must_include` member of each group the selection triggers |
| Planner.PlanNoDup | orch/scripts/verify-invocation.py:182-184 | a duplicate-free selection gives a duplicate-free plan |
| Planner.PlanConfirmationAndEstimates | orch/scripts/verify-invocation.py:187-195 | confirmation is required iff the plan has more agents than the threshold (10 by default), and the estimates are linear in the plan's size |
| Planner.PlanWithoutGroups | orch/scripts/verify-invocation.py:179-184 | without complete groups the plan's agents are the selection as it is, and the warnings carry no additions entry |
| Planner.PlanWarningsMatchFlags | orch/scripts/verify-invocation.py:197-206 | warnings are ordered; a missing-critical warning is present iff the critical flag is false; a large-invocation warning iff the plan exceeds 25 agents |
| Planner.WarningKinds | orch/scripts/verify-invocation.py:197-206 | the warning list has a missing-critical entry iff the missing list is non-empty, and a large entry iff the count exceeds 25 |
| PlannerScenarios.ScenarioClassifies | orch/scripts/verify-invocation.py:67-122 | a request matching alias "T" is typed "T" and selects the rule's list ["b"] |
| PlannerScenarios.SingleAgentPlan | orch/scripts/verify-invocation.py:179-195 | a one-agent selection without complete groups gives a one-agent plan that needs no confirmation at a threshold of at least 1 |
| PlannerScenarios.MissingCriticalPlan | orch/scripts/verify-invocation.py:173-206 | when the one selected agent is not the one critical agent, the critical flag is false and the only warning names the critical agent |
| PlannerScenarios.MissingCriticalScenario | orch/scripts/verify-invocation.py:167-220 | with critical agent "a" excluded by the rule, the plan is ["b"], the critical flag is false, and the only warning names "a" |
| PlannerScenarios.CriticalFlagIgnoresExpansion | orch/scripts/verify-invocation.py:175-184 | when only group expansion brings in the critical agent, the plan holds it but the critical flag is still false |
| PlannerScenarios.ExpansionIsSinglePass | orch/scripts/verify-invocation.py:136-152 | an agent added for one group does not trigger a further group |
| PlannerScenarios.FirstPlanAddsCritical | orch/scripts/verify-invocation.py:173-184 | for rule ["b"] and a group from "b" to the critical agent "a", the first plan adds exactly ["a"] and is flagged |
| PlannerScenarios.SecondPlanIsClean | orch/scripts/verify-invocation.py:173-206 | once the selection is ["b", "a"], the plan is ["b", "a"], not flagged, without warnings and without confirmation |
| PlannerScenarios.RepeatedRequestScenario | orch/scripts/verify-invocation.py:167-220 | the same request planned twice: the first plan holds "a" but is flagged, the second is ["b", "a"], not flagged, and has no warnings |
| PlannerScenarios.PlanTwice | orch/scripts/verify-invocation.py:167-220 | two calls of `create_invocation_plan` with the same request on one verifier give a flagged plan and then an unflagged plan without warnings |
| Confirmation.GetConfirmation | orch/scripts/verify-invocation.py:389-410 | whether the operator's answer lets the invocation proceed at the plan's confirmation level; stated in `Confirmation.ConfirmationDecision` |
| Confirmation.ConfirmationDecision | orch/scripts/verify-invocation.py:389-410 | without confirmation the invocation proceeds; above the double threshold (25 by default) only the exact "YES" proceeds; otherwise only "y", "yes" or an empty answer, in any case |
| Confirmation.ConfirmationCase | orch/scripts/verify-invocation.py:403-410 | at the single level the decision ignores the answer's case, and "YES" is accepted at every level |
| Confirmation.DoubleRefusesLowercase | orch/scripts/verify-invocation.py:403-407 | at the double level "yes", "y" and the empty answer are refused |
| Confirmation.ThirtyAgentsNeedDouble | orch/scripts/verify-invocation.py:192-195 | thirty agents at the default thresholds require confirmation at the double level |
| Verification.VerifyResult | orch/scripts/verify-invocation.py:265-315 | the reconciliation of a plan with the reported agents; its properties are `Verification.ResultPartitionsPlan`, `ResultCoversPlan`, `SuccessIffNoCriticalSkipped`, `LowRateIff` and `ResultIssues` |
| Verification.VerifyInvocationCompleteness | orch/scripts/verify-invocation.py:265-315 | the result built is the reconciliation of the plan with the reported agents |
| Verification.ResultPartitionsPlan | orch/scripts/verify-invocation.py:275-283 | invoked are the planned agents that were reported, skipped the others; nothing is reported as failed; cost is charged per invoked agent |
| Verification.ResultCoversPlan | orch/scripts/verify-invocation.py:275-279 | invoked and skipped together are a permutation of the plan |
| Verification.SuccessIffNoCriticalSkipped | orch/scripts/verify-invocation.py:287-295 | success holds iff every planned critical agent was reported as invoked |
| Verification.LowRateIff | orch/scripts/verify-invocation.py:298-300 | the rate is below 90% iff the plan is empty or 10·invoked < 9·planned |
| Verification.ResultIssues | orch/scripts/verify-invocation.py:286-301 | a critical-skip issue naming the skipped critical agents comes first iff success is false; a low-rate issue comes last iff the rate is low; there are no others |
| VerificationScenarios.FourOfFive | orch/scripts/verify-invocation.py:286-301 | four of five invoked, critical agent included: success, with a single 80% low-rate issue |
| VerificationScenarios.CriticalNotInvoked | orch/scripts/verify-invocation.py:286-301 | a one-agent critical plan with nothing invoked fails and carries the critical-skip issue, then a 0% low-rate issue |
| VerificationScenarios.EmptyPlan | orch/scripts/verify-invocation.py:298-301 | an empty plan succeeds with nothing invoked or skipped, and carries a 0% low-rate issue |
| Discovery.IsExcluded | orch/scripts/discover-agents.py:40 | a file name contains one of the five excluded patterns as a case-sensitive substring |
| Discovery.KeptFilesMembers | orch/scripts/discover-agents.py:36-44 | a file is kept iff it was listed and its name contains no excluded pattern |
| Discovery.SelectAgentFiles | orch/scripts/discover-agents.py:21-44 | the filter keeps, in listing order, exactly the names that contain none of the five excluded patterns |
| Discovery.FormatAgentName | orch/scripts/discover-agents.py:106-108 | the name has the slug's length; dashes become spaces; a letter at the start or after a non-letter is upper-cased, any other letter lower-cased; other characters are kept |
| Discovery.LookupHasKey | orch/scripts/discover-agents.py:250 | looking an agent up finds an entry iff the agent is a key of the table |
| Discovery.PutLookup | orch/scripts/discover-agents.py:64-79 | assigning an entry binds its key to it and changes no other key's entry |
| Discovery.PutKeys | orch/scripts/discover-agents.py:64-79 | after assignment the keys are the old keys plus the new one, and the table grows only for a new key |
| Discovery.PutDistinct | orch/scripts/discover-agents.py:64-79 | assignment keeps the table's keys distinct |
| Discovery.ProcessedAgents | orch/scripts/discover-agents.py:49-82 | the table built by assigning each file's entry under its stem, in listing order; proved in the four `ProcessedAgents...` lemmas |
| Discovery.ProcessedAgentsDistinct | orch/scripts/discover-agents.py:49-82 | the table built never holds the same stem twice |
| Discovery.ProcessedAgentsKeys | orch/scripts/discover-agents.py:49-82 | the table has a key exactly for each file stem |
| Discovery.ProcessedAgentsNames | orch/scripts/discover-agents.py:64-79 | every entry is named by formatting its own key |
| Discovery.ProcessedAgentsEntries | orch/scripts/discover-agents.py:49-82 | with distinct stems, each file's entry records its own name and read outcome |
| Discovery.AgentDiscovery.ProcessAgentFiles | orch/scripts/discover-agents.py:49-82 | the table built file by file replaces the discovered agents and keeps the keys distinct |
| Discovery.ValidAgents | orch/scripts/discover-agents.py:159 | the keys of valid entries, in table order; proved in `Discovery.ValidAgentsMembers` |
| Discovery.ValidAgentsMembers | orch/scripts/discover-agents.py:159 | an agent is listed as valid iff it has a valid entry |
| Discovery.AgentDiscovery.GenerateInvocationList | orch/scripts/discover-agents.py:145-178 | "whole_team" and "all" give the valid agents before any rule applies; a rule's "all" gives the valid agents, its list gives that list, a missing field gives nothing; a preset gives its list; an unknown type gives the valid agents |
| Discovery.CompletenessIssues | orch/scripts/discover-agents.py:110-143 | the manifest issues, then the expected-count issue, then one issue per invalid entry; proved in `Discovery.CompletenessIssuesSpec` |
| Discovery.CompletenessIssuesSpec | orch/scripts/discover-agents.py:110-143 | each issue appears exactly when its check fails: manifest count, each undiscovered critical agent, a given non-zero expected count, and each invalid entry |
| Discovery.CompletenessValidIff | orch/scripts/discover-agents.py:110-143 | validation passes iff the table matches the manifest count and holds its critical agents, matches a given non-zero expected count, and has no invalid entry |
| Discovery.AppendMissingRequired | orch/scripts/discover-agents.py:129-131 | the critical-agent loop appends, in order, an issue for each critical agent that is not a key of the table |
| Discovery.AppendInvalidFiles | orch/scripts/discover-agents.py:138-140 | the entry loop appends, in table order, an issue for each invalid entry |
| Discovery.AgentDiscovery.ValidateCompleteness | orch/scripts/discover-agents.py:110-143 | the issues are the completeness issues in check order, and the verdict is true iff there are none |
| Discovery.AbsentOrInvalidAgents | orch/scripts/discover-agents.py:248-252 | the listed ids that are not keys of the table or whose entry is invalid, in list order; proved in `Discovery.AbsentOrInvalidMembers` |
| Discovery.AbsentOrInvalidMembers | orch/scripts/discover-agents.py:248-251 | an id is reported iff it is listed and absent from the table or invalid |
| Discovery.EmptyTableMissesAll | orch/scripts/discover-agents.py:248-251 | with no agents discovered every id is reported, in order |
| Discovery.AgentDiscovery.CheckForMissingCriticalAgents | orch/scripts/discover-agents.py:238-260 | the report is exactly the six hardcoded critical ids that are absent or invalid, in list order |
| DiscoveryScenarios.ContestFileIsExcluded | orch/scripts/discover-agents.py:21-40 | a file named "contest-judge.md" is excluded, because the test looks for substrings |
| DiscoveryScenarios.KeptWithoutPatternLetters | orch/scripts/discover-agents.py:21-40 | a name lacking 'c', 't', 'R' and 'f' contains no excluded pattern |
| DiscoveryScenarios.LowerCaseReadmeIsKept | orch/scripts/discover-agents.py:21-40 | "readme.md" is kept, because the test is case-sensitive |
| DiscoveryScenarios.EmptyTableMissesAllCritical | orch/scripts/discover-agents.py:238-251 | before any file is processed all six critical ids are reported |

## Left out

- File system, YAML and JSON loading (`load_configuration`, the manifest reads, the directory glob, reading each agent file). Their results are parameters: the configuration and manifest values, the listed file names, and a readability flag per file.
- How a read error happens: an unreadable file, a decoding error, or a failure inside `_extract_metadata`. Only the resulting validity flag is modelled.
- `_extract_metadata`, the `metadata`, `file` and `error` fields, the MD5 checksum, and `save_discovery_cache`. These are parsing and output details that no decision depends on.
- Console output and interaction: `display_plan`, `display_result`, `display_discovery_report`, the prompt text, `main`, and `simulate_invocation`. That last one draws random failures, so the reported invoked list is a parameter. `get_confirmation` takes the typed response as a parameter.
- `log_invocation`, timestamps, and `actual_time`. These are clock and file output. Nothing in the model depends on the elapsed time.
- Text of warnings and issues. They are tagged values carrying the same agent lists, counts and rates the source formats into strings.
- Unicode case mapping. `lower()` and `title()` are modelled over ASCII letters. Other characters are unchanged and count as non-letters.
- Non-list shapes. Configuration values that are neither a list nor the marker "all" (a number for `agents`, say) are outside the datatypes. The same goes for a non-string phrase. Thresholds and the expected count are integers, and rates and costs are reals. Floating-point rounding is not modelled.
- Document shape failures. A configuration document that loads as `None` (an empty YAML file), and fields of the wrong type, make the source raise. The model's configuration type cannot express them.
- Shared lists inside the configuration document. YAML anchors and aliases can make two rules or presets hold the same list object, so one extension at orch/scripts/verify-invocation.py:183 would show in both. `Planner.ExtendSelectionSource` gives each entry its own list.
- Keywords "ai" and "ml" match as raw substrings (so "email" gets the AI/ML type because it contains "ai", and "html" gets it because it contains "ml"), as in the source.
- The scripts under `app/` (test chart and image generation). They are not part of this model.
