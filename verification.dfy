/**
 * Reconciling a plan against the agents actually invoked
 * (`verify_invocation_completeness`).  The wall-clock `actual_time` is not
 * modelled; issues are a tagged datatype carrying what the source formats.
 */
module Verification {
  import opened Lists
  import opened Config
  import opened Planner

  datatype Issue =
    | CriticalSkipped(agents: seq<string>)
    | LowCompletionRate(rate: real)

  datatype InvocationResult = InvocationResult(
    plan: InvocationPlan,
    agentsInvoked: seq<string>,
    agentsFailed: seq<string>,
    agentsSkipped: seq<string>,
    actualCost: real,
    success: bool,
    issues: seq<Issue>)

  /** Below this completion rate a result carries a low-completion issue. */
  const CompletionThreshold: real := 0.9

  /** invoked / planned, and 0 for an empty plan. */
  function CompletionRate(invoked: nat, planned: nat): real {
    if planned == 0 then 0.0 else invoked as real / planned as real
  }

  /** The result the source computes for `plan` and the reported `actuallyInvoked` list. */
  function VerifyResult(cfg: OrchConfig, manifest: Manifest, plan: InvocationPlan,
                        actuallyInvoked: seq<string>): InvocationResult
  {
    var invoked := Common(plan.agentsToInvoke, actuallyInvoked);
    var skipped := Missing(plan.agentsToInvoke, actuallyInvoked);
    var criticalSkipped := Common(manifest.criticalAgents, skipped);
    var rate := CompletionRate(|invoked|, |plan.agentsToInvoke|);
    InvocationResult(
      plan, invoked, [], skipped,
      |invoked| as real * CostPerAgent(cfg),
      criticalSkipped == [],
      (if criticalSkipped != [] then [CriticalSkipped(criticalSkipped)] else [])
      + (if rate < CompletionThreshold then [LowCompletionRate(rate)] else []))
  }

  /** `VerifyResult` assembled from its three filtered lists. */
  lemma VerifyResultFrom(cfg: OrchConfig, manifest: Manifest, plan: InvocationPlan, actuallyInvoked: seq<string>,
                         invoked: seq<string>, skipped: seq<string>, criticalSkipped: seq<string>)
    requires invoked == Common(plan.agentsToInvoke, actuallyInvoked)
    requires skipped == Missing(plan.agentsToInvoke, actuallyInvoked)
    requires criticalSkipped == Common(manifest.criticalAgents, skipped)
    ensures VerifyResult(cfg, manifest, plan, actuallyInvoked) ==
              var rate := CompletionRate(|invoked|, |plan.agentsToInvoke|);
              InvocationResult(
                plan, invoked, [], skipped, |invoked| as real * CostPerAgent(cfg), criticalSkipped == [],
                (if criticalSkipped != [] then [CriticalSkipped(criticalSkipped)] else [])
                + (if rate < CompletionThreshold then [LowCompletionRate(rate)] else []))
  {
  }

  method VerifyInvocationCompleteness(cfg: OrchConfig, manifest: Manifest, plan: InvocationPlan,
                                      actuallyInvoked: seq<string>) returns (result: InvocationResult)
    ensures result == VerifyResult(cfg, manifest, plan, actuallyInvoked)
  {
    var planned := plan.agentsToInvoke;
    var agentsInvoked: seq<string> := [];
    var agentsFailed: seq<string> := [];
    var agentsSkipped: seq<string> := [];
    var i := 0;
    while i < |planned|
      invariant 0 <= i <= |planned|
      invariant agentsInvoked == Common(planned[..i], actuallyInvoked)
      invariant agentsSkipped == Missing(planned[..i], actuallyInvoked)
    {
      CommonSnoc(planned, i, actuallyInvoked);
      MissingSnoc(planned, i, actuallyInvoked);
      if planned[i] in actuallyInvoked {
        agentsInvoked := agentsInvoked + [planned[i]];
      } else {
        agentsSkipped := agentsSkipped + [planned[i]];
      }
      i := i + 1;
    }
    assert planned[..|planned|] == planned;

    var actualCost := |agentsInvoked| as real * CostPerAgent(cfg);

    var issues: seq<Issue> := [];
    var success := true;

    var critical := manifest.criticalAgents;
    var criticalSkipped: seq<string> := [];
    var j := 0;
    while j < |critical|
      invariant 0 <= j <= |critical|
      invariant criticalSkipped == Common(critical[..j], agentsSkipped)
    {
      CommonSnoc(critical, j, agentsSkipped);
      if critical[j] in agentsSkipped {
        criticalSkipped := criticalSkipped + [critical[j]];
      }
      j := j + 1;
    }
    assert critical[..|critical|] == critical;

    if |criticalSkipped| > 0 {
      success := false;
      issues := issues + [CriticalSkipped(criticalSkipped)];
    }

    var completionRate := CompletionRate(|agentsInvoked|, |planned|);
    if completionRate < 0.9 {
      issues := issues + [LowCompletionRate(completionRate)];
    }

    result := InvocationResult(plan, agentsInvoked, agentsFailed, agentsSkipped, actualCost, success, issues);
    VerifyResultFrom(cfg, manifest, plan, actuallyInvoked, agentsInvoked, agentsSkipped, criticalSkipped);
  }

  /**
   * Invoked and skipped split the plan: invoked are the planned agents that
   * were reported, skipped the others, each in plan order; nothing is ever
   * reported as failed, and the cost is charged per invoked agent.
   */
  lemma ResultPartitionsPlan(cfg: OrchConfig, manifest: Manifest, plan: InvocationPlan, actuallyInvoked: seq<string>)
    ensures forall a :: a in VerifyResult(cfg, manifest, plan, actuallyInvoked).agentsInvoked <==>
                          a in plan.agentsToInvoke && a in actuallyInvoked
    ensures forall a :: a in VerifyResult(cfg, manifest, plan, actuallyInvoked).agentsSkipped <==>
                          a in plan.agentsToInvoke && a !in actuallyInvoked
    ensures VerifyResult(cfg, manifest, plan, actuallyInvoked).agentsFailed == []
    ensures VerifyResult(cfg, manifest, plan, actuallyInvoked).actualCost ==
              |VerifyResult(cfg, manifest, plan, actuallyInvoked).agentsInvoked| as real * CostPerAgent(cfg)
  {
    CommonMembers(plan.agentsToInvoke, actuallyInvoked);
    MissingMembers(plan.agentsToInvoke, actuallyInvoked);
  }

  /** Together invoked and skipped hold each planned agent exactly as often as the plan does. */
  lemma ResultCoversPlan(cfg: OrchConfig, manifest: Manifest, plan: InvocationPlan, actuallyInvoked: seq<string>)
    ensures multiset(VerifyResult(cfg, manifest, plan, actuallyInvoked).agentsInvoked)
            + multiset(VerifyResult(cfg, manifest, plan, actuallyInvoked).agentsSkipped)
            == multiset(plan.agentsToInvoke)
  {
    CommonMissingPartition(plan.agentsToInvoke, actuallyInvoked);
  }

  /** Success fails exactly when some critical agent was planned but not reported as invoked. */
  lemma SuccessIffNoCriticalSkipped(cfg: OrchConfig, manifest: Manifest, plan: InvocationPlan, actuallyInvoked: seq<string>)
    ensures VerifyResult(cfg, manifest, plan, actuallyInvoked).success <==>
              forall c :: c in manifest.criticalAgents && c in plan.agentsToInvoke ==> c in actuallyInvoked
  {
    var skipped := Missing(plan.agentsToInvoke, actuallyInvoked);
    MissingMembers(plan.agentsToInvoke, actuallyInvoked);
    CommonEmpty(manifest.criticalAgents, skipped);
  }

  /** The 90% test in integers: the rate is low iff the plan is empty or 10·invoked < 9·planned. */
  lemma {:induction false} LowRateIff(invoked: nat, planned: nat)
    ensures CompletionRate(invoked, planned) < CompletionThreshold <==> planned == 0 || 10 * invoked < 9 * planned
  {
    if planned > 0 {
      var p, x := planned as real, invoked as real;
      var rate := x / p;
      assert rate * p == x;
      ScaleLess(rate, 0.9, p);
      assert 0.9 * p * 10.0 == 9.0 * p;
      ScaleLess(x, 0.9 * p, 10.0);
      assert (10 * invoked) as real == x * 10.0 && (9 * planned) as real == 9.0 * p;
    }
  }

  /** Multiplying both sides by a positive number keeps a strict inequality, both ways. */
  lemma ScaleLess(a: real, b: real, p: real)
    requires p > 0.0
    ensures a < b <==> a * p < b * p
  {
    assert b * p - a * p == (b - a) * p;
    if a < b {
      assert (b - a) * p > 0.0;
    } else {
      assert (a - b) * p >= 0.0;
    }
  }

  /**
   * The issues: a critical-skip issue (naming the skipped critical agents in
   * critical-list order) iff success is false, then a low-completion issue
   * iff the rate is below 90%.  A low rate never clears success.
   */
  lemma ResultIssues(cfg: OrchConfig, manifest: Manifest, plan: InvocationPlan, actuallyInvoked: seq<string>)
    ensures var r := VerifyResult(cfg, manifest, plan, actuallyInvoked);
            var low := |plan.agentsToInvoke| == 0 || 10 * |r.agentsInvoked| < 9 * |plan.agentsToInvoke|;
            && |r.issues| == (if r.success then 0 else 1) + (if low then 1 else 0)
            && (!r.success ==> r.issues[0] == CriticalSkipped(Common(manifest.criticalAgents, r.agentsSkipped)))
            && (low ==> r.issues[|r.issues| - 1] == LowCompletionRate(CompletionRate(|r.agentsInvoked|, |plan.agentsToInvoke|)))
            && (r.success <==> Common(manifest.criticalAgents, r.agentsSkipped) == [])
  {
    var r := VerifyResult(cfg, manifest, plan, actuallyInvoked);
    CommonMissingPartition(plan.agentsToInvoke, actuallyInvoked);
    LowRateIff(|r.agentsInvoked|, |plan.agentsToInvoke|);
  }
}

/** Concrete reconciliations, including the cases where success and the rate disagree. */
module VerificationScenarios {
  import opened Wrappers
  import opened Lists
  import opened Config
  import opened Planner
  import opened Verification

  function PlanOf(agents: seq<string>): InvocationPlan {
    InvocationPlan("r", "t", agents, 0.0, 0.0, false, true, [])
  }

  const CriticalA: Manifest := Manifest(["a", "b", "c", "d", "e"], ["a"], None)

  lemma FourOfFiveSplit()
    ensures Common(["a", "b", "c", "d", "e"], ["a", "b", "c", "d"]) == ["a", "b", "c", "d"]
    ensures Missing(["a", "b", "c", "d", "e"], ["a", "b", "c", "d"]) == ["e"]
  {
    var planned := ["a", "b", "c", "d", "e"];
    var reported := ["a", "b", "c", "d"];
    assert planned[..4] == reported;
    assert "e" !in reported;
    CommonAll(reported, reported);
    MissingEmpty(reported, reported);
  }

  /** Four of five invoked, critical agent among them: 80% gives a low-rate issue but success stays true. */
  lemma FourOfFive()
    ensures var r := VerifyResult(EmptyConfig, CriticalA, PlanOf(["a", "b", "c", "d", "e"]), ["a", "b", "c", "d"]);
            && r.agentsSkipped == ["e"]
            && r.success
            && r.issues == [LowCompletionRate(0.8)]
  {
    FourOfFiveSplit();
    assert ["a"][..0] == [];
    assert Common(["a"], ["e"]) == [];
    assert CompletionRate(4, 5) == 0.8;
  }

  /** A single critical agent not invoked: rate 0, success false, both issues in order. */
  lemma CriticalNotInvoked()
    ensures var r := VerifyResult(EmptyConfig, CriticalA, PlanOf(["a"]), []);
            && !r.success
            && r.issues == [CriticalSkipped(["a"]), LowCompletionRate(0.0)]
  {
    assert ["a"][..0] == [];
    assert Missing(["a"], []) == ["a"];
    assert Common(["a"], ["a"]) == ["a"];
  }

  /** An empty plan: rate 0, so a low-completion issue, while success stays true. */
  lemma EmptyPlan(actuallyInvoked: seq<string>)
    ensures var r := VerifyResult(EmptyConfig, CriticalA, PlanOf([]), actuallyInvoked);
            && r.success
            && r.agentsInvoked == [] && r.agentsSkipped == []
            && r.issues == [LowCompletionRate(0.0)]
  {
    var skipped := Missing([], actuallyInvoked);
    CommonEmpty(CriticalA.criticalAgents, skipped);
  }
}
