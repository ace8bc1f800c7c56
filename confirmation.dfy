/**
 * The accept/reject decision of `get_confirmation`, with the operator's
 * typed response passed in instead of read from the terminal.
 */
module Confirmation {
  import opened Text
  import opened Config
  import opened Planner

  datatype ConfirmationLevel = NotRequired | Single | Double

  /** Which prompt the plan gets: none, the `[Y/n]` prompt, or the type-"YES" prompt. */
  function ConfirmationLevelOf(cfg: OrchConfig, plan: InvocationPlan): ConfirmationLevel {
    if !plan.requiresConfirmation then NotRequired
    else if |plan.agentsToInvoke| > DoubleConfirmThreshold(cfg) then Double
    else Single
  }

  /** Whether the invocation may proceed after the operator typed `response`. */
  function GetConfirmation(cfg: OrchConfig, plan: InvocationPlan, response: string): bool {
    match ConfirmationLevelOf(cfg, plan)
    case NotRequired => true
    case Double => response == "YES"
    case Single => Lower(response) in ["y", "yes", ""]
  }

  /**
   * A plan that needs no confirmation proceeds whatever was typed; above the
   * double-confirmation threshold only the exact string "YES" proceeds;
   * otherwise "y", "yes" or an empty line, in any case, proceeds.
   */
  lemma ConfirmationDecision(cfg: OrchConfig, plan: InvocationPlan, response: string)
    ensures !plan.requiresConfirmation ==> GetConfirmation(cfg, plan, response)
    ensures plan.requiresConfirmation && |plan.agentsToInvoke| > DoubleConfirmThreshold(cfg) ==>
              (GetConfirmation(cfg, plan, response) <==> response == "YES")
    ensures plan.requiresConfirmation && |plan.agentsToInvoke| <= DoubleConfirmThreshold(cfg) ==>
              (GetConfirmation(cfg, plan, response) <==> Lower(response) in ["y", "yes", ""])
  {
  }

  /** At the single level the decision ignores case; "YES" is accepted at every level. */
  lemma {:induction false} ConfirmationCase(cfg: OrchConfig, plan: InvocationPlan, response: string)
    ensures ConfirmationLevelOf(cfg, plan) == Single ==>
              GetConfirmation(cfg, plan, Lower(response)) == GetConfirmation(cfg, plan, response)
    ensures GetConfirmation(cfg, plan, "YES")
  {
    LowerIdempotent(response);
    assert Lower("YES") == "yes";
  }

  /** At the double level the lowercase answers of the single prompt are refused. */
  lemma DoubleRefusesLowercase(cfg: OrchConfig, plan: InvocationPlan)
    requires ConfirmationLevelOf(cfg, plan) == Double
    ensures !GetConfirmation(cfg, plan, "yes")
    ensures !GetConfirmation(cfg, plan, "y")
    ensures !GetConfirmation(cfg, plan, "")
  {
  }

  /** Thirty agents with thresholds 10 and 25 need the double confirmation. */
  lemma ThirtyAgentsNeedDouble(cfg: OrchConfig, plan: InvocationPlan)
    requires cfg.requireConfirmationAbove.None? && cfg.requireDoubleConfirmationAbove.None?
    requires |plan.agentsToInvoke| == 30
    requires plan.requiresConfirmation == (|plan.agentsToInvoke| > ConfirmThreshold(cfg))
    ensures plan.requiresConfirmation
    ensures ConfirmationLevelOf(cfg, plan) == Double
  {
  }
}
