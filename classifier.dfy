/**
 * Request classification (`InvocationVerifier.parse_request`): configured
 * aliases first, in document order, then a fixed keyword priority chain, then
 * the generic review verbs, then "custom".  Matching is by case-insensitive
 * substring.
 */
module Classifier {
  import opened Wrappers
  import opened Text
  import opened Config

  /** Some phrase of an alias entry, lowercased, occurs in the lowercased request. */
  predicate PhrasesMatch(p: Phrases, requestLower: string) {
    match p
    case Phrase(ph) => Contains(requestLower, Lower(ph))
    case PhraseList(phs) => exists i :: 0 <= i < |phs| && Contains(requestLower, Lower(phs[i]))
  }

  /** The first alias entry, in configured order, with a matching phrase. */
  function MatchAlias(aliases: seq<(string, Phrases)>, requestLower: string): Option<string>
    decreases |aliases|
  {
    if aliases == [] then None
    else if PhrasesMatch(aliases[0].1, requestLower) then Some(aliases[0].0)
    else MatchAlias(aliases[1..], requestLower)
  }

  /** The hardcoded fallback chain applied when no alias matched. */
  function KeywordTag(t: string): string {
    if Contains(t, "security") then "security_review"
    else if Contains(t, "leadership") || Contains(t, "executive") then "leadership_review"
    else if Contains(t, "technical") && Contains(t, "review") then "technical_review"
    else if Contains(t, "product") then "product_review"
    else if Contains(t, "ai") || Contains(t, "ml") then "ai_ml_review"
    else if Contains(t, "compliance") then "compliance_review"
    else if ReviewVerbMentioned(t) then "whole_team"
    else "custom"
  }

  /**
   * The fallback chain's priority: security, then leadership/executive, then
   * technical together with review, then product, then the raw substrings
   * "ai"/"ml", then compliance, then the review verbs, else "custom".
   */
  lemma KeywordPriority(t: string)
    ensures KeywordTag(t) == "security_review" <==> Contains(t, "security")
    ensures KeywordTag(t) == "leadership_review" <==>
              !Contains(t, "security") && (Contains(t, "leadership") || Contains(t, "executive"))
    ensures KeywordTag(t) == "technical_review" <==>
              !Contains(t, "security") && !Contains(t, "leadership") && !Contains(t, "executive")
              && Contains(t, "technical") && Contains(t, "review")
    ensures KeywordTag(t) == "product_review" <==>
              !Contains(t, "security") && !Contains(t, "leadership") && !Contains(t, "executive")
              && !(Contains(t, "technical") && Contains(t, "review")) && Contains(t, "product")
    ensures KeywordTag(t) == "ai_ml_review" <==>
              !Contains(t, "security") && !Contains(t, "leadership") && !Contains(t, "executive")
              && !(Contains(t, "technical") && Contains(t, "review")) && !Contains(t, "product")
              && (Contains(t, "ai") || Contains(t, "ml"))
    ensures KeywordTag(t) == "compliance_review" <==>
              KeywordMentioned(t) && !Contains(t, "security") && !Contains(t, "leadership")
              && !Contains(t, "executive") && !(Contains(t, "technical") && Contains(t, "review"))
              && !Contains(t, "product") && !Contains(t, "ai") && !Contains(t, "ml")
    ensures KeywordTag(t) == "custom" <==> !KeywordMentioned(t) && !ReviewVerbMentioned(t)
    ensures KeywordTag(t) == "whole_team" <==> !KeywordMentioned(t) && ReviewVerbMentioned(t)
    ensures KeywordTag(t) in FallbackTags
  {
  }

  const FallbackTags: set<string> := {
    "security_review", "leadership_review", "technical_review", "product_review",
    "ai_ml_review", "compliance_review", "whole_team", "custom"}

  /** One of the six domain keyword rules fires. */
  predicate KeywordMentioned(t: string) {
    || Contains(t, "security") || Contains(t, "leadership") || Contains(t, "executive")
    || (Contains(t, "technical") && Contains(t, "review"))
    || Contains(t, "product") || Contains(t, "ai") || Contains(t, "ml")
    || Contains(t, "compliance")
  }

  predicate ReviewVerbMentioned(t: string) {
    Contains(t, "review") || Contains(t, "evaluate") || Contains(t, "assess") || Contains(t, "analyze")
  }

  function ParseRequest(cfg: OrchConfig, requestText: string): string {
    var requestLower := Lower(requestText);
    match MatchAlias(cfg.invocationAliases, requestLower)
    case Some(alias) => alias
    case None => KeywordTag(requestLower)
  }

  /** The request type is one of the fixed fallback types or the key of a configured alias. */
  lemma ParseRequestRange(cfg: OrchConfig, requestText: string)
    ensures var tag := ParseRequest(cfg, requestText);
            tag in FallbackTags || exists k :: 0 <= k < |cfg.invocationAliases| && cfg.invocationAliases[k].0 == tag
  {
    MatchAliasFound(cfg.invocationAliases, Lower(requestText));
    KeywordPriority(Lower(requestText));
  }

  lemma {:induction false} MatchAliasFound(aliases: seq<(string, Phrases)>, t: string)
    ensures MatchAlias(aliases, t).Some? ==>
              exists k :: 0 <= k < |aliases| && aliases[k].0 == MatchAlias(aliases, t).value
                          && PhrasesMatch(aliases[k].1, t)
                          && forall j :: 0 <= j < k ==> !PhrasesMatch(aliases[j].1, t)
    decreases |aliases|
  {
    if aliases != [] && !PhrasesMatch(aliases[0].1, t) {
      MatchAliasFound(aliases[1..], t);
      if MatchAlias(aliases, t).Some? {
        var k :| 0 <= k < |aliases[1..]| && aliases[1..][k].0 == MatchAlias(aliases, t).value
                 && PhrasesMatch(aliases[1..][k].1, t)
                 && forall j :: 0 <= j < k ==> !PhrasesMatch(aliases[1..][j].1, t);
        assert aliases[k + 1].0 == MatchAlias(aliases, t).value && PhrasesMatch(aliases[k + 1].1, t);
        forall j | 0 <= j < k + 1 ensures !PhrasesMatch(aliases[j].1, t) {
          if j > 0 {
            assert aliases[j] == aliases[1..][j - 1];
          }
        }
      }
    } else if aliases != [] {
      assert PhrasesMatch(aliases[0].1, t);
    }
  }

  /** First match wins: alias entry `k` matches and none before it does. */
  lemma {:induction false} MatchAliasFirst(aliases: seq<(string, Phrases)>, t: string, k: nat)
    requires k < |aliases| && PhrasesMatch(aliases[k].1, t)
    requires forall j :: 0 <= j < k ==> !PhrasesMatch(aliases[j].1, t)
    ensures MatchAlias(aliases, t) == Some(aliases[k].0)
    decreases k
  {
    if k > 0 {
      MatchAliasFirst(aliases[1..], t, k - 1);
    }
  }

  lemma {:induction false} MatchAliasNone(aliases: seq<(string, Phrases)>, t: string)
    requires forall j :: 0 <= j < |aliases| ==> !PhrasesMatch(aliases[j].1, t)
    ensures MatchAlias(aliases, t) == None
    decreases |aliases|
  {
    if aliases != [] {
      MatchAliasNone(aliases[1..], t);
    }
  }

  /**
   * When alias entry `k` is the first whose phrase occurs in the request,
   * ignoring case, the request is classified under that alias's tag.
   */
  lemma ParseRequestAlias(cfg: OrchConfig, requestText: string, k: nat)
    requires k < |cfg.invocationAliases|
    requires PhrasesMatch(cfg.invocationAliases[k].1, Lower(requestText))
    requires forall j :: 0 <= j < k ==> !PhrasesMatch(cfg.invocationAliases[j].1, Lower(requestText))
    ensures ParseRequest(cfg, requestText) == cfg.invocationAliases[k].0
  {
    MatchAliasFirst(cfg.invocationAliases, Lower(requestText), k);
  }

  /** When no alias matches, the keyword chain decides. */
  lemma ParseRequestFallback(cfg: OrchConfig, requestText: string)
    requires forall j :: 0 <= j < |cfg.invocationAliases| ==> !PhrasesMatch(cfg.invocationAliases[j].1, Lower(requestText))
    ensures ParseRequest(cfg, requestText) == KeywordTag(Lower(requestText))
  {
    MatchAliasNone(cfg.invocationAliases, Lower(requestText));
  }

  /** Classification ignores the case of the request. */
  lemma ParseRequestIgnoresCase(cfg: OrchConfig, requestText: string)
    ensures ParseRequest(cfg, Lower(requestText)) == ParseRequest(cfg, requestText)
  {
    LowerIdempotent(requestText);
  }

  /**
   * The first configured alias wins whenever one of its phrases appears in
   * the request, whatever words surround it.
   */
  lemma FirstAliasInAnyContext(cfg: OrchConfig, before: string, phrase: string, after: string)
    requires |cfg.invocationAliases| > 0
    requires cfg.invocationAliases[0].1 == Phrase(phrase)
    ensures ParseRequest(cfg, before + phrase + after) == cfg.invocationAliases[0].0
  {
    var text := before + phrase + after;
    assert Lower(text) == Lower(before) + Lower(phrase) + Lower(after);
    assert IsPrefix(Lower(phrase), Lower(phrase));
    ContainsInContext(Lower(before), Lower(phrase), Lower(after), Lower(phrase));
    MatchAliasFirst(cfg.invocationAliases, Lower(text), 0);
  }
}
