/**
 * The closed enumerations of config.ts: the LLM providers and the review
 * targets. Each has the literal names zod accepts and a parse that, like
 * `z.enum(...)`, accepts exactly those names, matched case-sensitively.
 */
module Enums {
  import opened Wrappers

  datatype LLMProvider = Google | OpenAI | Anthropic

  datatype ReviewTarget = Staged | Head | BranchDiff

  /** The literals of `LLMProviderEnum`, in declaration order. */
  const ProviderNames: seq<string> := ["google", "openai", "anthropic"]

  /** The literals of `ReviewTargetEnum`, in declaration order. */
  const ReviewTargetNames: seq<string> := ["staged", "HEAD", "branch_diff"]

  function ProviderName(p: LLMProvider): (r: string)
    ensures r in ProviderNames
  {
    match p
    case Google => "google"
    case OpenAI => "openai"
    case Anthropic => "anthropic"
  }

  function ReviewTargetName(t: ReviewTarget): (r: string)
    ensures r in ReviewTargetNames
  {
    match t
    case Staged => "staged"
    case Head => "HEAD"
    case BranchDiff => "branch_diff"
  }

  /** `LLMProviderEnum.safeParse(s)`: succeeds exactly on the three literals. */
  function ParseProvider(s: string): (r: Option<LLMProvider>)
    ensures r.Some? <==> s in ProviderNames
    ensures r.Some? ==> ProviderName(r.value) == s
  {
    if s == "google" then Some(Google)
    else if s == "openai" then Some(OpenAI)
    else if s == "anthropic" then Some(Anthropic)
    else None
  }

  /** `ReviewTargetEnum.safeParse(s)`: succeeds exactly on the three literals. */
  function ParseReviewTarget(s: string): (r: Option<ReviewTarget>)
    ensures r.Some? <==> s in ReviewTargetNames
    ensures r.Some? ==> ReviewTargetName(r.value) == s
  {
    if s == "staged" then Some(Staged)
    else if s == "HEAD" then Some(Head)
    else if s == "branch_diff" then Some(BranchDiff)
    else None
  }

  /** Parsing a provider's name gives back that provider, so names are distinct. */
  lemma ProviderRoundTrip(p: LLMProvider)
    ensures ParseProvider(ProviderName(p)) == Some(p)
  {
  }

  /** Parsing a target's name gives back that target, so names are distinct. */
  lemma ReviewTargetRoundTrip(t: ReviewTarget)
    ensures ParseReviewTarget(ReviewTargetName(t)) == Some(t)
  {
  }

  /** Matching is case-sensitive: `"HEAD"` is a target, `"head"` is not. */
  lemma ReviewTargetCaseSensitive()
    ensures ParseReviewTarget("HEAD") == Some(Head)
    ensures ParseReviewTarget("head") == None
    ensures ParseProvider("Google") == None
  {
  }
}
