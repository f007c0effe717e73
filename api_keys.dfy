/**
 * `getApiKey(provider)`: picks the provider's variable from the environment
 * (for Google, `GOOGLE_API_KEY || GEMINI_API_KEY`), then returns it only if
 * it is set and not blank after `trim()`. The value returned is the raw,
 * untrimmed one.
 */
module ApiKeys {
  import opened Wrappers
  import opened JsValues
  import opened Enums

  const GoogleVariable: string := "GOOGLE_API_KEY"
  const GeminiVariable: string := "GEMINI_API_KEY"
  const OpenAIVariable: string := "OPENAI_API_KEY"
  const AnthropicVariable: string := "ANTHROPIC_API_KEY"

  /** The value the `switch` assigns to `key`, before the blank check. */
  function SelectKey(env: Env, provider: LLMProvider): (r: Option<string>)
    ensures r.Some? ==> exists name :: name in Variables(provider) && name in env && env[name] == r.value
    ensures provider == Google && Truthy(EnvGet(env, GoogleVariable)) ==> r == Some(env[GoogleVariable])
  {
    match provider
    case Google => Or(EnvGet(env, GoogleVariable), EnvGet(env, GeminiVariable))
    case OpenAI => EnvGet(env, OpenAIVariable)
    case Anthropic => EnvGet(env, AnthropicVariable)
  }

  /** The final check `key && key.trim() !== ""`. */
  predicate Usable(key: Option<string>) {
    Truthy(key) && Trim(key.value) != ""
  }

  /** `getApiKey(provider)`, reading `process.env` as `env`. */
  function GetApiKey(env: Env, provider: LLMProvider): (r: Option<string>)
    ensures r.Some? ==> r.value != "" && !AllWhiteSpace(r.value)
    ensures r.Some? ==> r.value in env.Values
  {
    var key := SelectKey(env, provider);
    if Usable(key) then
      TrimEmptyIffAllWhiteSpace(key.value);
      key
    else None
  }

  /** The value of `name` if it is set and not blank; the reference rule for every single-variable read. */
  function NonBlank(env: Env, name: string): (r: Option<string>) {
    if name in env && !AllWhiteSpace(env[name]) then Some(env[name]) else None
  }

  /** The blank check accepts exactly the set values that are not all white space. */
  lemma UsableIffNotBlank(key: Option<string>)
    ensures Usable(key) <==> key.Some? && !AllWhiteSpace(key.value)
  {
    if key.Some? {
      TrimEmptyIffAllWhiteSpace(key.value);
    }
  }

  /** OpenAI and Anthropic read only their own variable. */
  lemma SingleVariableProviders(env: Env)
    ensures GetApiKey(env, OpenAI) == NonBlank(env, OpenAIVariable)
    ensures GetApiKey(env, Anthropic) == NonBlank(env, AnthropicVariable)
  {
    UsableIffNotBlank(EnvGet(env, OpenAIVariable));
    UsableIffNotBlank(EnvGet(env, AnthropicVariable));
  }

  /**
   * A set, non-empty `GOOGLE_API_KEY` decides Google's key by itself: it is
   * returned when not blank, and when it is only white space the result is
   * `undefined`; `GEMINI_API_KEY` is not consulted either way.
   */
  lemma GooglePrimaryDecides(env: Env)
    requires GoogleVariable in env && env[GoogleVariable] != ""
    ensures GetApiKey(env, Google) == NonBlank(env, GoogleVariable)
  {
    UsableIffNotBlank(EnvGet(env, GoogleVariable));
  }

  /** `GEMINI_API_KEY` is used only when `GOOGLE_API_KEY` is unset or exactly `""`. */
  lemma GoogleFallback(env: Env)
    requires GoogleVariable !in env || env[GoogleVariable] == ""
    ensures GetApiKey(env, Google) == NonBlank(env, GeminiVariable)
  {
    UsableIffNotBlank(EnvGet(env, GeminiVariable));
  }

  /** Each provider's key depends on its own variables only. */
  lemma GetApiKeyReadsOnly(env1: Env, env2: Env, provider: LLMProvider)
    requires forall name :: name in Variables(provider) ==> EnvGet(env1, name) == EnvGet(env2, name)
    ensures GetApiKey(env1, provider) == GetApiKey(env2, provider)
  {
    match provider
    case Google =>
      assert EnvGet(env1, GoogleVariable) == EnvGet(env2, GoogleVariable);
      assert EnvGet(env1, GeminiVariable) == EnvGet(env2, GeminiVariable);
    case OpenAI =>
      assert EnvGet(env1, OpenAIVariable) == EnvGet(env2, OpenAIVariable);
    case Anthropic =>
      assert EnvGet(env1, AnthropicVariable) == EnvGet(env2, AnthropicVariable);
  }

  /** The variables `getApiKey` may read for `provider`. */
  function Variables(provider: LLMProvider): set<string> {
    match provider
    case Google => {GoogleVariable, GeminiVariable}
    case OpenAI => {OpenAIVariable}
    case Anthropic => {AnthropicVariable}
  }

  /** A whitespace-only `GOOGLE_API_KEY` hides a valid `GEMINI_API_KEY`, and a blank OpenAI key is absent. */
  lemma BlankKeyExamples()
    ensures GetApiKey(map[GoogleVariable := " ", GeminiVariable := "g"], Google) == None
    ensures GetApiKey(map[GoogleVariable := "", GeminiVariable := "g"], Google) == Some("g")
    ensures GetApiKey(map[OpenAIVariable := " "], OpenAI) == None
  {
    GooglePrimaryDecides(map[GoogleVariable := " ", GeminiVariable := "g"]);
    GoogleFallback(map[GoogleVariable := "", GeminiVariable := "g"]);
    SingleVariableProviders(map[OpenAIVariable := " "]);
    assert !AllWhiteSpace("g") by { assert !IsWhiteSpace("g"[0]); }
  }
}
