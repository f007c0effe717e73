# Configuration and request validation of code-review-mcp, in Dafny

This project models `src/config.ts` of the code-review MCP server. It settles
the process log level: `normalizeLogLevel` followed by the `LogLevelEnum`
parse that produces `LOG_LEVEL`, and `isDebugMode` on top of it. It defines the
closed enumerations of LLM providers and review targets. It validates a
code-review request against `CodeReviewToolParamsSchema`. And it resolves a
provider's API key with `getApiKey`.

Everything in that file is a pure computation over environment state that
already exists, so the model is functions and lemmas. `process.env` becomes an
explicit `map<string, string>` parameter (`JsValues.Env`). `undefined` becomes
`Option.None`. zod's thrown `ZodError` becomes a `Result.Err`. The module-level
constant `LOG_LEVEL` is `LogLevels.ResolveLogLevel(env)`, and the resolved level
is passed to `IsDebugMode` explicitly.

Modules, one per part of the file:

- `Wrappers` (wrappers.dfy): `Option` and `Result`.
- `JsValues` (js_values.dfy): the JavaScript semantics the file relies on. That
  is `process.env` lookup, string truthiness, `||` on `string | undefined`, and
  `String.prototype.trim` with the ECMAScript white-space and line-terminator
  code points.
- `LogLevels` (log_levels.dfy): `normalizeLogLevel`, `LogLevelEnum`,
  `LOG_LEVEL` and `isDebugMode`.
- `Enums` (enums.dfy): `LLMProviderEnum` and `ReviewTargetEnum`.
- `ReviewParams` (review_params.dfy): the request schema. It is a declarative
  table of field rules checked by one generic routine, `Issues`. That routine
  collects every failing field in schema order, as zod's object validation
  does. Beside the table, `FieldsOk` states the same constraints field by field
  as an independent reference.
- `ApiKeys` (api_keys.dfy): `getApiKey`.

The doc comment at src/config.ts:90 calls `GEMINI_API_KEY` a fallback, which
could be read as covering a blank `GOOGLE_API_KEY` too. The model follows the
code. The code (src/config.ts:100) writes
`process.env.GOOGLE_API_KEY || process.env.GEMINI_API_KEY` and trims only
afterwards (src/config.ts:117). A whitespace-only `GOOGLE_API_KEY` is truthy, so
`GEMINI_API_KEY` is never consulted and the result is `undefined`. The fallback
happens only when `GOOGLE_API_KEY` is unset or exactly `""`. See
`ApiKeys.GooglePrimaryDecides`, `ApiKeys.GoogleFallback` and
`ApiKeys.BlankKeyExamples`.

## Model

| member | source | states |
|---|---|---|
| `JsValues.TrimEmptyIffAllWhiteSpace` | src/config.ts:117 | `s.trim()` is `""` exactly when every character of `s` is ECMAScript white space or a line terminator; this is the meaning of the final blank check |
| `JsValues.Trim` | src/config.ts:117 | `s.trim()` is the contiguous part of `s` left after removing a white-space prefix and a white-space suffix, and it neither starts nor ends with white space |
| `LogLevels.ResolveLogLevel` | src/config.ts:32 | the initialiser of `LOG_LEVEL` succeeds iff the raw `LOG_LEVEL` is unset, empty, a legacy code `0`..`3` or a level name; otherwise it fails with the raw value |
| `LogLevels.IsDebugMode` | src/config.ts:124-126 | `isDebugMode()` compares the resolved level's name with `'debug'`, so it holds exactly for the `debug` level |
| `LogLevels.NormalizeLogLevel` | src/config.ts:19-30 | the result is never empty; a truthy input that is not a legacy code comes back unchanged; a legacy code becomes one of the four level names |
| `LogLevels.NormalizeDefault` | src/config.ts:19-20 | an unset or empty `LOG_LEVEL` normalises to `"info"` |
| `LogLevels.NormalizeLegacyCodes` | src/config.ts:23-28 | `"0"`..`"3"` map to `debug`, `info`, `warn`, `error`, and each level name maps to itself |
| `LogLevels.NormalizeIdempotent` | src/config.ts:19-30 | normalising a normalised value changes nothing |
| `LogLevels.ParseLogLevel` | src/config.ts:15 | the enum parse succeeds iff the string is one of the four lower-case names, returns the level with that name, and otherwise fails with the received string |
| `LogLevels.ParseLogLevelRoundTrip` | src/config.ts:15 | parsing a level's name gives back that level |
| `LogLevels.ResolveLogLevelSucceedsIff` | src/config.ts:32 | resolving `LOG_LEVEL` succeeds iff the normalised string is a level name, iff the raw value is unset, empty, a legacy code or a level name; a failure carries the raw value |
| `LogLevels.ResolveLogLevelRejects` | src/config.ts:32 | `"DEBUG"` and `"4"` are rejected because matching is case-sensitive and exact |
| `LogLevels.DebugModeIffRawLevel` | src/config.ts:124-126 | debug mode is on iff the raw `LOG_LEVEL` is `"0"` or `"debug"` |
| `LogLevels.ResolveLogLevelExamples` | src/config.ts:32 | `LOG_LEVEL=2` resolves to `warn`, which is not debug mode; an empty environment resolves to `info` |
| `Enums.ParseProvider` | src/config.ts:34 | the provider parse succeeds iff the string is `google`, `openai` or `anthropic`, and returns the provider of that name |
| `Enums.ParseReviewTarget` | src/config.ts:37 | the target parse succeeds iff the string is `staged`, `HEAD` or `branch_diff`, and returns the target of that name |
| `Enums.ProviderRoundTrip` | src/config.ts:34 | parsing a provider's name gives back that provider |
| `Enums.ReviewTargetRoundTrip` | src/config.ts:37 | parsing a target's name gives back that target |
| `Enums.ReviewTargetCaseSensitive` | src/config.ts:34-37 | `"HEAD"` is a target but `"head"` is not, and `"Google"` is not a provider |
| `ReviewParams.Issues` | src/config.ts:40-84 | no field is reported iff every field rule accepts the object; only names of rules are reported, and there are no more names than rules |
| `ReviewParams.IssuesReportsField` | src/config.ts:40-84 | when rule names are distinct, a field is reported iff it fails its rule |
| `ReviewParams.Validate` | src/config.ts:40-86 | an accepted request yields a record whose `taskDescription` and `modelName` are non-empty and whose `maxTokens`, if present, is positive; an object is rejected only with a non-empty list of fields; a non-object is rejected as such |
| `ReviewParams.SchemaRulesMeaning` | src/config.ts:40-84 | each row of the rule table means the written-out constraint on its field |
| `ReviewParams.ValidateAcceptsIff` | src/config.ts:40-84 | an object is accepted iff `target` and `llmProvider` are among their literals, `taskDescription` and `modelName` are non-empty strings, the three optional texts are strings when present, and `maxTokens` is a positive number when present; no rule couples fields |
| `ReviewParams.ValidateReportsEveryField` | src/config.ts:40-84 | on rejection every failing field is listed and no passing field is |
| `ReviewParams.ValidateToCandidate` | src/config.ts:40-86 | every well-formed typed record, written out as a candidate object, validates back to itself |
| `ReviewParams.ValidateKeepsValues` | src/config.ts:40-86 | an accepted candidate, with its unknown keys dropped, is exactly the object that describes the returned record |
| `ReviewParams.BranchDiffWithoutDiffBase` | src/config.ts:71-76 | a `branch_diff` request with no `diffBase` is accepted |
| `ReviewParams.MinimalRequestAccepted` | src/config.ts:40-84 | a request with only the four required fields is accepted, and its optional fields are absent |
| `ReviewParams.EmptyRequestReportsRequiredFields` | src/config.ts:40-58 | an empty object is rejected with `target`, `taskDescription`, `llmProvider` and `modelName` all reported, in that order |
| `ReviewParams.BadOptionalFieldsReported` | src/config.ts:71-83 | a `null` `diffBase` and a zero `maxTokens` are both reported |
| `ApiKeys.SelectKey` | src/config.ts:98-107 | the `switch` assigns `key` only a value of one of the provider's own variables; for Google a truthy `GOOGLE_API_KEY` is chosen as it is |
| `ApiKeys.GetApiKey` | src/config.ts:95-118 | a returned key is never empty or white space only, and it is the exact value of some environment variable |
| `ApiKeys.UsableIffNotBlank` | src/config.ts:117 | `key && key.trim() !== ""` holds iff the key is set and not all white space |
| `ApiKeys.SingleVariableProviders` | src/config.ts:102-107 | OpenAI's key is `OPENAI_API_KEY` and Anthropic's is `ANTHROPIC_API_KEY`, each returned raw when not blank and otherwise absent |
| `ApiKeys.GooglePrimaryDecides` | src/config.ts:100 | a set, non-empty `GOOGLE_API_KEY` decides Google's key alone: it is returned if not blank, and the result is absent if it is whitespace only, with `GEMINI_API_KEY` ignored |
| `ApiKeys.GoogleFallback` | src/config.ts:100 | when `GOOGLE_API_KEY` is unset or `""`, Google's key is `GEMINI_API_KEY` under the same blank rule |
| `ApiKeys.GetApiKeyReadsOnly` | src/config.ts:98-107 | two environments that agree on a provider's variables give that provider the same key |
| `ApiKeys.BlankKeyExamples` | src/config.ts:100-117 | `GOOGLE_API_KEY=" "` hides `GEMINI_API_KEY="g"`, `GOOGLE_API_KEY=""` falls back to it, and `OPENAI_API_KEY=" "` gives no key |

## Left out

- Loading `.env` files with `dotenv.config` (src/config.ts:11-12) is file-system I/O and library behaviour. The model takes the final environment map as given, so the precedence between the two files is not modelled.
- The `default` branch of `getApiKey` (src/config.ts:108-113) and its `console.warn` are not modelled. With the provider a closed datatype the branch cannot be reached, and the warning is a side effect.
- `.describe(...)` texts (src/config.ts:41-83) are documentation only and do not affect validation.
- `maxTokens` is a Dafny `real`. NaN and the infinities that a JavaScript number can also be are not modelled.
- Keys outside the schema are ignored, which is zod's default behaviour of stripping them. Strict or passthrough modes are not modelled.
- JSON values have no `undefined`, so a key that is present with the value `undefined` is not modelled. zod would treat it as missing.
- zod's issue objects are reduced to the names of the failing fields, in schema order. Their codes and messages are not modelled, and a root-level type error is the single `NotAnObject` error.
- `process.env` being global and mutable, and `LOG_LEVEL` being computed once at module load, are modelled by passing the environment and the resolved level as parameters.
- Counting string length in UTF-16 code units is not modelled. Dafny counts Unicode scalar values, which agrees with it on whether a string is empty, the only length question the schema asks.
