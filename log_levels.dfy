/**
 * The log level of config.ts: `normalizeLogLevel`, the `LogLevelEnum`
 * parse that produces the module-level `LOG_LEVEL`, and `isDebugMode`.
 * The value of `LOG_LEVEL` is computed once from the environment; here it
 * is the result of `ResolveLogLevel(env)` and is passed on explicitly.
 */
module LogLevels {
  import opened Wrappers
  import opened JsValues

  datatype LogLevel = Debug | Info | Warn | Error

  /** The error `LogLevelEnum.parse` throws: the received value was not one of the options. */
  datatype EnumError = InvalidEnumValue(received: string)

  /** The literals of `LogLevelEnum`. */
  const LogLevelNames: seq<string> := ["debug", "info", "warn", "error"]

  /** The legacy numeric codes `normalizeLogLevel` translates. */
  const LegacyCodes: seq<string> := ["0", "1", "2", "3"]

  const LogLevelVariable: string := "LOG_LEVEL"

  function LogLevelName(l: LogLevel): (r: string)
    ensures r in LogLevelNames
  {
    match l
    case Debug => "debug"
    case Info => "info"
    case Warn => "warn"
    case Error => "error"
  }

  /**
   * `normalizeLogLevel(level)`: a falsy level (unset or `""`) becomes
   * `"info"`, a legacy code becomes the level's name, anything else is
   * returned as it is.
   */
  function NormalizeLogLevel(level: Option<string>): (r: string)
    ensures r != ""
    ensures Truthy(level) && level.value !in LegacyCodes ==> r == level.value
    ensures Truthy(level) && level.value in LegacyCodes ==> r in LogLevelNames
  {
    if !Truthy(level) then "info"
    else match level.value
      case "0" => "debug"
      case "1" => "info"
      case "2" => "warn"
      case "3" => "error"
      case _ => level.value
  }

  /** `LogLevelEnum.parse(s)`: exactly the four lower-case names succeed. */
  function ParseLogLevel(s: string): (r: Result<LogLevel, EnumError>)
    ensures r.Ok? <==> s in LogLevelNames
    ensures r.Ok? ==> LogLevelName(r.value) == s
    ensures r.Err? ==> r.error == InvalidEnumValue(s)
  {
    if s == "debug" then Ok(Debug)
    else if s == "info" then Ok(Info)
    else if s == "warn" then Ok(Warn)
    else if s == "error" then Ok(Error)
    else Err(InvalidEnumValue(s))
  }

  /** The initialiser of `LOG_LEVEL`: normalise `process.env.LOG_LEVEL`, then parse it. */
  function ResolveLogLevel(env: Env): (r: Result<LogLevel, EnumError>)
    ensures r.Ok? <==> AcceptedRawLogLevel(EnvGet(env, LogLevelVariable))
    ensures r.Err? ==> LogLevelVariable in env && r.error == InvalidEnumValue(env[LogLevelVariable])
  {
    ParseLogLevel(NormalizeLogLevel(EnvGet(env, LogLevelVariable)))
  }

  /** `isDebugMode()`, given the resolved `LOG_LEVEL`: it compares the level's name with `'debug'`. */
  predicate IsDebugMode(logLevel: LogLevel): (r: bool)
    ensures r <==> logLevel == Debug
  {
    LogLevelName(logLevel) == "debug"
  }

  /** The number `normalizeLogLevel` maps to a level, if any. */
  function LegacyCode(l: LogLevel): string {
    match l
    case Debug => "0"
    case Info => "1"
    case Warn => "2"
    case Error => "3"
  }

  /** An unset or empty `LOG_LEVEL` normalises to `"info"`. */
  lemma NormalizeDefault()
    ensures NormalizeLogLevel(None) == "info"
    ensures NormalizeLogLevel(Some("")) == "info"
  {
  }

  /** Each legacy code normalises to its level's name, and so does the name itself. */
  lemma NormalizeLegacyCodes(l: LogLevel)
    ensures NormalizeLogLevel(Some(LegacyCode(l))) == LogLevelName(l)
    ensures NormalizeLogLevel(Some(LogLevelName(l))) == LogLevelName(l)
  {
  }

  /** Normalising twice is the same as normalising once. */
  lemma NormalizeIdempotent(level: Option<string>)
    ensures NormalizeLogLevel(Some(NormalizeLogLevel(level))) == NormalizeLogLevel(level)
  {
  }

  /** Parsing a level's name gives back that level. */
  lemma ParseLogLevelRoundTrip(l: LogLevel)
    ensures ParseLogLevel(LogLevelName(l)) == Ok(l)
  {
  }

  /** The raw `LOG_LEVEL` values that resolve: unset, empty, a legacy code or a level name. */
  predicate AcceptedRawLogLevel(raw: Option<string>) {
    raw.None? || raw.value == "" || raw.value in LegacyCodes || raw.value in LogLevelNames
  }

  /**
   * Resolution succeeds iff the normalised string is one of the four names,
   * iff the raw value is one of the accepted forms; on failure the raw
   * value passed through normalisation unchanged, and the error carries it.
   */
  lemma ResolveLogLevelSucceedsIff(env: Env)
    ensures ResolveLogLevel(env).Ok? <==> NormalizeLogLevel(EnvGet(env, LogLevelVariable)) in LogLevelNames
    ensures ResolveLogLevel(env).Ok? <==> AcceptedRawLogLevel(EnvGet(env, LogLevelVariable))
    ensures ResolveLogLevel(env).Err? ==>
              EnvGet(env, LogLevelVariable).Some? &&
              ResolveLogLevel(env).error == InvalidEnumValue(env[LogLevelVariable])
  {
  }

  /** Upper-case names and codes outside 0..3 are rejected. */
  lemma ResolveLogLevelRejects()
    ensures ResolveLogLevel(map[LogLevelVariable := "DEBUG"]) == Err(InvalidEnumValue("DEBUG"))
    ensures ResolveLogLevel(map[LogLevelVariable := "4"]) == Err(InvalidEnumValue("4"))
  {
  }

  /** Debug mode is on iff the raw `LOG_LEVEL` is `"0"` or `"debug"`. */
  lemma DebugModeIffRawLevel(env: Env, l: LogLevel)
    requires ResolveLogLevel(env) == Ok(l)
    ensures IsDebugMode(l) <==> (LogLevelVariable in env && env[LogLevelVariable] in ["0", "debug"])
  {
  }

  /** `LOG_LEVEL=2` resolves to `warn`, which is not debug mode; an empty environment gives `info`. */
  lemma ResolveLogLevelExamples()
    ensures ResolveLogLevel(map[LogLevelVariable := "2"]) == Ok(Warn)
    ensures !IsDebugMode(Warn)
    ensures ResolveLogLevel(map[]) == Ok(Info)
  {
  }
}
