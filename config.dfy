/**
 * The configuration resolver: explicit values, then the environment, then the
 * built-in defaults, with the API key required, the port checked and the base
 * URL normalised. The environment is an explicit snapshot; WHATWG URL parsing
 * with re-serialisation and JavaScript's Number() are opaque parameters.
 */
module Config {
  import opened Wrappers
  import opened Types
  import Text

  const DefaultPort: int := 3333
  const DefaultBaseUrl: string := "https://openrouter.ai/api/v1"
  const DefaultModel: string := "morph/morph-v2"
  const MissingApiKeyMessage: string :=
    "Missing Morph API key. Provide MORPH_API_KEY environment variable or --api-key flag."

  /** A JavaScript number as far as the resolver looks at it: an integer, or anything else with its printed form. */
  datatype JsNumber = Integral(value: int) | NonIntegral(shown: string)

  /** Explicit settings; an absent field is `undefined`. */
  datatype PartialConfig = PartialConfig(port: Option<JsNumber>, baseUrl: Option<string>, model: Option<string>, apiKey: Option<string>)

  datatype ConfigError = ConfigError(message: string)

  /** `${n}` for the number n. */
  function Show(n: JsNumber): string
  {
    match n
    case Integral(v) => Text.IntToDecimal(v)
    case NonIntegral(s) => s
  }

  /** `env.KEY`: undefined when the variable is not set. */
  function EnvValue(env: map<string, string>, key: string): Option<string>
  {
    if key in env then Some(env[key]) else None
  }

  /** JavaScript's `a ?? b` on possibly-undefined values. */
  function Coalesce<T>(a: Option<T>, b: Option<T>): Option<T>
  {
    if a.Some? then a else b
  }

  function OrDefault<T>(a: Option<T>, default: T): T
  {
    if a.Some? then a.value else default
  }

  /** Number.isInteger(port) && port > 0. */
  predicate ValidPort(n: JsNumber)
  {
    n.Integral? && n.value > 0
  }

  function ApiKeyChoice(input: PartialConfig, env: map<string, string>): Option<string>
  {
    Coalesce(input.apiKey, EnvValue(env, "MORPH_API_KEY"))
  }

  /** `input.port ?? (env.PORT ? Number(env.PORT) : undefined)`. */
  function PortChoice(input: PartialConfig, env: map<string, string>, toNumber: string -> JsNumber): Option<JsNumber>
  {
    Coalesce(input.port, if "PORT" in env && env["PORT"] != "" then Some(toNumber(env["PORT"])) else None)
  }

  function BaseUrlChoice(input: PartialConfig, env: map<string, string>): string
  {
    OrDefault(Coalesce(input.baseUrl, EnvValue(env, "MORPH_BASE_URL")), DefaultBaseUrl)
  }

  function ModelChoice(input: PartialConfig, env: map<string, string>): string
  {
    OrDefault(Coalesce(input.model, EnvValue(env, "MORPH_MODEL")), DefaultModel)
  }

  /** `s.replace(/\/$/, '')`: removes one trailing slash, if there is one. */
  function StripTrailingSlash(s: string): (r: string)
    ensures Text.EndsWithSlash(s) ==> r + "/" == s
    ensures !Text.EndsWithSlash(s) ==> r == s
  {
    if Text.EndsWithSlash(s) then s[..|s| - 1] else s
  }

  /**
   * An empty address means the default; otherwise the address is parsed,
   * re-serialised, and loses exactly one trailing slash.
   */
  function SanitizeBaseUrl(raw: string, parseUrl: string -> Option<string>): (r: Result<string, ConfigError>)
    ensures raw == "" ==> r == Success(DefaultBaseUrl)
    ensures raw != "" && parseUrl(raw).None? ==> r == Failure(ConfigError("Invalid MORPH_BASE_URL: " + raw))
    ensures raw != "" && parseUrl(raw).Some? ==>
      var u := parseUrl(raw).value;
      && r.Success?
      && (Text.EndsWithSlash(u) ==> r.value + "/" == u)
      && (!Text.EndsWithSlash(u) ==> r.value == u)
  {
    if raw == "" then Success(DefaultBaseUrl)
    else match parseUrl(raw)
      case None => Failure(ConfigError("Invalid MORPH_BASE_URL: " + raw))
      case Some(u) => Success(StripTrailingSlash(u))
  }

  /**
   * resolveConfig: the API key is checked first, then the port, then the base
   * URL; a returned configuration always has a key and a positive integer port.
   */
  function ResolveConfig(input: PartialConfig, env: map<string, string>,
                         parseUrl: string -> Option<string>, toNumber: string -> JsNumber): (r: Result<ServerConfig, ConfigError>)
    ensures (ApiKeyChoice(input, env).None? || ApiKeyChoice(input, env) == Some("")) ==>
      r == Failure(ConfigError(MissingApiKeyMessage))
    ensures ApiKeyChoice(input, env).Some? && ApiKeyChoice(input, env) != Some("") &&
            PortChoice(input, env, toNumber).Some? && !ValidPort(PortChoice(input, env, toNumber).value) ==>
      r == Failure(ConfigError("Invalid port: " + Show(PortChoice(input, env, toNumber).value)))
    ensures r.Success? <==>
      && ApiKeyChoice(input, env).Some? && ApiKeyChoice(input, env) != Some("")
      && ValidPort(OrDefault(PortChoice(input, env, toNumber), Integral(DefaultPort)))
      && SanitizeBaseUrl(BaseUrlChoice(input, env), parseUrl).Success?
    ensures ApiKeyChoice(input, env).Some? && ApiKeyChoice(input, env) != Some("") &&
            ValidPort(OrDefault(PortChoice(input, env, toNumber), Integral(DefaultPort))) &&
            SanitizeBaseUrl(BaseUrlChoice(input, env), parseUrl).Failure? ==>
      r == Failure(SanitizeBaseUrl(BaseUrlChoice(input, env), parseUrl).error)
    ensures r.Success? ==> r.value.port > 0 && r.value.apiKey != ""
    ensures r.Success? ==> Some(r.value.apiKey) == ApiKeyChoice(input, env) && r.value.model == ModelChoice(input, env)
    ensures r.Success? ==> Success(r.value.baseUrl) == SanitizeBaseUrl(BaseUrlChoice(input, env), parseUrl)
    ensures r.Success? ==> Integral(r.value.port) == OrDefault(PortChoice(input, env, toNumber), Integral(DefaultPort))
  {
    var apiKey := ApiKeyChoice(input, env);
    if apiKey.None? || apiKey.value == "" then Failure(ConfigError(MissingApiKeyMessage))
    else
      var portValue := PortChoice(input, env, toNumber);
      var port := OrDefault(portValue, Integral(DefaultPort));
      if !ValidPort(port) then Failure(ConfigError("Invalid port: " + Show(portValue.value)))
      else match SanitizeBaseUrl(BaseUrlChoice(input, env), parseUrl)
        case Failure(e) => Failure(e)
        case Success(baseUrl) => Success(ServerConfig(port.value, apiKey.value, baseUrl, ModelChoice(input, env)))
  }

  /** An explicit empty key does not fall back to MORPH_API_KEY: it is an error. */
  lemma ExplicitEmptyApiKeyFails(input: PartialConfig, env: map<string, string>,
                                 parseUrl: string -> Option<string>, toNumber: string -> JsNumber)
    requires input.apiKey == Some("")
    ensures ResolveConfig(input, env, parseUrl, toNumber) == Failure(ConfigError(MissingApiKeyMessage))
  {
  }

  /** With neither a port nor a non-empty PORT, the port is 3333. */
  lemma DefaultPortWhenUnset(input: PartialConfig, env: map<string, string>,
                             parseUrl: string -> Option<string>, toNumber: string -> JsNumber)
    requires input.port.None? && ("PORT" in env ==> env["PORT"] == "")
    ensures ResolveConfig(input, env, parseUrl, toNumber).Success? ==> ResolveConfig(input, env, parseUrl, toNumber).value.port == 3333
  {
  }

  /** An explicit value wins over the environment for every field it is given for. */
  lemma ExplicitValuesWin(input: PartialConfig, env: map<string, string>,
                          parseUrl: string -> Option<string>, toNumber: string -> JsNumber)
    requires ResolveConfig(input, env, parseUrl, toNumber).Success?
    ensures var c := ResolveConfig(input, env, parseUrl, toNumber).value;
      && (input.apiKey.Some? ==> c.apiKey == input.apiKey.value)
      && (input.model.Some? ==> c.model == input.model.value)
      && (input.port.Some? ==> input.port.value == Integral(c.port))
      && (input.baseUrl.Some? ==> SanitizeBaseUrl(input.baseUrl.value, parseUrl) == Success(c.baseUrl))
  {
  }

  /** An empty base address, explicit or from the environment, yields the default address. */
  lemma EmptyBaseUrlMeansDefault(input: PartialConfig, env: map<string, string>,
                                 parseUrl: string -> Option<string>, toNumber: string -> JsNumber)
    requires BaseUrlChoice(input, env) == ""
    requires ResolveConfig(input, env, parseUrl, toNumber).Success?
    ensures ResolveConfig(input, env, parseUrl, toNumber).value.baseUrl == DefaultBaseUrl
  {
  }

  /** The model is taken as given: an empty MORPH_MODEL is accepted. */
  lemma EmptyModelAccepted(input: PartialConfig, env: map<string, string>,
                           parseUrl: string -> Option<string>, toNumber: string -> JsNumber)
    requires input.model.None? && "MORPH_MODEL" in env && env["MORPH_MODEL"] == ""
    requires ResolveConfig(input, env, parseUrl, toNumber).Success?
    ensures ResolveConfig(input, env, parseUrl, toNumber).value.model == ""
  {
  }

  /** Only MORPH_API_KEY, PORT, MORPH_BASE_URL and MORPH_MODEL are read from the environment. */
  lemma OnlyFourVariablesMatter(input: PartialConfig, env1: map<string, string>, env2: map<string, string>,
                                parseUrl: string -> Option<string>, toNumber: string -> JsNumber)
    requires forall k :: k in {"MORPH_API_KEY", "PORT", "MORPH_BASE_URL", "MORPH_MODEL"} ==>
      EnvValue(env1, k) == EnvValue(env2, k)
    ensures ResolveConfig(input, env1, parseUrl, toNumber) == ResolveConfig(input, env2, parseUrl, toNumber)
  {
    assert EnvValue(env1, "PORT") == EnvValue(env2, "PORT");
    assert PortChoice(input, env1, toNumber) == PortChoice(input, env2, toNumber);
  }

  /** The resolved base URL ends in '/' only when its serialised form ended in "//". */
  lemma SanitizedSlash(raw: string, parseUrl: string -> Option<string>)
    requires SanitizeBaseUrl(raw, parseUrl).Success?
    requires Text.EndsWithSlash(SanitizeBaseUrl(raw, parseUrl).value)
    ensures raw != "" && parseUrl(raw).Some?
    ensures var u := parseUrl(raw).value; |u| >= 2 && u[|u| - 2..] == "//"
  {
  }
}
