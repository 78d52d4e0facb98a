/**
 * The relay's configuration: built once from the process environment, and the two
 * validity checks over it (the warning-only check run at load time, and the check
 * run on every request).
 */
module Config {
  import opened Wrappers
  import opened Js

  /** The process environment: variable name to value. */
  type Env = map<string, string>

  /** `process.env[name]`. */
  function EnvVar(env: Env, name: string): (v: Option<string>)
    ensures v.Some? <==> name in env
    ensures v.Some? ==> v.value == env[name]
  {
    if name in env then Some(env[name]) else None
  }

  /** JavaScript truthiness of an environment string: set and not empty. */
  predicate Present(v: Option<string>) {
    v.Some? && v.value != ""
  }

  /** `process.env[name] || fallback`. */
  function VarOr(env: Env, name: string, fallback: string): (s: string)
    ensures Present(EnvVar(env, name)) ==> s == env[name]
    ensures !Present(EnvVar(env, name)) ==> s == fallback
  {
    if Present(EnvVar(env, name)) then env[name] else fallback
  }

  const DefaultCozeApiUrl: string := "https://api.coze.com/v1/chat"
  const DefaultDeepSeekApiUrl: string := "https://api.deepseek.com/v1/chat/completions"
  const DefaultRequestTimeout: string := "30000"
  const DefaultMaxRequestSize: string := "10485760"

  const DeepSeekKeyRequired: string := "DEEPSEEK_API_KEY is required"
  const CozeKeyRequired: string := "COZE_API_KEY is required when USE_COZE=true"
  const EnvFailurePrefix: string := "Environment validation failed:\n"

  /** The `config` object; the two numbers are `parseInt` results (`None` for NaN). */
  datatype Config = Config(
    cozeApiKey: Option<string>,
    deepseekApiKey: Option<string>,
    useCoze: bool,
    cozeApiUrl: string,
    deepseekApiUrl: string,
    requestTimeout: Option<int>,
    maxRequestSize: Option<int>)

  /** The `config` object built from the environment at module load. */
  function FromEnv(env: Env): (c: Config)
    ensures c.cozeApiKey == EnvVar(env, "COZE_API_KEY")
    ensures c.deepseekApiKey == EnvVar(env, "DEEPSEEK_API_KEY")
    ensures c.useCoze <==> EnvVar(env, "USE_COZE") == Some("true")
  {
    Config(
      EnvVar(env, "COZE_API_KEY"),
      EnvVar(env, "DEEPSEEK_API_KEY"),
      EnvVar(env, "USE_COZE") == Some("true"),
      VarOr(env, "COZE_API_URL", DefaultCozeApiUrl),
      VarOr(env, "DEEPSEEK_API_URL", DefaultDeepSeekApiUrl),
      ParseInt(VarOr(env, "REQUEST_TIMEOUT", DefaultRequestTimeout)),
      ParseInt(VarOr(env, "MAX_REQUEST_SIZE", DefaultMaxRequestSize)))
  }

  /** The environment lacks the DeepSeek key. */
  predicate DeepSeekKeyMissing(env: Env) {
    !Present(EnvVar(env, "DEEPSEEK_API_KEY"))
  }

  /** Coze is switched on but the environment lacks its key. */
  predicate CozeKeyMissing(env: Env) {
    EnvVar(env, "USE_COZE") == Some("true") && !Present(EnvVar(env, "COZE_API_KEY"))
  }

  /** The environment has what the relay needs. */
  predicate EnvValid(env: Env) {
    !DeepSeekKeyMissing(env) && !CozeKeyMissing(env)
  }

  /**
   * `validateEnv()`: collects the problems in order, DeepSeek first, and throws one
   * error listing them, one per line.
   */
  method ValidateEnv(env: Env) returns (outcome: Completion)
    ensures outcome.Returned? <==> EnvValid(env)
    ensures DeepSeekKeyMissing(env) && !CozeKeyMissing(env) ==>
              outcome == Threw(Thrown(EnvFailurePrefix + DeepSeekKeyRequired))
    ensures !DeepSeekKeyMissing(env) && CozeKeyMissing(env) ==>
              outcome == Threw(Thrown(EnvFailurePrefix + CozeKeyRequired))
    ensures DeepSeekKeyMissing(env) && CozeKeyMissing(env) ==>
              outcome == Threw(Thrown(EnvFailurePrefix + DeepSeekKeyRequired + "\n" + CozeKeyRequired))
  {
    var errors: seq<string> := [];
    if !Present(EnvVar(env, "DEEPSEEK_API_KEY")) {
      errors := errors + [DeepSeekKeyRequired];
    }
    var useCoze := EnvVar(env, "USE_COZE") == Some("true");
    if useCoze && !Present(EnvVar(env, "COZE_API_KEY")) {
      errors := errors + [CozeKeyRequired];
    }
    if |errors| > 0 {
      assert |errors| == 2 ==> Join(errors, '\n') == errors[0] + "\n" + Join(errors[1..], '\n');
      return Threw(Thrown(EnvFailurePrefix + Join(errors, '\n')));
    }
    return Returned;
  }

  /**
   * `validateConfig()`: throws when the DeepSeek key is missing, or when Coze is on and
   * its key is missing; the DeepSeek check comes first.
   */
  function ValidateConfig(c: Config): (r: Completion)
    ensures r.Threw? <==> !Present(c.deepseekApiKey) || (c.useCoze && !Present(c.cozeApiKey))
    ensures !Present(c.deepseekApiKey) ==> r == Threw(Thrown(DeepSeekKeyRequired))
    ensures Present(c.deepseekApiKey) && r.Threw? ==> r == Threw(Thrown(CozeKeyRequired))
  {
    if !Present(c.deepseekApiKey) then Threw(Thrown(DeepSeekKeyRequired))
    else if c.useCoze && !Present(c.cozeApiKey) then Threw(Thrown(CozeKeyRequired))
    else Returned
  }

  /** The per-request check accepts the configuration built from `env` exactly when the load-time check accepts `env`. */
  lemma ValidationsAgree(env: Env)
    ensures ValidateConfig(FromEnv(env)).Returned? <==> EnvValid(env)
  {
  }

  /** On a validated configuration, "Coze enabled and keyed" is just "Coze enabled". */
  lemma ValidConfigKeysCoze(c: Config)
    requires ValidateConfig(c).Returned?
    ensures (c.useCoze && Present(c.cozeApiKey)) <==> c.useCoze
    ensures Present(c.deepseekApiKey)
  {
  }

  /** Coze is switched on by the exact string "true" and by nothing else. */
  lemma UseCozeOnlyForTrue(env: Env, value: string)
    requires value != "true"
    ensures FromEnv(env["USE_COZE" := "true"]).useCoze
    ensures !FromEnv(env["USE_COZE" := value]).useCoze
    ensures !FromEnv(env - {"USE_COZE"}).useCoze
  {
  }

  lemma NatText30000()
    ensures NatText(30000) == DefaultRequestTimeout
  {
    assert NatText(3) == "3";
    assert NatText(30) == "30";
    assert NatText(300) == "300";
    assert NatText(3000) == "3000";
  }

  lemma NatText10485760()
    ensures NatText(10485760) == DefaultMaxRequestSize
  {
    assert NatText(1) == "1";
    assert NatText(10) == "10";
    assert NatText(104) == "104";
    assert NatText(1048) == "1048";
    assert NatText(10485) == "10485";
    assert NatText(104857) == "104857";
    assert NatText(1048576) == "1048576";
  }

  /**
   * An unset or empty variable takes its default: the two URLs their fixed addresses, the
   * timeout 30000 and the size limit 10485760. A non-empty one is used as it is (the two
   * numbers through `parseInt`).
   */
  lemma Defaults(env: Env)
    ensures !Present(EnvVar(env, "COZE_API_URL")) ==> FromEnv(env).cozeApiUrl == "https://api.coze.com/v1/chat"
    ensures !Present(EnvVar(env, "DEEPSEEK_API_URL")) ==>
              FromEnv(env).deepseekApiUrl == "https://api.deepseek.com/v1/chat/completions"
    ensures !Present(EnvVar(env, "REQUEST_TIMEOUT")) ==> FromEnv(env).requestTimeout == Some(30000)
    ensures !Present(EnvVar(env, "MAX_REQUEST_SIZE")) ==> FromEnv(env).maxRequestSize == Some(10485760)
    ensures Present(EnvVar(env, "COZE_API_URL")) ==> FromEnv(env).cozeApiUrl == env["COZE_API_URL"]
    ensures Present(EnvVar(env, "DEEPSEEK_API_URL")) ==> FromEnv(env).deepseekApiUrl == env["DEEPSEEK_API_URL"]
    ensures Present(EnvVar(env, "REQUEST_TIMEOUT")) ==> FromEnv(env).requestTimeout == ParseInt(env["REQUEST_TIMEOUT"])
    ensures Present(EnvVar(env, "MAX_REQUEST_SIZE")) ==> FromEnv(env).maxRequestSize == ParseInt(env["MAX_REQUEST_SIZE"])
  {
    NatText30000();
    ParseIntDecimalText(30000);
    NatText10485760();
    ParseIntDecimalText(10485760);
  }
}
