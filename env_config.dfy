/**
 * The API's configuration record, read once from the process environment
 * (here an argument), its validation, and the two environment predicates.
 */
module EnvConfig {
  import opened Wrappers
  import Text

  /** The process environment: variable name to value; an unset variable is not a key. */
  type Env = map<string, string>

  /** `process.env[key]` */
  function Lookup(env: Env, key: string): Option<string>
  {
    if key in env then Some(env[key]) else None
  }

  /** `!process.env[key]`: unset or empty */
  predicate Unset(env: Env, key: string)
  {
    key !in env || env[key] == ""
  }

  /** `process.env[key] || fallback` */
  function Or(env: Env, key: string, fallback: string): (s: string)
    ensures Unset(env, key) ==> s == fallback
    ensures !Unset(env, key) ==> s == env[key]
  {
    if Unset(env, key) then fallback else env[key]
  }

  const DefaultUrl := "http://localhost:3000"
  const DefaultSecret := "your-secret-key-change-in-production"
  const DefaultOrigins := ["http://localhost:3000", "http://localhost:4200"]

  /**
   * The configuration record. The three numeric settings are kept as the
   * text handed to `parseInt`.
   */
  datatype Config = Config(
    nodeEnv: string,
    apiUrl: string,
    portText: string,
    jwtSecret: string,
    secretKey: string,
    geminiApiKey: string,
    databaseUrl: Option<string>,
    vercelEnv: Option<string>,
    vercelUrl: Option<string>,
    nextPublicApiUrl: string,
    allowedOrigins: seq<string>,
    rateLimitWindowText: string,
    rateLimitMaxText: string,
    encryptionKey: string,
    encryptionIv: string)

  /** The `config` object built from `env` */
  function Load(env: Env): (cfg: Config)
    ensures Unset(env, "NODE_ENV") ==> cfg.nodeEnv == "development"
    ensures !Unset(env, "NODE_ENV") ==> cfg.nodeEnv == env["NODE_ENV"]
    ensures (cfg.nodeEnv != "" && cfg.apiUrl != "" && cfg.portText != "" && cfg.jwtSecret != "" &&
             cfg.secretKey != "" && cfg.nextPublicApiUrl != "" && cfg.rateLimitWindowText != "" &&
             cfg.rateLimitMaxText != "" && cfg.encryptionKey != "" && cfg.encryptionIv != "")
    ensures Unset(env, "PORT") ==> cfg.portText == "3000"
    ensures cfg.apiUrl == Or(env, "API_URL", DefaultUrl)
    ensures cfg.portText == Or(env, "PORT", "3000")
    ensures cfg.jwtSecret == Or(env, "JWT_SECRET", DefaultSecret)
    ensures cfg.secretKey == Or(env, "SECRET_KEY", DefaultSecret)
    ensures cfg.geminiApiKey == Or(env, "GEMINI_API_KEY", "")
    ensures cfg.nextPublicApiUrl == Or(env, "NEXT_PUBLIC_API_URL", DefaultUrl)
    ensures cfg.rateLimitWindowText == Or(env, "RATE_LIMIT_WINDOW_MS", "900000")
    ensures cfg.rateLimitMaxText == Or(env, "RATE_LIMIT_MAX", "100")
    ensures cfg.encryptionKey == Or(env, "ENCRYPTION_KEY", "your-encryption-key-32-chars")
    ensures cfg.encryptionIv == Or(env, "ENCRYPTION_IV", "your-iv-16-chars")
    ensures cfg.geminiApiKey == "" <==> Unset(env, "GEMINI_API_KEY")
    ensures cfg.databaseUrl.Some? <==> "DATABASE_URL" in env
    ensures cfg.vercelEnv.Some? <==> "VERCEL_ENV" in env
    ensures cfg.vercelUrl.Some? <==> "VERCEL_URL" in env
    ensures "DATABASE_URL" in env ==> cfg.databaseUrl.value == env["DATABASE_URL"]
    ensures "VERCEL_ENV" in env ==> cfg.vercelEnv.value == env["VERCEL_ENV"]
    ensures "VERCEL_URL" in env ==> cfg.vercelUrl.value == env["VERCEL_URL"]
    ensures |cfg.allowedOrigins| >= 1
  {
    Config(
      nodeEnv := Or(env, "NODE_ENV", "development"),
      apiUrl := Or(env, "API_URL", DefaultUrl),
      portText := Or(env, "PORT", "3000"),
      jwtSecret := Or(env, "JWT_SECRET", DefaultSecret),
      secretKey := Or(env, "SECRET_KEY", DefaultSecret),
      geminiApiKey := Or(env, "GEMINI_API_KEY", ""),
      databaseUrl := Lookup(env, "DATABASE_URL"),
      vercelEnv := Lookup(env, "VERCEL_ENV"),
      vercelUrl := Lookup(env, "VERCEL_URL"),
      nextPublicApiUrl := Or(env, "NEXT_PUBLIC_API_URL", DefaultUrl),
      // `?.split(',') || [...]`: a set variable always splits to a non-empty array, which is truthy
      allowedOrigins := if "ALLOWED_ORIGINS" in env then Text.Split(env["ALLOWED_ORIGINS"], ',') else DefaultOrigins,
      rateLimitWindowText := Or(env, "RATE_LIMIT_WINDOW_MS", "900000"),
      rateLimitMaxText := Or(env, "RATE_LIMIT_MAX", "100"),
      encryptionKey := Or(env, "ENCRYPTION_KEY", "your-encryption-key-32-chars"),
      encryptionIv := Or(env, "ENCRYPTION_IV", "your-iv-16-chars"))
  }

  /** The variables read with an `||` fallback */
  const FallbackKeys := {"NODE_ENV", "API_URL", "PORT", "JWT_SECRET", "SECRET_KEY", "GEMINI_API_KEY",
                         "NEXT_PUBLIC_API_URL", "RATE_LIMIT_WINDOW_MS", "RATE_LIMIT_MAX",
                         "ENCRYPTION_KEY", "ENCRYPTION_IV"}

  /** For every variable read with `||`, setting it to "" is the same as leaving it unset. */
  lemma EmptyIsUnset(env: Env, key: string)
    requires key in FallbackKeys
    ensures Load(env[key := ""]) == Load(env - {key})
  {
  }

  /** `ALLOWED_ORIGINS` lists the comma-separated pieces of the variable, or the two local origins. */
  lemma AllowedOrigins(env: Env)
    ensures "ALLOWED_ORIGINS" !in env ==> Load(env).allowedOrigins == DefaultOrigins
    ensures "ALLOWED_ORIGINS" in env ==>
      |Load(env).allowedOrigins| >= 1 &&
      Text.Join(Load(env).allowedOrigins, ",") == env["ALLOWED_ORIGINS"] &&
      forall i :: 0 <= i < |Load(env).allowedOrigins| ==> ',' !in Load(env).allowedOrigins[i]
  {
    if "ALLOWED_ORIGINS" in env {
      Text.JoinSplit(env["ALLOWED_ORIGINS"], ',');
    }
  }

  /** `isProduction()` */
  predicate IsProduction(cfg: Config)
    ensures IsProduction(cfg) ==> cfg.nodeEnv != "development" && cfg.nodeEnv != ""
  {
    cfg.nodeEnv == "production"
  }

  /** `isDevelopment()` */
  predicate IsDevelopment(cfg: Config)
    ensures IsDevelopment(cfg) ==> cfg.nodeEnv != "production" && cfg.nodeEnv != ""
  {
    cfg.nodeEnv == "development"
  }

  /** Production and development exclude each other, and an unset or empty NODE_ENV means development. */
  lemma EnvironmentKinds(env: Env)
    ensures !(IsProduction(Load(env)) && IsDevelopment(Load(env)))
    ensures Unset(env, "NODE_ENV") ==> IsDevelopment(Load(env))
    ensures IsProduction(Load(env)) <==> Lookup(env, "NODE_ENV") == Some("production")
  {
  }

  /** The variables `validateConfig` insists on */
  const Required := ["GEMINI_API_KEY"]

  /** `keys.filter(key => !process.env[key])` */
  function MissingKeys(keys: seq<string>, env: Env): (missing: seq<string>)
    ensures |missing| <= |keys|
    decreases |keys|
  {
    if keys == [] then []
    else (if Unset(env, keys[0]) then [keys[0]] else []) + MissingKeys(keys[1..], env)
  }

  /** A key is reported missing exactly when it is required and unset or empty. */
  lemma {:induction false} MissingKeysExactly(keys: seq<string>, env: Env, k: string)
    ensures k in MissingKeys(keys, env) <==> k in keys && Unset(env, k)
    decreases |keys|
  {
    if keys != [] {
      MissingKeysExactly(keys[1..], env, k);
      assert k in keys <==> k == keys[0] || k in keys[1..];
    }
  }

  /** The outcome of `validateConfig()`: returns, or throws an Error with this message */
  datatype Validation = Valid | Invalid(message: string)

  /** `validateConfig()` */
  function ValidateConfig(env: Env): (v: Validation)
    ensures v.Invalid? <==> exists k :: k in Required && Unset(env, k)
    ensures v.Invalid? ==> Text.StartsWith(v.message, "Missing required environment variables: ")
  {
    var missing := MissingKeys(Required, env);
    if |missing| > 0 then Invalid("Missing required environment variables: " + Text.Join(missing, ", "))
    else Valid
  }

  /** `validateConfig()` throws exactly when GEMINI_API_KEY is unset or empty, and names it. */
  lemma ValidateConfigThrows(env: Env)
    ensures ValidateConfig(env).Invalid? <==> Unset(env, "GEMINI_API_KEY")
    ensures ValidateConfig(env).Invalid? ==>
      ValidateConfig(env).message == "Missing required environment variables: GEMINI_API_KEY"
    ensures ValidateConfig(env).Valid? ==> Load(env).geminiApiKey == env["GEMINI_API_KEY"] != ""
  {
    assert Required[1..] == [];
  }
}
