/**
 * src/config/env.ts: configuration derived once from the process environment. A variable
 * that is unset or empty takes its default (`process.env.X || default`); numbers go
 * through `parseInt(…, 10)`, whose `NaN` is `None` here; list variables are split on commas
 * and each piece trimmed.
 */
module Config {
  import opened Wrappers
  import opened Text

  /** `process.env`: a variable is either absent or a string. */
  type Env = map<string, string>

  function Lookup(env: Env, name: string): Option<string> {
    if name in env then Some(env[name]) else None
  }

  /** `process.env[name] || fallback`. */
  function EnvOr(env: Env, name: string, fallback: string): (r: string)
    ensures name in env && env[name] != "" ==> r == env[name]
    ensures !(name in env && env[name] != "") ==> r == fallback
  {
    OrIfEmpty(Lookup(env, name), fallback)
  }

  const DefaultNodeEnv := "development"
  const DefaultPort := "3000"
  const DefaultHost := "0.0.0.0"
  const DefaultCorsOrigins := "*"
  const DefaultCorsMethods := "GET,POST,PUT,PATCH,DELETE,OPTIONS"
  const DefaultCorsHeaders := "Content-Type,Authorization"
  const DefaultRateLimitMax := "100"
  const DefaultRateLimitWindowMs := "60000"
  const DefaultLogLevel := "info"

  /** `envSchema`. `LOG_LEVEL` is cast, not checked, so it stays an arbitrary string. */
  datatype EnvSchema = EnvSchema(
    nodeEnv: string,
    port: Option<int>,
    host: string,
    databaseUrl: string,
    corsOrigins: string,
    corsMethods: string,
    corsHeaders: string,
    corsCredentials: bool,
    rateLimitMax: Option<int>,
    rateLimitWindowMs: Option<int>,
    logLevel: string)

  /** Reading the environment into `envSchema`. */
  function LoadEnvSchema(env: Env): (s: EnvSchema)
    ensures s.nodeEnv == EnvOr(env, "NODE_ENV", DefaultNodeEnv) && s.nodeEnv != ""
    ensures s.port == ParseInt(EnvOr(env, "PORT", DefaultPort))
    ensures s.host == EnvOr(env, "HOST", DefaultHost)
    ensures s.databaseUrl == EnvOr(env, "DATABASE_URL", "")
    ensures s.corsOrigins == EnvOr(env, "CORS_ORIGINS", DefaultCorsOrigins)
    ensures s.corsMethods == EnvOr(env, "CORS_METHODS", DefaultCorsMethods)
    ensures s.corsHeaders == EnvOr(env, "CORS_HEADERS", DefaultCorsHeaders)
    ensures s.corsCredentials <==> Lookup(env, "CORS_CREDENTIALS") == Some("true")
    ensures s.rateLimitMax == ParseInt(EnvOr(env, "RATE_LIMIT_MAX", DefaultRateLimitMax))
    ensures s.rateLimitWindowMs == ParseInt(EnvOr(env, "RATE_LIMIT_WINDOW_MS", DefaultRateLimitWindowMs))
    ensures s.logLevel == EnvOr(env, "LOG_LEVEL", DefaultLogLevel) && s.logLevel != ""
  {
    EnvSchema(
      EnvOr(env, "NODE_ENV", DefaultNodeEnv),
      ParseInt(EnvOr(env, "PORT", DefaultPort)),
      EnvOr(env, "HOST", DefaultHost),
      EnvOr(env, "DATABASE_URL", ""),
      EnvOr(env, "CORS_ORIGINS", DefaultCorsOrigins),
      EnvOr(env, "CORS_METHODS", DefaultCorsMethods),
      EnvOr(env, "CORS_HEADERS", DefaultCorsHeaders),
      Lookup(env, "CORS_CREDENTIALS") == Some("true"),
      ParseInt(EnvOr(env, "RATE_LIMIT_MAX", DefaultRateLimitMax)),
      ParseInt(EnvOr(env, "RATE_LIMIT_WINDOW_MS", DefaultRateLimitWindowMs)),
      EnvOr(env, "LOG_LEVEL", DefaultLogLevel))
  }

  /** `s.split(',').map(x => x.trim())`. */
  function TrimmedList(s: string): (r: seq<string>)
    ensures |r| == |Split(s, ',')| >= 1
    ensures forall i :: 0 <= i < |r| ==> r[i] == Trim(Split(s, ',')[i])
  {
    var parts := Split(s, ',');
    seq(|parts|, i requires 0 <= i < |parts| => Trim(parts[i]))
  }

  /** A list written as already-trimmed, comma-free items is read back item for item. */
  lemma TrimmedListOfJoin(items: seq<string>)
    requires |items| >= 1
    requires forall i :: 0 <= i < |items| ==> ',' !in items[i]
    requires forall i :: 0 <= i < |items| ==> items[i] == [] || (!IsWhitespace(items[i][0]) && !IsWhitespace(items[i][|items[i]| - 1]))
    ensures TrimmedList(Join(items, ',')) == items
  {
    SplitJoin(items, ',');
    forall i | 0 <= i < |items|
      ensures Trim(items[i]) == items[i]
    {
      TrimNoOp(items[i]);
    }
  }

  datatype ServerConfig = ServerConfig(nodeEnv: string, port: Option<int>, host: string, isProduction: bool, isDevelopment: bool)
  datatype CorsConfig = CorsConfig(origins: seq<string>, methods: seq<string>, headers: seq<string>, credentials: bool)
  datatype RateLimitConfig = RateLimitConfig(max: Option<int>, windowMs: Option<int>)

  /** `config`. */
  datatype AppConfig = AppConfig(
    server: ServerConfig,
    databaseUrl: string,
    cors: CorsConfig,
    rateLimit: RateLimitConfig,
    logLevel: string)

  /** Deriving `config` from `envSchema`. */
  function BuildConfig(s: EnvSchema): (c: AppConfig)
    ensures c.server.isProduction <==> s.nodeEnv == "production"
    ensures c.server.isDevelopment <==> s.nodeEnv == "development"
    ensures !(c.server.isProduction && c.server.isDevelopment)
    ensures c.server.nodeEnv == s.nodeEnv && c.server.port == s.port && c.server.host == s.host
    ensures c.databaseUrl == s.databaseUrl
    ensures c.cors.origins == TrimmedList(s.corsOrigins)
    ensures c.cors.methods == TrimmedList(s.corsMethods)
    ensures c.cors.headers == TrimmedList(s.corsHeaders)
    ensures c.cors.credentials == s.corsCredentials
    ensures c.rateLimit == RateLimitConfig(s.rateLimitMax, s.rateLimitWindowMs)
    ensures c.logLevel == s.logLevel
  {
    AppConfig(
      ServerConfig(s.nodeEnv, s.port, s.host, s.nodeEnv == "production", s.nodeEnv == "development"),
      s.databaseUrl,
      CorsConfig(TrimmedList(s.corsOrigins), TrimmedList(s.corsMethods), TrimmedList(s.corsHeaders), s.corsCredentials),
      RateLimitConfig(s.rateLimitMax, s.rateLimitWindowMs),
      s.logLevel)
  }

  /** The names of the variables no environment may leave out. */
  const Required: seq<string> := ["DATABASE_URL"]

  /** What `validateEnv` does: nothing, print the missing names, or print them and exit with status 1. */
  datatype Validation = Passed | Reported(missing: seq<string>) | Aborted(missing: seq<string>)

  /** `required.filter(key => !process.env[key])`, in order. */
  function Missing(env: Env, required: seq<string>): (m: seq<string>)
    ensures |m| <= |required|
    ensures forall k :: k in m <==> k in required && !(k in env && env[k] != "")
  {
    if required == [] then []
    else
      var rest := Missing(env, required[1..]);
      if required[0] in env && env[required[0]] != "" then rest else [required[0]] + rest
  }

  /** `validateEnv()`: missing variables are ignored in `test`, reported elsewhere, fatal in `production`. */
  function ValidateEnv(env: Env): (v: Validation)
    ensures var missing := !("DATABASE_URL" in env && env["DATABASE_URL"] != "");
            var nodeEnv := EnvOr(env, "NODE_ENV", DefaultNodeEnv);
            && (v.Passed? <==> !missing || nodeEnv == "test")
            && (v.Aborted? <==> missing && nodeEnv == "production")
            && (!v.Passed? ==> v.missing == ["DATABASE_URL"])
  {
    var missing := Missing(env, Required);
    assert missing == if "DATABASE_URL" in env && env["DATABASE_URL"] != "" then [] else Required;
    var nodeEnv := EnvOr(env, "NODE_ENV", DefaultNodeEnv);
    if |missing| > 0 && nodeEnv != "test" then
      if nodeEnv == "production" then Aborted(missing) else Reported(missing)
    else Passed
  }

  /** The configuration used at startup. */
  function LoadConfig(env: Env): (c: AppConfig)
    ensures c.server.isProduction <==> EnvOr(env, "NODE_ENV", DefaultNodeEnv) == "production"
    ensures c.server.isDevelopment <==> EnvOr(env, "NODE_ENV", DefaultNodeEnv) == "development"
    ensures c.server.port == ParseInt(EnvOr(env, "PORT", DefaultPort))
    ensures c.cors.origins == TrimmedList(EnvOr(env, "CORS_ORIGINS", DefaultCorsOrigins))
    ensures c.cors.credentials <==> Lookup(env, "CORS_CREDENTIALS") == Some("true")
    ensures c.rateLimit == RateLimitConfig(ParseInt(EnvOr(env, "RATE_LIMIT_MAX", DefaultRateLimitMax)),
                                           ParseInt(EnvOr(env, "RATE_LIMIT_WINDOW_MS", DefaultRateLimitWindowMs)))
    ensures c.logLevel == EnvOr(env, "LOG_LEVEL", DefaultLogLevel)
  {
    BuildConfig(LoadEnvSchema(env))
  }

  /** An environment that sets none of the variables gets every documented default. */
  lemma DefaultsWhenUnset(env: Env)
    requires forall name :: name in env ==> env[name] == ""
    ensures var c := LoadConfig(env);
            && c.server.nodeEnv == "development" && c.server.isDevelopment && !c.server.isProduction
            && c.server.port == Some(3000)
            && c.server.host == "0.0.0.0"
            && c.databaseUrl == ""
            && c.cors.origins == ["*"]
            && c.cors.methods == ["GET", "POST", "PUT", "PATCH", "DELETE", "OPTIONS"]
            && c.cors.headers == ["Content-Type", "Authorization"]
            && !c.cors.credentials
            && c.rateLimit == RateLimitConfig(Some(100), Some(60000))
            && c.logLevel == "info"
  {
    DefaultNumbersParse();
    DefaultOriginsRead();
    DefaultMethodsRead();
    DefaultHeadersRead();
  }

  /** The numeric defaults read as 3000, 100 and 60000. */
  lemma DefaultNumbersParse()
    ensures ParseInt(DefaultPort) == Some(3000)
    ensures ParseInt(DefaultRateLimitMax) == Some(100)
    ensures ParseInt(DefaultRateLimitWindowMs) == Some(60000)
  {
    assert NatToString(3000) == DefaultPort by {
      assert NatToString(30) == "30";
      assert NatToString(300) == "300";
    }
    assert NatToString(100) == DefaultRateLimitMax by {
      assert NatToString(10) == "10";
    }
    assert NatToString(60000) == DefaultRateLimitWindowMs by {
      assert NatToString(60) == "60";
      assert NatToString(600) == "600";
      assert NatToString(6000) == "6000";
    }
    ParseIntOfIntToString(3000);
    ParseIntOfIntToString(100);
    ParseIntOfIntToString(60000);
  }

  /** The default CORS origins read as the single item `*`. */
  lemma DefaultOriginsRead()
    ensures TrimmedList(DefaultCorsOrigins) == ["*"]
  {
    TrimmedListOfJoin(["*"]);
  }

  /** The default CORS methods read as the six method names, in order. */
  lemma DefaultMethodsRead()
    ensures TrimmedList(DefaultCorsMethods) == ["GET", "POST", "PUT", "PATCH", "DELETE", "OPTIONS"]
  {
    var items := ["GET", "POST", "PUT", "PATCH", "DELETE", "OPTIONS"];
    MethodsJoined();
    assert forall i :: 0 <= i < |items| ==> ',' !in items[i];
    TrimmedListOfJoin(items);
  }

  /** The six method names joined by commas spell the default. */
  lemma MethodsJoined()
    ensures Join(["GET", "POST", "PUT", "PATCH", "DELETE", "OPTIONS"], ',') == "GET,POST,PUT,PATCH,DELETE,OPTIONS"
  {
    PostJoined();
    JoinStep("GET", ["POST", "PUT", "PATCH", "DELETE", "OPTIONS"], "POST,PUT,PATCH,DELETE,OPTIONS", "GET,POST,PUT,PATCH,DELETE,OPTIONS");
  }

  lemma PostJoined()
    ensures Join(["POST", "PUT", "PATCH", "DELETE", "OPTIONS"], ',') == "POST,PUT,PATCH,DELETE,OPTIONS"
  {
    PutJoined();
    JoinStep("POST", ["PUT", "PATCH", "DELETE", "OPTIONS"], "PUT,PATCH,DELETE,OPTIONS", "POST,PUT,PATCH,DELETE,OPTIONS");
  }

  lemma PutJoined()
    ensures Join(["PUT", "PATCH", "DELETE", "OPTIONS"], ',') == "PUT,PATCH,DELETE,OPTIONS"
  {
    PatchJoined();
    JoinStep("PUT", ["PATCH", "DELETE", "OPTIONS"], "PATCH,DELETE,OPTIONS", "PUT,PATCH,DELETE,OPTIONS");
  }

  lemma PatchJoined()
    ensures Join(["PATCH", "DELETE", "OPTIONS"], ',') == "PATCH,DELETE,OPTIONS"
  {
    DeleteJoined();
    JoinStep("PATCH", ["DELETE", "OPTIONS"], "DELETE,OPTIONS", "PATCH,DELETE,OPTIONS");
  }

  lemma DeleteJoined()
    ensures Join(["DELETE", "OPTIONS"], ',') == "DELETE,OPTIONS"
  {
    JoinStep("DELETE", ["OPTIONS"], "OPTIONS", "DELETE,OPTIONS");
  }

  /** One more item in front of a joined list. */
  lemma JoinStep(x: string, rest: seq<string>, joined: string, result: string)
    requires |rest| >= 1 && Join(rest, ',') == joined && result == x + "," + joined
    ensures Join([x] + rest, ',') == result
  {
    assert ([x] + rest)[1..] == rest;
  }

  /** The default CORS headers read as `Content-Type` and `Authorization`. */
  lemma DefaultHeadersRead()
    ensures TrimmedList(DefaultCorsHeaders) == ["Content-Type", "Authorization"]
  {
    var items := ["Content-Type", "Authorization"];
    assert Join(items, ',') == "Content-Type,Authorization";
    assert ',' !in items[0] && ',' !in items[1];
    TrimmedListOfJoin(items);
  }
}
