/**
 * Configuration selection and validation of the fraud-detection backend.
 *
 * The process environment is a snapshot `vars` of string variables. The
 * per-section dataclasses (database, Redis, security, ML, blockchain,
 * monitoring) are given already parsed from that environment; what the model
 * computes is everything the configuration classes derive at run time: the
 * database and Redis URLs, the feature flags, the validation errors, the
 * per-environment overrides, the factory and the public dictionary view.
 */
module Configuration {
  import opened Wrappers
  import opened Strings

  // ---------------------------------------------------------------------------
  // Environment access
  // ---------------------------------------------------------------------------

  /** `os.getenv(key, default)`. */
  function GetenvOr(vars: map<string, string>, key: string, default: string): string {
    if key in vars then vars[key] else default
  }

  /** `bool(os.getenv(key))`: set and non-empty. */
  predicate IsSet(vars: map<string, string>, key: string) {
    key in vars && vars[key] != ""
  }

  /** `os.getenv(key, default).lower() == 'true'`. */
  predicate EnvFlag(vars: map<string, string>, key: string, default: string) {
    Lower(GetenvOr(vars, key, default)) == "true"
  }

  // ---------------------------------------------------------------------------
  // Sections
  // ---------------------------------------------------------------------------

  datatype DatabaseConfig = DatabaseConfig(
    host: string, port: int, name: string, username: string, password: string,
    poolSize: int, echo: bool)

  datatype RedisConfig = RedisConfig(host: string, port: int, password: Option<string>, database: int)

  datatype SecurityConfig = SecurityConfig(
    jwtSecretKey: string, jwtAccessTokenExpires: int, rateLimitEnabled: bool,
    sessionTimeoutMinutes: int, maxFailedLoginAttempts: int)

  datatype MLConfig = MLConfig(
    activeModelName: string, modelVersion: string, fraudThreshold: real, highRiskThreshold: real)

  datatype BlockchainConfig = BlockchainConfig(
    providerUrl: string, networkName: string, chainId: int, privateKey: Option<string>, enabled: bool)

  datatype MonitoringConfig = MonitoringConfig(healthCheckEnabled: bool, performanceMonitoringEnabled: bool)

  /** The section objects as their dataclass defaults build them. */
  datatype Sections = Sections(
    database: DatabaseConfig, redis: RedisConfig, security: SecurityConfig,
    ml: MLConfig, blockchain: BlockchainConfig, monitoring: MonitoringConfig)

  /** The process environment and the sections parsed from it. */
  datatype Snapshot = Snapshot(vars: map<string, string>, sections: Sections)

  /**
   * A `Config` instance. `urlOverride` holds the database URL that the testing
   * profile substitutes for the computed one; it is None everywhere else.
   */
  datatype Config = Config(
    environment: string,
    database: DatabaseConfig, redis: RedisConfig, security: SecurityConfig,
    ml: MLConfig, blockchain: BlockchainConfig, monitoring: MonitoringConfig,
    appName: string, appVersion: string, debug: bool, testing: bool,
    featureFlags: seq<(string, bool)>,
    urlOverride: Option<string>)

  datatype ConfigError = ValidationFailed(errors: seq<string>) | ReadOnlyAttribute(name: string)

  // ---------------------------------------------------------------------------
  // URLs
  // ---------------------------------------------------------------------------

  const SqliteFileUrl: string := "sqlite:///securecart_fraud_detection.db"
  const InMemorySqliteUrl: string := "sqlite:///:memory:"

  /**
   * `DatabaseConfig.url`. It reads `DATABASE_URL` and `FLASK_ENV` from the
   * process environment, not from the configuration's environment name.
   */
  function DatabaseUrl(db: DatabaseConfig, vars: map<string, string>): (url: string)
    ensures IsSet(vars, "DATABASE_URL") ==> url == vars["DATABASE_URL"]
    ensures !IsSet(vars, "DATABASE_URL") && GetenvOr(vars, "FLASK_ENV", "") == "production" ==>
      && IsPrefix("postgresql://" + db.username + ":" + db.password + "@" + db.host + ":", url)
      && IsSuffix(":" + IntToString(db.port) + "/" + db.name, url)
      && |url| == |"postgresql://" + db.username + ":" + db.password + "@" + db.host|
                  + |":" + IntToString(db.port) + "/" + db.name|
    ensures !IsSet(vars, "DATABASE_URL") && GetenvOr(vars, "FLASK_ENV", "") != "production" ==>
      url == SqliteFileUrl
  {
    if IsSet(vars, "DATABASE_URL") then vars["DATABASE_URL"]
    else if GetenvOr(vars, "FLASK_ENV", "") == "production" then
      var prefix := "postgresql://" + db.username + ":" + db.password + "@" + db.host;
      var suffix := ":" + IntToString(db.port) + "/" + db.name;
      var url := prefix + suffix;
      assert url[..|prefix + ":"|] == prefix + ":";
      assert url[|url| - |suffix|..] == suffix;
      url
    else SqliteFileUrl
  }

  predicate HasPassword(r: RedisConfig) {
    r.password.Some? && r.password.value != ""
  }

  /** `host:port/db`, the part of the Redis URL after the credentials. */
  function RedisAddress(r: RedisConfig): string {
    r.host + ":" + IntToString(r.port) + "/" + IntToString(r.database)
  }

  /**
   * `RedisConfig.url`: the scheme, then a credentials segment that is present
   * exactly when a non-empty password is set, then `host:port/db`.
   */
  function RedisUrl(r: RedisConfig): (url: string)
    ensures IsPrefix("redis://", url)
    ensures IsSuffix(RedisAddress(r), url)
    ensures |url| >= 8 + |RedisAddress(r)|
    ensures HasPassword(r) ==> url[8..|url| - |RedisAddress(r)|] == ":" + r.password.value + "@"
    ensures !HasPassword(r) ==> |url| == 8 + |RedisAddress(r)|
  {
    var credentials := if HasPassword(r) then ":" + r.password.value + "@" else "";
    var url := "redis://" + credentials + RedisAddress(r);
    assert url[..8] == "redis://";
    assert url[|url| - |RedisAddress(r)|..] == RedisAddress(r);
    assert url[8..|url| - |RedisAddress(r)|] == credentials;
    url
  }

  /** With a password the URL carries `:<password>@`; without one and with an '@'-free host it carries no '@'. */
  lemma RedisUrlCredentials(r: RedisConfig)
    ensures HasPassword(r) ==> Contains(RedisUrl(r), ":" + r.password.value + "@")
    ensures !HasPassword(r) && '@' !in r.host ==> '@' !in RedisUrl(r)
  {
    var u := RedisUrl(r);
    var tail := RedisAddress(r);
    assert u == u[..8] + u[8..|u| - |tail|] + u[|u| - |tail|..];
    if HasPassword(r) {
      var p := ":" + r.password.value + "@";
      assert RedisUrl(r) == "redis:/" + "/" + p + tail;
      ContainsSelf(p);
      ContainsPrefixOf(p, tail, p);
      ContainsSuffixOf("redis:/" + "/", p + tail, p);
      assert "redis:/" + "/" + (p + tail) == "redis:/" + "/" + p + tail;
    } else if '@' !in r.host {
      var port := IntToString(r.port);
      var db := IntToString(r.database);
      assert '@' !in port && '@' !in db;
      assert RedisUrl(r) == "redis://" + r.host + ":" + port + "/" + db;
    }
  }

  // ---------------------------------------------------------------------------
  // Feature flags
  // ---------------------------------------------------------------------------

  /** Flag name, the environment variable it reads, and that variable's default. */
  const FlagSources: seq<(string, string, string)> := [
    ("fraud_detection_enabled", "FEATURE_FRAUD_DETECTION", "True"),
    ("blockchain_integration", "FEATURE_BLOCKCHAIN", "False"),
    ("real_time_monitoring", "FEATURE_REAL_TIME_MONITORING", "True"),
    ("ml_model_training", "FEATURE_ML_TRAINING", "True"),
    ("advanced_analytics", "FEATURE_ADVANCED_ANALYTICS", "True"),
    ("user_notifications", "FEATURE_USER_NOTIFICATIONS", "True"),
    ("api_rate_limiting", "FEATURE_RATE_LIMITING", "True"),
    ("audit_logging", "FEATURE_AUDIT_LOGGING", "True")
  ]

  /** `_load_feature_flags`. */
  function FeatureFlags(vars: map<string, string>): (flags: seq<(string, bool)>)
    ensures |flags| == |FlagSources|
    ensures forall i :: 0 <= i < |flags| ==> flags[i].0 == FlagSources[i].0
    ensures forall i :: 0 <= i < |flags| && FlagSources[i].1 in vars ==>
      (flags[i].1 <==> Lower(vars[FlagSources[i].1]) == "true")
    ensures forall i :: 0 <= i < |flags| && FlagSources[i].1 !in vars ==>
      (flags[i].1 <==> FlagSources[i].2 == "True")
  {
    LowerLiteral("True", "true");
    LowerLiteral("False", "false");
    seq(|FlagSources|, i requires 0 <= i < |FlagSources| =>
      (FlagSources[i].0, EnvFlag(vars, FlagSources[i].1, FlagSources[i].2)))
  }

  /** With no `FEATURE_*` variable set, every flag but blockchain integration is on. */
  lemma DefaultFeatureFlags(vars: map<string, string>)
    requires forall i :: 0 <= i < |FlagSources| ==> FlagSources[i].1 !in vars
    ensures forall i :: 0 <= i < |FlagSources| ==> FeatureFlags(vars)[i].1 == (FlagSources[i].0 != "blockchain_integration")
  {
    assert Lower("True") == "true" by { LowerLiteral("True", "true"); }
    assert Lower("False") == "false" by { LowerLiteral("False", "false"); }
  }

  lemma LowerLiteral(s: string, t: string)
    requires |s| == |t| && forall i :: 0 <= i < |s| ==> LowerChar(s[i]) == t[i]
    ensures Lower(s) == t
  {
  }

  // ---------------------------------------------------------------------------
  // Validation
  // ---------------------------------------------------------------------------

  const JwtKeyTooShort: string := "JWT secret key must be at least 32 characters long"
  const JwtExpiryNotPositive: string := "JWT access token expiration must be positive"
  const FraudThresholdOutOfRange: string := "Fraud threshold must be between 0 and 1"
  const HighRiskThresholdOutOfRange: string := "High risk threshold must be between 0 and 1"
  const SqliteInProduction: string := "SQLite should not be used in production"
  const ProviderUrlMissing: string := "Blockchain provider URL is required when blockchain is enabled"

  /** The database URL a configuration uses. */
  function ConfigDatabaseUrl(c: Config, vars: map<string, string>): string {
    if c.urlOverride.Some? then c.urlOverride.value else DatabaseUrl(c.database, vars)
  }

  /** `'sqlite' in url.lower()`. */
  predicate MentionsSqlite(url: string) {
    Contains(Lower(url), "sqlite")
  }

  /** Each validation rule, in the order `_validate_config` applies them: (violated, message). */
  function Checks(c: Config, vars: map<string, string>): seq<(bool, string)> {
    [ (|c.security.jwtSecretKey| < 32, JwtKeyTooShort),
      (c.security.jwtAccessTokenExpires <= 0, JwtExpiryNotPositive),
      (!(0.0 <= c.ml.fraudThreshold <= 1.0), FraudThresholdOutOfRange),
      (!(0.0 <= c.ml.highRiskThreshold <= 1.0), HighRiskThresholdOutOfRange),
      (c.environment == "production" && MentionsSqlite(ConfigDatabaseUrl(c, vars)), SqliteInProduction),
      (c.blockchain.enabled && c.blockchain.providerUrl == "", ProviderUrlMissing) ]
  }

  /** `if violated: errors.append(message)`. */
  function Apply(errors: seq<string>, check: (bool, string)): seq<string> {
    if check.0 then errors + [check.1] else errors
  }

  /** The messages of the violated rules, in the order the rules are applied. */
  function Violated(checks: seq<(bool, string)>): seq<string> {
    if checks == [] then [] else Apply(Violated(checks[..|checks| - 1]), checks[|checks| - 1])
  }

  /** Applying one more rule appends its message when it is violated. */
  lemma ViolatedExtend(cs: seq<(bool, string)>, k: nat)
    requires k < |cs|
    ensures Violated(cs[..k + 1]) == Apply(Violated(cs[..k]), cs[k])
  {
    assert cs[..k + 1][..k] == cs[..k];
  }

  /** A message is reported exactly when some rule carrying it is violated. */
  lemma {:induction false} ViolatedMembers(cs: seq<(bool, string)>, m: string)
    ensures m in Violated(cs) <==> exists i :: 0 <= i < |cs| && cs[i].0 && cs[i].1 == m
  {
    if cs != [] {
      var n := |cs| - 1;
      var front := cs[..n];
      ViolatedMembers(front, m);
      if m in Violated(front) {
        var i :| 0 <= i < |front| && front[i].0 && front[i].1 == m;
        assert cs[i] == front[i];
      }
      if exists i :: 0 <= i < |cs| && cs[i].0 && cs[i].1 == m {
        var i :| 0 <= i < |cs| && cs[i].0 && cs[i].1 == m;
        if i < n { assert front[i] == cs[i]; }
      }
    }
  }

  /** Nothing is reported exactly when no rule is violated. */
  lemma {:induction false} ViolatedEmptyIff(cs: seq<(bool, string)>)
    ensures Violated(cs) == [] <==> forall i :: 0 <= i < |cs| ==> !cs[i].0
  {
    if cs != [] {
      var n := |cs| - 1;
      var front := cs[..n];
      ViolatedEmptyIff(front);
      if forall i :: 0 <= i < |cs| ==> !cs[i].0 {
        forall i | 0 <= i < |front| ensures !front[i].0 {
          assert front[i] == cs[i];
        }
      }
      if exists i :: 0 <= i < |front| && front[i].0 {
        var i :| 0 <= i < |front| && front[i].0;
        assert cs[i] == front[i];
      }
    }
  }

  /** A violated first rule yields the first message. */
  lemma {:induction false} ViolatedFirst(cs: seq<(bool, string)>)
    requires |cs| > 0 && cs[0].0
    ensures |Violated(cs)| > 0 && Violated(cs)[0] == cs[0].1
  {
    var n := |cs| - 1;
    if n > 0 {
      var front := cs[..n];
      assert front[0] == cs[0];
      ViolatedFirst(front);
    }
  }

  /** The errors `_validate_config` collects. */
  function ValidationErrors(c: Config, vars: map<string, string>): seq<string> {
    Violated(Checks(c, vars))
  }

  /** Validation fails exactly when one of the six rules is broken. */
  lemma ValidationFailsIff(c: Config, vars: map<string, string>)
    ensures ValidationErrors(c, vars) != [] <==>
      || |c.security.jwtSecretKey| < 32
      || c.security.jwtAccessTokenExpires <= 0
      || !(0.0 <= c.ml.fraudThreshold <= 1.0)
      || !(0.0 <= c.ml.highRiskThreshold <= 1.0)
      || (c.environment == "production" && MentionsSqlite(ConfigDatabaseUrl(c, vars)))
      || (c.blockchain.enabled && c.blockchain.providerUrl == "")
  {
    var cs := Checks(c, vars);
    ViolatedEmptyIff(cs);
    if exists i :: 0 <= i < |cs| && cs[i].0 {
      var i :| 0 <= i < |cs| && cs[i].0;
      assert i == 0 || i == 1 || i == 2 || i == 3 || i == 4 || i == 5;
    } else {
      assert !cs[0].0 && !cs[1].0 && !cs[2].0 && !cs[3].0 && !cs[4].0 && !cs[5].0;
    }
  }

  /** A too-short JWT key is always reported first. */
  lemma ShortJwtKeyReportedFirst(c: Config, vars: map<string, string>)
    requires |c.security.jwtSecretKey| < 32
    ensures |ValidationErrors(c, vars)| > 0 && ValidationErrors(c, vars)[0] == JwtKeyTooShort
  {
    ViolatedFirst(Checks(c, vars));
  }

  /** The six rules applied one after the other to an empty list. */
  lemma ValidationErrorsInOrder(c: Config, vars: map<string, string>)
    ensures ValidationErrors(c, vars) ==
      var e0 := Apply([], (|c.security.jwtSecretKey| < 32, JwtKeyTooShort));
      var e1 := Apply(e0, (c.security.jwtAccessTokenExpires <= 0, JwtExpiryNotPositive));
      var e2 := Apply(e1, (!(0.0 <= c.ml.fraudThreshold <= 1.0), FraudThresholdOutOfRange));
      var e3 := Apply(e2, (!(0.0 <= c.ml.highRiskThreshold <= 1.0), HighRiskThresholdOutOfRange));
      var e4 := Apply(e3, (c.environment == "production" && MentionsSqlite(ConfigDatabaseUrl(c, vars)), SqliteInProduction));
      Apply(e4, (c.blockchain.enabled && c.blockchain.providerUrl == "", ProviderUrlMissing))
  {
    var cs := Checks(c, vars);
    assert cs[..0] == [];
    ViolatedExtend(cs, 0);
    ViolatedExtend(cs, 1);
    ViolatedExtend(cs, 2);
    ViolatedExtend(cs, 3);
    ViolatedExtend(cs, 4);
    ViolatedExtend(cs, 5);
    assert cs[..6] == cs;
  }

  /** The statement sequence of `_validate_config`. */
  method ValidateConfig(c: Config, vars: map<string, string>) returns (errors: seq<string>)
    ensures errors == ValidationErrors(c, vars)
  {
    errors := [];
    if |c.security.jwtSecretKey| < 32 {
      errors := errors + [JwtKeyTooShort];
    }
    if c.security.jwtAccessTokenExpires <= 0 {
      errors := errors + [JwtExpiryNotPositive];
    }
    if !(0.0 <= c.ml.fraudThreshold <= 1.0) {
      errors := errors + [FraudThresholdOutOfRange];
    }
    if !(0.0 <= c.ml.highRiskThreshold <= 1.0) {
      errors := errors + [HighRiskThresholdOutOfRange];
    }
    if c.environment == "production" && MentionsSqlite(ConfigDatabaseUrl(c, vars)) {
      errors := errors + [SqliteInProduction];
    }
    if c.blockchain.enabled && c.blockchain.providerUrl == "" {
      errors := errors + [ProviderUrlMissing];
    }
    ValidationErrorsInOrder(c, vars);
  }

  /** The text of the raised error. */
  function ErrorMessage(e: ConfigError): string {
    match e
    case ValidationFailed(errors) => "Configuration validation failed: " + Join(errors, "; ")
    case ReadOnlyAttribute(name) => "can't set attribute '" + name + "'"
  }

  /** The message of a failed validation names every collected error. */
  lemma MessageListsEveryError(errors: seq<string>, i: nat)
    requires i < |errors|
    ensures Contains(ErrorMessage(ValidationFailed(errors)), errors[i])
  {
    JoinContainsEach(errors, "; ", i);
    ContainsSuffixOf("Configuration validation failed: ", Join(errors, "; "), errors[i]);
  }

  // ---------------------------------------------------------------------------
  // Construction, overrides and the factory
  // ---------------------------------------------------------------------------

  /** `environment or os.getenv('FLASK_ENV', 'development')`. */
  function EnvironmentName(environment: Option<string>, vars: map<string, string>): string {
    if environment.Some? && environment.value != "" then environment.value
    else GetenvOr(vars, "FLASK_ENV", "development")
  }

  /**
   * The configuration `Config.__init__` has assembled when it reaches
   * `_validate_config`: the resolved environment name, the parsed sections,
   * the run-time settings and the feature flags.
   */
  function Initial(environment: Option<string>, snap: Snapshot): (c: Config)
    ensures c.environment == EnvironmentName(environment, snap.vars)
    ensures c.database == snap.sections.database && c.redis == snap.sections.redis
    ensures c.security == snap.sections.security && c.ml == snap.sections.ml
    ensures c.blockchain == snap.sections.blockchain && c.monitoring == snap.sections.monitoring
    ensures c.featureFlags == FeatureFlags(snap.vars) && c.urlOverride.None?
    ensures "APP_NAME" in snap.vars ==> c.appName == snap.vars["APP_NAME"]
    ensures "APP_NAME" !in snap.vars ==> c.appName == "SecureCart AI Fraud Detection"
    ensures "APP_VERSION" in snap.vars ==> c.appVersion == snap.vars["APP_VERSION"]
    ensures "APP_VERSION" !in snap.vars ==> c.appVersion == "1.0.0"
    ensures "DEBUG" in snap.vars ==> (c.debug <==> Lower(snap.vars["DEBUG"]) == "true")
    ensures "DEBUG" !in snap.vars ==> !c.debug
    ensures "TESTING" in snap.vars ==> (c.testing <==> Lower(snap.vars["TESTING"]) == "true")
    ensures "TESTING" !in snap.vars ==> !c.testing
  {
    var vars := snap.vars;
    var s := snap.sections;
    LowerLiteral("False", "false");
    Config(
      EnvironmentName(environment, vars),
      s.database, s.redis, s.security, s.ml, s.blockchain, s.monitoring,
      GetenvOr(vars, "APP_NAME", "SecureCart AI Fraud Detection"),
      GetenvOr(vars, "APP_VERSION", "1.0.0"),
      EnvFlag(vars, "DEBUG", "False"),
      EnvFlag(vars, "TESTING", "False"),
      FeatureFlags(vars),
      None)
  }

  /** `Config.__init__`: assemble, then validate; a failed validation raises with every error. */
  function BaseConfig(environment: Option<string>, snap: Snapshot): (r: Result<Config, ConfigError>)
    ensures r.Ok? <==> ValidationErrors(Initial(environment, snap), snap.vars) == []
    ensures r.Ok? ==> r.value == Initial(environment, snap)
    ensures r.Err? ==> r.error == ValidationFailed(ValidationErrors(Initial(environment, snap), snap.vars))
  {
    var c := Initial(environment, snap);
    var errors := ValidationErrors(c, snap.vars);
    if errors == [] then Ok(c) else Err(ValidationFailed(errors))
  }

  /** `DevelopmentConfig()`: debug, SQL echo, no rate limit, no blockchain; all else as validated. */
  function DevelopmentConfig(snap: Snapshot): (r: Result<Config, ConfigError>)
    ensures r.Err? <==> BaseConfig(Some("development"), snap).Err?
    ensures r.Err? ==> r == BaseConfig(Some("development"), snap)
    ensures r.Ok? ==>
      var b := BaseConfig(Some("development"), snap).value;
      && r.value.environment == "development" && r.value.debug
      && r.value.database == b.database.(echo := true)
      && r.value.security == b.security.(rateLimitEnabled := false)
      && r.value.blockchain == b.blockchain.(enabled := false)
      && r.value.redis == b.redis && r.value.ml == b.ml && r.value.monitoring == b.monitoring
      && r.value.appName == b.appName && r.value.appVersion == b.appVersion && r.value.testing == b.testing
      && r.value.featureFlags == b.featureFlags && r.value.urlOverride == b.urlOverride
  {
    match BaseConfig(Some("development"), snap)
    case Err(e) => Err(e)
    case Ok(c) => Ok(c.(debug := true,
                        database := c.database.(echo := true),
                        security := c.security.(rateLimitEnabled := false),
                        blockchain := c.blockchain.(enabled := false)))
  }

  /**
   * `TestingConfig()` as written: after base validation it assigns to
   * `database.url`, a property without a setter, which raises.
   */
  function TestingConfigAsWritten(snap: Snapshot): Result<Config, ConfigError> {
    match BaseConfig(Some("testing"), snap)
    case Err(e) => Err(e)
    case Ok(c) => Err(ReadOnlyAttribute("url"))
  }

  /** As written, the testing profile can never be built. */
  lemma TestingConfigAsWrittenAlwaysFails(snap: Snapshot)
    ensures TestingConfigAsWritten(snap).Err?
    ensures BaseConfig(Some("testing"), snap).Ok? ==> TestingConfigAsWritten(snap) == Err(ReadOnlyAttribute("url"))
  {
  }

  /** `TestingConfig()` as intended: a fresh database section using the in-memory SQLite URL. */
  function TestingConfig(snap: Snapshot): (r: Result<Config, ConfigError>)
    ensures r.Err? <==> BaseConfig(Some("testing"), snap).Err?
    ensures r.Err? ==> r == BaseConfig(Some("testing"), snap)
    ensures r.Ok? ==>
      var b := BaseConfig(Some("testing"), snap).value;
      && r.value.environment == "testing" && r.value.testing
      && ConfigDatabaseUrl(r.value, snap.vars) == InMemorySqliteUrl
      && r.value.database == b.database
      && r.value.security == b.security.(rateLimitEnabled := false)
      && r.value.blockchain == b.blockchain.(enabled := false)
      && r.value.ml == b.ml.(fraudThreshold := 0.5)
      && r.value.redis == b.redis && r.value.monitoring == b.monitoring
      && r.value.appName == b.appName && r.value.appVersion == b.appVersion && r.value.debug == b.debug
      && r.value.featureFlags == b.featureFlags
  {
    match BaseConfig(Some("testing"), snap)
    case Err(e) => Err(e)
    case Ok(c) => Ok(c.(testing := true,
                        database := snap.sections.database,
                        urlOverride := Some(InMemorySqliteUrl),
                        security := c.security.(rateLimitEnabled := false),
                        blockchain := c.blockchain.(enabled := false),
                        ml := c.ml.(fraudThreshold := 0.5)))
  }

  /** `ProductionConfig()`: the overrides are applied after validation has passed. */
  function ProductionConfig(snap: Snapshot): (r: Result<Config, ConfigError>)
    ensures r.Err? <==> BaseConfig(Some("production"), snap).Err?
    ensures r.Err? ==> r == BaseConfig(Some("production"), snap)
    ensures r.Ok? ==>
      var b := BaseConfig(Some("production"), snap).value;
      && r.value.environment == "production" && !r.value.debug
      && r.value.security == b.security.(rateLimitEnabled := true, sessionTimeoutMinutes := 30,
                                         maxFailedLoginAttempts := 3)
      && r.value.ml == b.ml.(fraudThreshold := 0.8, highRiskThreshold := 0.6)
      && r.value.blockchain == b.blockchain.(enabled := true)
      && r.value.monitoring.healthCheckEnabled && r.value.monitoring.performanceMonitoringEnabled
      && r.value.database == b.database && r.value.redis == b.redis
      && r.value.appName == b.appName && r.value.appVersion == b.appVersion && r.value.testing == b.testing
      && r.value.featureFlags == b.featureFlags && r.value.urlOverride == b.urlOverride
  {
    match BaseConfig(Some("production"), snap)
    case Err(e) => Err(e)
    case Ok(c) => Ok(c.(debug := false,
                        security := c.security.(rateLimitEnabled := true, sessionTimeoutMinutes := 30,
                                                maxFailedLoginAttempts := 3),
                        ml := c.ml.(fraudThreshold := 0.8, highRiskThreshold := 0.6),
                        blockchain := c.blockchain.(enabled := true),
                        monitoring := MonitoringConfig(true, true)))
  }

  datatype Profile = Development | Testing | Production

  /** `config_map.get(env, DevelopmentConfig)`. */
  function ProfileFor(env: string): (p: Profile)
    ensures p == Production <==> env == "production"
    ensures p == Testing <==> env == "testing"
    ensures env !in {"production", "testing"} ==> p == Development
  {
    if env == "production" then Production
    else if env == "testing" then Testing
    else Development
  }

  /** `get_config`. */
  function GetConfig(environment: Option<string>, snap: Snapshot): (r: Result<Config, ConfigError>)
    ensures var name := EnvironmentName(environment, snap.vars);
      var chosen := if name in {"testing", "production"} then name else "development";
      && (r.Err? <==> BaseConfig(Some(chosen), snap).Err?)
      && (r.Err? ==> r.error.ValidationFailed? && r.error.errors != [])
      && (r.Ok? ==> r.value.environment == chosen && r.value.featureFlags == FeatureFlags(snap.vars))
    ensures var name := EnvironmentName(environment, snap.vars);
      && (name == "production" ==> r == ProductionConfig(snap))
      && (name == "testing" ==> r == TestingConfig(snap))
      && (name !in {"testing", "production"} ==> r == DevelopmentConfig(snap))
  {
    match ProfileFor(EnvironmentName(environment, snap.vars))
    case Development => DevelopmentConfig(snap)
    case Testing => TestingConfig(snap)
    case Production => ProductionConfig(snap)
  }

  /** Any name other than the three profiles, including an absent one, selects the development profile. */
  lemma GetConfigFallsBackToDevelopment(environment: Option<string>, snap: Snapshot)
    requires EnvironmentName(environment, snap.vars) !in {"development", "testing", "production"}
    ensures GetConfig(environment, snap) == DevelopmentConfig(snap)
    ensures GetConfig(environment, snap).Ok? ==> GetConfig(environment, snap).value.environment == "development"
  {
  }

  /** With nothing passed and `FLASK_ENV` unset, `get_config()` builds the development profile. */
  lemma GetConfigDefault(snap: Snapshot)
    requires "FLASK_ENV" !in snap.vars
    ensures GetConfig(None, snap) == DevelopmentConfig(snap)
  {
  }

  lemma SqliteFileUrlMentionsSqlite()
    ensures Contains(Lower(SqliteFileUrl), "sqlite")
  {
    var l := Lower(SqliteFileUrl);
    assert l[..6] == "sqlite" by {
      forall i | 0 <= i < 6 ensures l[i] == "sqlite"[i] { }
    }
  }

  /**
   * `get_config('production')` fails with the SQLite error whenever
   * `DATABASE_URL` is unset and `FLASK_ENV` is not `production`, because the
   * database URL follows `FLASK_ENV` rather than the requested profile.
   */
  lemma ProductionNeedsFlaskEnvOrDatabaseUrl(snap: Snapshot)
    requires !IsSet(snap.vars, "DATABASE_URL")
    requires GetenvOr(snap.vars, "FLASK_ENV", "") != "production"
    ensures GetConfig(Some("production"), snap).Err?
    ensures GetConfig(Some("production"), snap).error.ValidationFailed?
    ensures SqliteInProduction in GetConfig(Some("production"), snap).error.errors
    ensures Contains(ErrorMessage(GetConfig(Some("production"), snap).error), SqliteInProduction)
  {
    var vars := snap.vars;
    var s := snap.sections;
    var c := Config(
      "production",
      s.database, s.redis, s.security, s.ml, s.blockchain, s.monitoring,
      GetenvOr(vars, "APP_NAME", "SecureCart AI Fraud Detection"),
      GetenvOr(vars, "APP_VERSION", "1.0.0"),
      EnvFlag(vars, "DEBUG", "False"),
      EnvFlag(vars, "TESTING", "False"),
      FeatureFlags(vars),
      None);
    assert ConfigDatabaseUrl(c, vars) == SqliteFileUrl;
    SqliteFileUrlMentionsSqlite();
    var cs := Checks(c, vars);
    assert cs[4] == (true, SqliteInProduction);
    ViolatedMembers(cs, SqliteInProduction);
    var errors := ValidationErrors(c, vars);
    assert BaseConfig(Some("production"), snap) == Err(ValidationFailed(errors));
    var i :| 0 <= i < |errors| && errors[i] == SqliteInProduction;
    MessageListsEveryError(errors, i);
  }

  /**
   * The production overrides are never validated: when the environment leaves
   * the provider URL empty, the production profile is still built, with
   * blockchain enabled, although that configuration breaks a validation rule.
   */
  lemma ProductionOverridesEscapeValidation(snap: Snapshot)
    requires BaseConfig(Some("production"), snap).Ok?
    requires snap.sections.blockchain.providerUrl == ""
    ensures GetConfig(Some("production"), snap).Ok?
    ensures ProviderUrlMissing in ValidationErrors(GetConfig(Some("production"), snap).value, snap.vars)
  {
    var c := GetConfig(Some("production"), snap).value;
    var cs := Checks(c, snap.vars);
    assert cs[5] == (true, ProviderUrlMissing);
    ViolatedMembers(cs, ProviderUrlMissing);
  }

  // ---------------------------------------------------------------------------
  // Missing environment variables
  // ---------------------------------------------------------------------------

  const RequiredBlurb: string := "Required but not set"
  const TooShortBlurb: string := "Must be at least 32 characters long"

  const ProductionRequired: seq<string> := ["JWT_SECRET_KEY", "DB_HOST", "DB_NAME", "DB_USERNAME", "DB_PASSWORD"]

  /** `required_vars.get(env, [])`. */
  function RequiredVars(env: string): seq<string> {
    if env == "production" then ProductionRequired else []
  }

  /** The complaint about one required variable, if any. */
  function VariableIssue(vars: map<string, string>, key: string): Option<string> {
    if !IsSet(vars, key) then Some(RequiredBlurb)
    else if key == "JWT_SECRET_KEY" && |vars[key]| < 32 then Some(TooShortBlurb)
    else None
  }

  /** `validate_environment_variables`. */
  method ValidateEnvironmentVariables(vars: map<string, string>) returns (missing: map<string, string>)
    ensures GetenvOr(vars, "FLASK_ENV", "development") != "production" ==> missing == map[]
    ensures forall k :: k in missing ==> k in ProductionRequired
    ensures GetenvOr(vars, "FLASK_ENV", "development") == "production" ==>
      forall k :: k in ProductionRequired ==>
        && (k in missing <==> VariableIssue(vars, k).Some?)
        && (k in missing ==> missing[k] == VariableIssue(vars, k).value)
  {
    var required := RequiredVars(GetenvOr(vars, "FLASK_ENV", "development"));
    missing := map[];
    for i := 0 to |required|
      invariant forall k :: k in missing <==> k in required[..i] && VariableIssue(vars, k).Some?
      invariant forall k :: k in missing ==> missing[k] == VariableIssue(vars, k).value
    {
      var name := required[i];
      if !IsSet(vars, name) {
        missing := missing[name := RequiredBlurb];
      } else if name == "JWT_SECRET_KEY" && |vars[name]| < 32 {
        missing := missing[name := TooShortBlurb];
      }
      assert required[..i + 1] == required[..i] + [name];
    }
    assert required[..|required|] == required;
  }

  // ---------------------------------------------------------------------------
  // The dictionary view
  // ---------------------------------------------------------------------------

  datatype Value = Str(s: string) | Int(i: int) | Num(r: real) | Bool(b: bool) | Object(fields: seq<(string, Value)>)

  /** Flag names none of which names a credential. */
  predicate PublicNames(flags: seq<(string, bool)>) {
    forall i :: 0 <= i < |flags| ==> flags[i].0 !in SecretKeys
  }

  /** Key names that would expose a credential. */
  const SecretKeys: set<string> := {"password", "jwt_secret_key", "secret_key", "private_key"}

  /** No key at the top level or one level down names a credential. */
  predicate NoSecretKeys(v: Value) {
    v.Object? &&
    forall i :: 0 <= i < |v.fields| ==>
      && v.fields[i].0 !in SecretKeys
      && (v.fields[i].1.Object? ==> forall j :: 0 <= j < |v.fields[i].1.fields| ==> v.fields[i].1.fields[j].0 !in SecretKeys)
  }

  function FlagsObject(flags: seq<(string, bool)>): (v: Value)
    ensures v.Object? && |v.fields| == |flags|
    ensures forall i :: 0 <= i < |flags| ==> v.fields[i] == (flags[i].0, Bool(flags[i].1))
  {
    Object(seq(|flags|, i requires 0 <= i < |flags| => (flags[i].0, Bool(flags[i].1))))
  }

  /** `Config.to_dict`. */
  function ToDict(c: Config): (v: Value)
    ensures PublicNames(c.featureFlags) ==> NoSecretKeys(v)
  {
    Object([
      ("environment", Str(c.environment)),
      ("app_name", Str(c.appName)),
      ("app_version", Str(c.appVersion)),
      ("debug", Bool(c.debug)),
      ("feature_flags", FlagsObject(c.featureFlags)),
      ("database", Object([("host", Str(c.database.host)), ("port", Int(c.database.port)),
                           ("name", Str(c.database.name)), ("pool_size", Int(c.database.poolSize))])),
      ("ml", Object([("active_model_name", Str(c.ml.activeModelName)), ("model_version", Str(c.ml.modelVersion)),
                     ("fraud_threshold", Num(c.ml.fraudThreshold)), ("high_risk_threshold", Num(c.ml.highRiskThreshold))])),
      ("blockchain", Object([("enabled", Bool(c.blockchain.enabled)), ("network_name", Str(c.blockchain.networkName)),
                             ("chain_id", Int(c.blockchain.chainId))]))
    ])
  }

  /** Replace every credential a configuration holds. */
  function WithSecrets(c: Config, dbPassword: string, jwtKey: string, privateKey: Option<string>, redisPassword: Option<string>): Config {
    c.(database := c.database.(password := dbPassword),
       security := c.security.(jwtSecretKey := jwtKey),
       blockchain := c.blockchain.(privateKey := privateKey),
       redis := c.redis.(password := redisPassword))
  }

  /** The dictionary view does not depend on any credential. */
  lemma ToDictIgnoresSecrets(c: Config, dbPassword: string, jwtKey: string, privateKey: Option<string>, redisPassword: Option<string>)
    ensures ToDict(WithSecrets(c, dbPassword, jwtKey, privateKey, redisPassword)) == ToDict(c)
  {
  }

  lemma FlagNamesArePublic(vars: map<string, string>)
    ensures PublicNames(FeatureFlags(vars))
  {
    forall i | 0 <= i < |FlagSources| ensures FlagSources[i].0 !in SecretKeys {
      assert |FlagSources[i].0| > 11;
    }
  }

  /** Whatever profile the factory builds, its dictionary view names no credential. */
  lemma FactoryConfigsShowNoSecrets(environment: Option<string>, snap: Snapshot)
    requires GetConfig(environment, snap).Ok?
    ensures NoSecretKeys(ToDict(GetConfig(environment, snap).value))
  {
    FlagNamesArePublic(snap.vars);
  }
}
