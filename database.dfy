/** The database settings read from the environment and the gating of the
    database logger (src/lib/config/database.ts). The environment is a map
    from variable names to values; an unset variable is a missing key. */
module Database {
  import opened Wrappers

  type Env = map<string, string>

  /** `process.env[name]`: the value, or `None` when the variable is unset. */
  function Get(env: Env, name: string): Option<string> {
    if name in env then Some(env[name]) else None
  }

  /** `process.env[name]` is truthy: the variable is set and not empty. */
  predicate HasValue(env: Env, name: string) {
    name in env && env[name] != ""
  }

  // ---------------------------------------------------------------------------
  // getEnvVar
  // ---------------------------------------------------------------------------

  /** The value of the first listed name that has one; unset and empty
      variables are skipped. */
  function FirstValue(env: Env, names: seq<string>): (r: Option<string>)
    ensures r.None? <==> forall i :: 0 <= i < |names| ==> !HasValue(env, names[i])
    ensures r.Some? ==>
      exists i :: 0 <= i < |names| && HasValue(env, names[i]) && env[names[i]] == r.value &&
        forall j :: 0 <= j < i ==> !HasValue(env, names[j])
    ensures r.Some? ==> r.value != ""
  {
    if |names| == 0 then None
    else if HasValue(env, names[0]) then Some(env[names[0]])
    else
      var tail := FirstValue(env, names[1..]);
      assert tail.Some? ==>
        (exists i :: 0 <= i < |names| && HasValue(env, names[i]) && env[names[i]] == tail.value &&
           forall j :: 0 <= j < i ==> !HasValue(env, names[j])) by {
        if tail.Some? {
          var i :| 0 <= i < |names[1..]| && HasValue(env, names[1..][i]) && env[names[1..][i]] == tail.value &&
            forall j :: 0 <= j < i ==> !HasValue(env, names[1..][j]);
          assert names[i + 1] == names[1..][i];
          assert forall j :: 1 <= j < i + 1 ==> names[j] == names[1..][j - 1];
        }
      }
      tail
  }

  /** `getEnvVar`: the loop over the names that returns the first value
      present. */
  method GetEnvVar(env: Env, names: seq<string>) returns (r: Option<string>)
    ensures r == FirstValue(env, names)
  {
    for i := 0 to |names|
      invariant FirstValue(env, names[i..]) == FirstValue(env, names)
    {
      if HasValue(env, names[i]) {
        return Some(env[names[i]]);
      }
      assert names[i..][1..] == names[i + 1..];
    }
    assert names[|names|..] == [];
    return None;
  }

  /** With a primary name and an alias, the primary's value wins whenever it
      is set; the alias is read only when the primary is missing or empty. */
  lemma {:induction false} PrimaryNameWins(env: Env, primary: string, alias: string)
    ensures HasValue(env, primary) ==> FirstValue(env, [primary, alias]) == Some(env[primary])
    ensures !HasValue(env, primary) && HasValue(env, alias) ==> FirstValue(env, [primary, alias]) == Some(env[alias])
    ensures !HasValue(env, primary) && !HasValue(env, alias) ==> FirstValue(env, [primary, alias]) == None
  {
    assert [primary, alias][1..] == [alias];
    assert [alias][1..] == [];
  }

  // ---------------------------------------------------------------------------
  // getDatabaseConfig
  // ---------------------------------------------------------------------------

  /** One required setting: the names it may be given under, in order of
      preference, and the error raised when none is set. */
  datatype Setting = Setting(names: seq<string>, missing: string)

  const UserSetting := Setting(["POSTGRES_USER", "DB_USER"],
                               "POSTGRES_USER (или DB_USER) не задан в переменных окружения")
  const PasswordSetting := Setting(["POSTGRES_PASSWORD", "DB_PASSWORD"],
                                   "POSTGRES_PASSWORD (или DB_PASSWORD) не задан в переменных окружения")
  const DatabaseSetting := Setting(["POSTGRES_DATABASE", "DB_NAME"],
                                   "POSTGRES_DATABASE (или DB_NAME) не задан в переменных окружения")
  const HostSetting := Setting(["POSTGRES_HOST", "DB_HOST"],
                               "POSTGRES_HOST (или DB_HOST) не задан в переменных окружения")
  const PortSetting := Setting(["POSTGRES_PORT", "DB_PORT"],
                               "POSTGRES_PORT (или DB_PORT) не задан в переменных окружения")

  /** The value a setting takes from the environment. */
  function Lookup(env: Env, s: Setting): Option<string> {
    FirstValue(env, s.names)
  }

  /** The connection settings; the port is kept as the text read. */
  datatype DbConfig = DbConfig(user: string, password: string, database: string, host: string, port: string)

  /** `getDatabaseConfig`: looks up the five settings, then fails with the
      error of the first one missing, checking user, password, database, host
      and port in that order; with all five present it returns them. */
  method GetDatabaseConfig(env: Env) returns (r: Result<DbConfig, string>)
    ensures r.Ok? <==>
      Lookup(env, UserSetting).Some? && Lookup(env, PasswordSetting).Some? && Lookup(env, DatabaseSetting).Some? &&
      Lookup(env, HostSetting).Some? && Lookup(env, PortSetting).Some?
    ensures Lookup(env, UserSetting).None? ==> r == Err(UserSetting.missing)
    ensures Lookup(env, UserSetting).Some? && Lookup(env, PasswordSetting).None? ==>
      r == Err(PasswordSetting.missing)
    ensures (Lookup(env, UserSetting).Some? && Lookup(env, PasswordSetting).Some? &&
             Lookup(env, DatabaseSetting).None?) ==> r == Err(DatabaseSetting.missing)
    ensures (Lookup(env, UserSetting).Some? && Lookup(env, PasswordSetting).Some? &&
             Lookup(env, DatabaseSetting).Some? && Lookup(env, HostSetting).None?) ==> r == Err(HostSetting.missing)
    ensures (Lookup(env, UserSetting).Some? && Lookup(env, PasswordSetting).Some? &&
             Lookup(env, DatabaseSetting).Some? && Lookup(env, HostSetting).Some? &&
             Lookup(env, PortSetting).None?) ==> r == Err(PortSetting.missing)
    ensures r.Ok? ==>
      Lookup(env, UserSetting).Some? && Lookup(env, PasswordSetting).Some? &&
      Lookup(env, DatabaseSetting).Some? && Lookup(env, HostSetting).Some? && Lookup(env, PortSetting).Some? &&
      r.value == DbConfig(Lookup(env, UserSetting).value, Lookup(env, PasswordSetting).value,
                          Lookup(env, DatabaseSetting).value, Lookup(env, HostSetting).value,
                          Lookup(env, PortSetting).value)
  {
    var user := GetEnvVar(env, UserSetting.names);
    var password := GetEnvVar(env, PasswordSetting.names);
    var database := GetEnvVar(env, DatabaseSetting.names);
    var host := GetEnvVar(env, HostSetting.names);
    var port := GetEnvVar(env, PortSetting.names);
    if user.None? {
      return Err(UserSetting.missing);
    }
    if password.None? {
      return Err(PasswordSetting.missing);
    }
    if database.None? {
      return Err(DatabaseSetting.missing);
    }
    if host.None? {
      return Err(HostSetting.missing);
    }
    if port.None? {
      return Err(PortSetting.missing);
    }
    return Ok(DbConfig(user.value, password.value, database.value, host.value, port.value));
  }

  // ---------------------------------------------------------------------------
  // getSSLConfig
  // ---------------------------------------------------------------------------

  /** `getSSLConfig`: an explicit opt-out, a local host and every other host
      all lead to SSL being off. */
  function SslConfig(env: Env, host: string): (r: bool)
    ensures !r
  {
    if Get(env, "POSTGRES_SSL") == Some("false") || Get(env, "DB_SSL") == Some("false") then false
    else
      var isLocalhost := host == "localhost" || host == "127.0.0.1" || host == "::1";
      if isLocalhost then false else false
  }

  // ---------------------------------------------------------------------------
  // DB_LOGGING and dbLogger
  // ---------------------------------------------------------------------------

  /** The logging settings. */
  datatype LoggingConfig = LoggingConfig(enabled: bool, level: string, showConfig: bool, testConnection: bool)

  /** `DB_LOGGING`, read from the environment. */
  function LoggingFromEnv(env: Env): (r: LoggingConfig)
    ensures r.enabled <==>
      ("DB_LOGGING" in env && env["DB_LOGGING"] == "true") || ("NODE_ENV" in env && env["NODE_ENV"] == "development")
    ensures HasValue(env, "DB_LOG_LEVEL") ==> r.level == env["DB_LOG_LEVEL"]
    ensures !HasValue(env, "DB_LOG_LEVEL") ==> r.level == "info"
    ensures r.showConfig <==> "DB_SHOW_CONFIG" in env && env["DB_SHOW_CONFIG"] == "true"
    ensures !r.testConnection <==> "DB_TEST_CONNECTION" in env && env["DB_TEST_CONNECTION"] == "false"
  {
    var level := Get(env, "DB_LOG_LEVEL");
    LoggingConfig(
      Get(env, "DB_LOGGING") == Some("true") || Get(env, "NODE_ENV") == Some("development"),
      if level.Some? && level.value != "" then level.value else "info",
      Get(env, "DB_SHOW_CONFIG") == Some("true"),
      Get(env, "DB_TEST_CONNECTION") != Some("false"))
  }

  /** With nothing set, logging is off, the level is 'info', the settings are
      not printed and the connection test runs. */
  lemma EmptyEnvDefaults()
    ensures LoggingFromEnv(map[]) == LoggingConfig(false, "info", false, true)
  {
  }

  /** The kinds of logger message, from most to least severe. */
  datatype MessageKind = ErrorMessage | WarnMessage | InfoMessage | DebugMessage

  /** Whether `dbLogger.error`, `.warn`, `.info` or `.debug` writes its
      message under the given settings. Read as a threshold: with logging on,
      a message is written iff its kind is among the most severe
      `Verbosity(level)` kinds. */
  predicate Shows(cfg: LoggingConfig, kind: MessageKind)
    ensures Shows(cfg, kind) <==> cfg.enabled && Severity(kind) + Verbosity(cfg.level) > 4
  {
    cfg.enabled &&
    match kind
    case ErrorMessage => cfg.level in ["error", "warn", "info", "debug"]
    case WarnMessage => cfg.level in ["warn", "info", "debug"]
    case InfoMessage => cfg.level in ["info", "debug"]
    case DebugMessage => cfg.level == "debug"
  }

  /** Whether `dbLogger.config` writes its message: `showConfig` alone
      decides, so the settings are printed even with logging off. */
  predicate ShowsConfig(cfg: LoggingConfig)
    ensures !cfg.enabled && cfg.showConfig ==> ShowsConfig(cfg)
  {
    cfg.showConfig
  }

  /** How severe a message kind is: 4 for an error down to 1 for debug. */
  function Severity(kind: MessageKind): (r: nat)
    ensures 1 <= r <= 4
  {
    match kind
    case ErrorMessage => 4
    case WarnMessage => 3
    case InfoMessage => 2
    case DebugMessage => 1
  }

  /** How much a level lets through: 'debug' all four kinds, 'info' three,
      'warn' two, 'error' one; 'silent' and unknown levels none. */
  function Verbosity(level: string): (r: nat)
    ensures r <= 4
  {
    if level == "debug" then 4
    else if level == "info" then 3
    else if level == "warn" then 2
    else if level == "error" then 1
    else 0
  }

  /** Gating is monotone: a setting that writes a message writes every more
      severe one. */
  lemma ShowsMonotone(cfg: LoggingConfig, less: MessageKind, more: MessageKind)
    requires Severity(less) <= Severity(more)
    requires Shows(cfg, less)
    ensures Shows(cfg, more)
  {
  }

  /** Disabled logging, the 'silent' level and unknown levels write nothing. */
  lemma NothingShown(cfg: LoggingConfig, kind: MessageKind)
    requires !cfg.enabled || cfg.level !in ["error", "warn", "info", "debug"]
    ensures !Shows(cfg, kind)
  {
  }

  /** Whether the settings are printed depends only on `showConfig`, not on
      `enabled` or the level. */
  lemma ShowsConfigOnlyShowConfig(a: LoggingConfig, b: LoggingConfig)
    requires a.showConfig == b.showConfig
    ensures ShowsConfig(a) == ShowsConfig(b)
  {
  }
}
