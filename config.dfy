/**
 * internal/config/config.go: settings read from the environment with defaults. The
 * environment is an input: a map from variable names to values (an unset variable is
 * absent).
 */
module Config {
  import opened Wrappers
  import opened Strings

  datatype Settings = Settings(serverPort: string, dbPath: string, logLevel: string, appEnv: string)

  /** getEnv: the variable's value when it is set and non-empty, else the default. */
  function GetEnv(env: map<string, string>, key: string, defaultValue: string): (r: string)
    ensures key in env && env[key] != "" ==> r == env[key]
    ensures key !in env || env[key] == "" ==> r == defaultValue
  {
    if key in env && env[key] != "" then env[key] else defaultValue
  }

  /** getEnvAsInt: the variable parsed by strconv.Atoi, or the default when it is unset, empty or not a number. */
  function GetEnvAsInt(env: map<string, string>, key: string, defaultValue: int): (r: int)
    ensures key in env && Atoi(env[key]).Some? ==> r == Atoi(env[key]).value
    ensures key !in env || Atoi(env[key]).None? ==> r == defaultValue
  {
    match Atoi(GetEnv(env, key, ""))
    case Some(v) => v
    case None => defaultValue
  }

  /** A 64-bit number written into the environment is read back exactly; a word is read as the default. */
  lemma GetEnvAsIntRoundTrip(env: map<string, string>, key: string, i: int, defaultValue: int)
    requires MinInt64 <= i <= MaxInt64
    ensures GetEnvAsInt(env[key := IntToString(i)], key, defaultValue) == i
    ensures GetEnvAsInt(env[key := "eighty"], key, defaultValue) == defaultValue
  {
    AtoiRoundTrip(i);
    assert !IsDigit("eighty"[0]);
  }

  /** Load: each setting from its own variable, with its default. */
  function Load(env: map<string, string>): (r: Settings)
    ensures r.serverPort == GetEnv(env, "SERVER_PORT", "8080")
    ensures r.dbPath == GetEnv(env, "DB_PATH", "./data/bitwarden-backup.db")
    ensures r.logLevel == GetEnv(env, "LOG_LEVEL", "info")
    ensures r.appEnv == GetEnv(env, "APP_ENV", "production")
  {
    Settings(
      GetEnv(env, "SERVER_PORT", "8080"),
      GetEnv(env, "DB_PATH", "./data/bitwarden-backup.db"),
      GetEnv(env, "LOG_LEVEL", "info"),
      GetEnv(env, "APP_ENV", "production"))
  }

  /** With nothing set, the defaults apply; an empty variable counts as unset. */
  lemma LoadDefaults(env: map<string, string>)
    requires forall k :: k in env ==> env[k] == ""
    ensures Load(env) == Settings("8080", "./data/bitwarden-backup.db", "info", "production")
  {
  }

  /** Setting one variable changes only its own setting. */
  lemma LoadFieldsAreIndependent(env: map<string, string>, value: string)
    ensures var r := Load(env["SERVER_PORT" := value]);
      r.dbPath == Load(env).dbPath && r.logLevel == Load(env).logLevel && r.appEnv == Load(env).appEnv
    ensures var r := Load(env["APP_ENV" := value]);
      r.serverPort == Load(env).serverPort && r.dbPath == Load(env).dbPath && r.logLevel == Load(env).logLevel
  {
  }
}
