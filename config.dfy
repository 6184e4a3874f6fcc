/**
 * pkg/config/config.go: the run's settings, their validation, and the
 * environment lookup used for flag defaults. The environment is a map.
 */
module Config {
  import opened Wrappers

  datatype Config = Config(
    host: string,
    port: int,
    user: string,
    password: string,
    database: string,
    retentionDays: int,
    dryRun: bool,
    verbose: bool)

  /** The errors `Validate` returns, one per check. */
  datatype ConfigError =
    | EmptyHost
    | InvalidPort(port: int)
    | EmptyUser
    | EmptyDatabase
    | InvalidRetentionDays(days: int)

  predicate ValidPort(port: int) { 1 <= port <= 65535 }

  /** The five conditions, stated independently of the order in which they are checked. */
  predicate Valid(c: Config) {
    c.host != "" && ValidPort(c.port) && c.user != "" && c.database != "" && c.retentionDays > 0
  }

  /** `Config.Validate`: the first failing check in the order host, port, user, database, retention. */
  function Validate(c: Config): (r: Option<ConfigError>)
    ensures r.None? <==> Valid(c)
  {
    if c.host == "" then Some(EmptyHost)
    else if c.port <= 0 || c.port > 65535 then Some(InvalidPort(c.port))
    else if c.user == "" then Some(EmptyUser)
    else if c.database == "" then Some(EmptyDatabase)
    else if c.retentionDays <= 0 then Some(InvalidRetentionDays(c.retentionDays))
    else None
  }

  /** The checks in the order `Validate` runs them; each yields its error when it fails. */
  function Checks(c: Config): seq<Option<ConfigError>>
  {
    [ if c.host == "" then Some(EmptyHost) else None,
      if !ValidPort(c.port) then Some(InvalidPort(c.port)) else None,
      if c.user == "" then Some(EmptyUser) else None,
      if c.database == "" then Some(EmptyDatabase) else None,
      if c.retentionDays <= 0 then Some(InvalidRetentionDays(c.retentionDays)) else None ]
  }

  /** The reported error is the one of the first failing check; earlier checks all passed. */
  lemma ValidateReportsFirstFailure(c: Config)
    ensures Validate(c).Some? ==>
      exists i :: 0 <= i < 5 && Checks(c)[i] == Validate(c) && forall j :: 0 <= j < i ==> Checks(c)[j].None?
  {
    var cs := Checks(c);
    if c.host == "" { assert cs[0] == Validate(c); }
    else if !ValidPort(c.port) { assert cs[1] == Validate(c); }
    else if c.user == "" { assert cs[2] == Validate(c); }
    else if c.database == "" { assert cs[3] == Validate(c); }
    else if c.retentionDays <= 0 { assert cs[4] == Validate(c); }
  }

  /** The port bounds are inclusive: 1 and 65535 pass, 0 and 65536 do not. */
  lemma PortBoundaries(c: Config)
    requires c.host != ""
    ensures c.port == 0 || c.port == 65536 ==> Validate(c) == Some(InvalidPort(c.port))
    ensures c.port == 1 || c.port == 65535 ==> Validate(c) != Some(InvalidPort(c.port))
  {
  }

  /** `GetEnvOrDefault`: the variable's value when it is set and non-empty, else the default. */
  function GetEnvOrDefault(env: map<string, string>, key: string, defaultValue: string): (r: string)
    ensures key in env && env[key] != "" ==> r == env[key]
    ensures key !in env || env[key] == "" ==> r == defaultValue
  {
    if key in env && env[key] != "" then env[key] else defaultValue
  }

  /** An unset variable and a variable set to "" are treated alike. */
  lemma EnvUnsetEqualsEmpty(env: map<string, string>, key: string, defaultValue: string)
    ensures GetEnvOrDefault(env - {key}, key, defaultValue) == GetEnvOrDefault(env[key := ""], key, defaultValue)
  {
  }
}
