/**
 * Configuration read from the environment, which is passed in as a map from
 * variable names to values (a variable that is not set is not a key).
 */
module Config {
  import opened Wrappers
  import opened GoStrings

  type Env = map<string, string>

  const DefaultTrustedProxies := "192.168.1.2"
  const DsnParameters := "?charset=utf8mb4&parseTime=True&loc=Local"

  datatype Config = Config(
    port: string,
    trustedProxies: seq<string>,
    ginMode: string,
    dbHost: string,
    dbPort: string,
    dbUser: string,
    dbPassword: string,
    dbName: string)

  /** `value` is what the environment gives `key`: its value when set and non-empty, otherwise the default. */
  predicate Reads(env: Env, key: string, defaultValue: string, value: string) {
    && (key in env && env[key] != "" ==> value == env[key])
    && (key !in env || env[key] == "" ==> value == defaultValue)
  }

  function GetEnv(env: Env, key: string, defaultValue: string): (r: string)
    ensures Reads(env, key, defaultValue, r)
  {
    if key in env && env[key] != "" then env[key] else defaultValue
  }

  /** A variable set to the empty string reads exactly as one that is not set. */
  lemma EmptyVariableIsUnset(env: Env, key: string, defaultValue: string)
    ensures GetEnv(env[key := ""], key, defaultValue) == GetEnv(env - {key}, key, defaultValue)
  {
  }

  /** `TRUSTED_PROXIES` split at commas, with `192.168.1.2` when it is unset or empty. */
  /**
   * The list is never empty (the branch for an empty value cannot be taken,
   * since the default is not empty), rejoining it with commas gives the
   * variable's value back, and no entry holds a comma.
   */
  function GetTrustedProxies(env: Env): (r: seq<string>)
    ensures |r| >= 1
    ensures Reads(env, "TRUSTED_PROXIES", DefaultTrustedProxies, Join(r, ','))
    ensures forall p | p in r :: ',' !in p
  {
    var proxies := GetEnv(env, "TRUSTED_PROXIES", DefaultTrustedProxies);
    JoinSplit(proxies, ',');
    SplitPartsHaveNoSep(proxies, ',');
    if proxies == "" then [] else Split(proxies, ',')
  }

  /** There is one entry more than the value has commas: empty entries are kept. */
  lemma TrustedProxiesSplit(env: Env)
    ensures var value := GetEnv(env, "TRUSTED_PROXIES", DefaultTrustedProxies);
      |GetTrustedProxies(env)| == Count(value, ',') + 1
  {
    var value := GetEnv(env, "TRUSTED_PROXIES", DefaultTrustedProxies);
    SplitCount(value, ',');
  }

  /** Without the variable the list is the single default proxy. */
  lemma DefaultTrustedProxyList(env: Env)
    requires "TRUSTED_PROXIES" !in env || env["TRUSTED_PROXIES"] == ""
    ensures GetTrustedProxies(env) == [DefaultTrustedProxies]
  {
    SplitWithoutSep(DefaultTrustedProxies, ',');
  }

  /**
   * Every setting is read from its own variable with its own default, so no
   * setting is empty, and the proxy list is the comma-separated entries of
   * `TRUSTED_PROXIES`.
   */
  function NewConfig(env: Env): (c: Config)
    ensures Reads(env, "PORT", "8080", c.port)
    ensures Reads(env, "GIN_MODE", "debug", c.ginMode)
    ensures Reads(env, "DB_HOST", "localhost", c.dbHost)
    ensures Reads(env, "DB_PORT", "3306", c.dbPort)
    ensures Reads(env, "DB_USER", "root", c.dbUser)
    ensures Reads(env, "DB_PASSWORD", "rootpassword", c.dbPassword)
    ensures Reads(env, "DB_NAME", "MAIN", c.dbName)
    ensures Reads(env, "TRUSTED_PROXIES", DefaultTrustedProxies, Join(c.trustedProxies, ','))
    ensures |c.trustedProxies| >= 1 && forall p | p in c.trustedProxies :: ',' !in p
    ensures c.port != "" && c.ginMode != "" && c.dbHost != "" && c.dbPort != ""
    ensures c.dbUser != "" && c.dbPassword != "" && c.dbName != ""
  {
    Config(
      GetEnv(env, "PORT", "8080"),
      GetTrustedProxies(env),
      GetEnv(env, "GIN_MODE", "debug"),
      GetEnv(env, "DB_HOST", "localhost"),
      GetEnv(env, "DB_PORT", "3306"),
      GetEnv(env, "DB_USER", "root"),
      GetEnv(env, "DB_PASSWORD", "rootpassword"),
      GetEnv(env, "DB_NAME", "MAIN"))
  }

  /** With an empty environment every setting takes its default. */
  lemma NewConfigDefaults()
    ensures NewConfig(map[]) == Config("8080", ["192.168.1.2"], "debug", "localhost", "3306", "root", "rootpassword", "MAIN")
  {
    DefaultTrustedProxyList(map[]);
  }

  /** The MySQL data source name `user:password@tcp(host:port)/name?charset=...`. */
  function GetDSN(c: Config): (dsn: string)
    ensures HasPrefix(dsn, c.dbUser + ":" + c.dbPassword + "@tcp(")
    ensures |dsn| >= |DsnParameters| && dsn[|dsn| - |DsnParameters|..] == DsnParameters
    ensures |dsn| == |c.dbUser| + |c.dbPassword| + |c.dbHost| + |c.dbPort| + |c.dbName| + 9 + |DsnParameters|
  {
    var dsn := c.dbUser + ":" + c.dbPassword + "@tcp(" + c.dbHost + ":" + c.dbPort + ")/" + c.dbName + DsnParameters;
    assert dsn[..|c.dbUser + ":" + c.dbPassword + "@tcp("|] == c.dbUser + ":" + c.dbPassword + "@tcp(";
    dsn
  }

  /** The five connection settings a DSN names. */
  datatype DsnFields = DsnFields(user: string, password: string, host: string, port: string, name: string)

  function FieldsOf(c: Config): DsnFields {
    DsnFields(c.dbUser, c.dbPassword, c.dbHost, c.dbPort, c.dbName)
  }

  /** `/name?charset=...`: the database name before the fixed parameters. */
  function ParseDatabase(tail: string): Option<string> {
    if !HasPrefix(tail, "/") then None
    else
      match Cut(tail[1..], '?')
      case None => None
      case Some((name, query)) => if "?" + query != DsnParameters then None else Some(name)
  }

  /** `host:port)/name?charset=...`: the address and the database name. */
  function ParseAddress(s: string): Option<(string, string, string)> {
    match Cut(s, ')')
    case None => None
    case Some((address, tail)) =>
      match Cut(address, ':')
      case None => None
      case Some((host, port)) =>
        match ParseDatabase(tail)
        case None => None
        case Some(name) => Some((host, port, name))
  }

  /**
   * Reads a DSN back, cutting at the first `@`, then the first `:` of the
   * credentials, the `tcp(` prefix, the first `)`, the first `:` of the
   * address, the `/` and the first `?`, and checking the fixed parameters.
   */
  function ParseDsn(dsn: string): Option<DsnFields> {
    match Cut(dsn, '@')
    case None => None
    case Some((credentials, rest)) =>
      match Cut(credentials, ':')
      case None => None
      case Some((user, password)) =>
        if !HasPrefix(rest, "tcp(") then None
        else
          match ParseAddress(rest[4..])
          case None => None
          case Some((host, port, name)) => Some(DsnFields(user, password, host, port, name))
  }

  /**
   * The settings a DSN is read back from contain none of the delimiters
   * that end them: `@` and `:` for the user, `@` for the password, `)` and
   * `:` for the host, `)` for the port and `?` for the database name.
   */
  predicate PlainFields(c: Config) {
    && '@' !in c.dbUser && ':' !in c.dbUser
    && '@' !in c.dbPassword
    && ')' !in c.dbHost && ':' !in c.dbHost
    && ')' !in c.dbPort
    && '?' !in c.dbName
  }

  /** The tail of a DSN reads back the database name. */
  lemma DatabaseRoundTrip(name: string)
    requires '?' !in name
    ensures ParseDatabase("/" + name + DsnParameters) == Some(name)
  {
    var tail := "/" + name + DsnParameters;
    assert DsnParameters == ['?'] + DsnParameters[1..];
    assert tail[..1] == "/" && tail[1..] == name + ['?'] + DsnParameters[1..];
    CutAtFirstSep(name, '?', DsnParameters[1..]);
  }

  /** The part after `tcp(` reads back host, port and database name. */
  lemma AddressRoundTrip(host: string, port: string, name: string)
    requires ')' !in host && ':' !in host && ')' !in port && '?' !in name
    ensures ParseAddress(host + ":" + port + ")/" + name + DsnParameters) == Some((host, port, name))
  {
    var address := host + ":" + port;
    var tail := "/" + name + DsnParameters;
    assert host + ":" + port + ")/" + name + DsnParameters == address + [')'] + tail;
    assert ')' !in address;
    CutAtFirstSep(address, ')', tail);
    CutAtFirstSep(host, ':', port);
    DatabaseRoundTrip(name);
  }

  /** The DSN names exactly the configured user, password, host, port and database, in that order. */
  lemma DsnRoundTrip(c: Config)
    requires PlainFields(c)
    ensures ParseDsn(GetDSN(c)) == Some(FieldsOf(c))
  {
    var afterTcp := c.dbHost + ":" + c.dbPort + ")/" + c.dbName + DsnParameters;
    var rest := "tcp(" + afterTcp;
    var credentials := c.dbUser + ":" + c.dbPassword;
    assert GetDSN(c) == credentials + ['@'] + rest;
    assert '@' !in credentials;
    CutAtFirstSep(credentials, '@', rest);
    CutAtFirstSep(c.dbUser, ':', c.dbPassword);
    assert rest[..4] == "tcp(" && rest[4..] == afterTcp;
    AddressRoundTrip(c.dbHost, c.dbPort, c.dbName);
  }

  /** Configurations whose settings are plain and whose DSNs agree name the same database connection. */
  lemma DsnInjective(c: Config, d: Config)
    requires PlainFields(c) && PlainFields(d)
    requires GetDSN(c) == GetDSN(d)
    ensures FieldsOf(c) == FieldsOf(d)
  {
    DsnRoundTrip(c);
    DsnRoundTrip(d);
  }
}
