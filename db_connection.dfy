/** The database connection helpers: `create_db_connection` (parameter
    resolution, validation, the connection string), `create_ssh_tunnel` and
    `create_db_connection_with_tunnel`. Engine creation, the test connection,
    the SSH tunnel and `quote_plus` are foreign; what they do is given by a
    `Backend`. */
module DbConnection {
  import opened Common
  import opened Strings
  import opened Values

  const DEFAULT_PORT: int := 3306
  const LOCALHOST: string := "localhost"
  const LOOPBACK: string := "127.0.0.1"
  const DRIVER: string := "mysql+mysqlconnector://"
  const DEFAULT_LOCAL_BIND_PORT: int := 3307
  const DEFAULT_SSH_PORT: int := 22

  /** What the helpers call into: `quote_plus`, the key files that exist, the
      connection strings whose engine connects, and whether a tunnel starts. */
  datatype Backend = Backend(quotePlus: string -> string, keyFiles: set<string>, accepts: set<string>, tunnelStarts: bool)

  /** The five connection parameters of `create_db_connection`. */
  datatype DbParams = DbParams(host: Value, user: Value, password: Value, database: Value, port: Value)

  /** The parameters when none is passed. */
  const NO_PARAMS: DbParams := DbParams(NoneValue, NoneValue, NoneValue, NoneValue, Int(DEFAULT_PORT))

  /** A connected engine, known by its connection string. */
  datatype Engine = Engine(url: string)

  // ---------------------------------------------------------------------------
  // create_db_connection

  /** A non-empty config dict replaces all five explicit parameters, an
      absent key reading as None and an absent port as 3306. */
  function ResolveParams(args: DbParams, config: Option<Dict>): (p: DbParams)
    ensures config.None? || config.value == map[] ==> p == args
    ensures config.Some? && config.value != map[] ==>
      && ("host" in config.value ==> p.host == config.value["host"])
      && ("host" !in config.value ==> p.host == NoneValue)
      && ("user" in config.value ==> p.user == config.value["user"])
      && ("user" !in config.value ==> p.user == NoneValue)
      && ("password" in config.value ==> p.password == config.value["password"])
      && ("password" !in config.value ==> p.password == NoneValue)
      && ("database" in config.value ==> p.database == config.value["database"])
      && ("database" !in config.value ==> p.database == NoneValue)
      && ("port" in config.value ==> p.port == config.value["port"])
      && ("port" !in config.value ==> p.port == Int(DEFAULT_PORT))
  {
    match config
    case Some(c) =>
      if c == map[] then args
      else DbParams(Get(c, "host", NoneValue), Get(c, "user", NoneValue), Get(c, "password", NoneValue),
                    Get(c, "database", NoneValue), Get(c, "port", Int(DEFAULT_PORT)))
    case None => args
  }

  /** With a non-empty config dict the explicit parameters play no part. */
  lemma ConfigOverridesArguments(a: DbParams, b: DbParams, config: Dict)
    requires config != map[]
    ensures ResolveParams(a, Some(config)) == ResolveParams(b, Some(config))
  {
  }

  /** The validation: host "localhost" needs a user and a database only; any
      other host needs host, user, password and database, all truthy. */
  predicate Acceptable(p: DbParams) {
    if p.host == Str(LOCALHOST) then Truthy(p.user) && Truthy(p.database)
    else Truthy(p.host) && Truthy(p.user) && Truthy(p.password) && Truthy(p.database)
  }

  /** On localhost the password is never looked at. */
  lemma LocalhostIgnoresPassword(p: DbParams, password: Value)
    requires p.host == Str(LOCALHOST)
    ensures Acceptable(p) <==> Acceptable(p.(password := password))
    ensures Acceptable(p) <==> Truthy(p.user) && Truthy(p.database)
  {
  }

  /** Any other host is refused without a password. */
  lemma RemoteNeedsPassword(p: DbParams)
    requires p.host != Str(LOCALHOST) && !Truthy(p.password)
    ensures !Acceptable(p)
  {
  }

  /** `quote_plus(password) if password else ""`: a falsy password gives "",
      and `quote_plus` refuses anything but text with a TypeError. */
  function EncodedPassword(password: Value, quotePlus: string -> string): (r: Result<string>)
    ensures !Truthy(password) ==> r == Ok("")
    ensures Truthy(password) && password.Str? ==> r == Ok(quotePlus(password.s))
    ensures Truthy(password) && !password.Str? ==> r == Err(TypeError)
  {
    if !Truthy(password) then Ok("")
    else if password.Str? then Ok(quotePlus(password.s))
    else Err(TypeError)
  }

  /** `mysql+mysqlconnector://{user}:{password}@{host}:{port}/{database}`. */
  function ConnectionString(p: DbParams, encoded: string): string {
    DRIVER + ((Text(p.user) + ":" + encoded) + "@" + ((Text(p.host) + ":" + Text(p.port)) + "/" + Text(p.database)))
  }

  /** `create_db_connection`: None (after a configuration error) when the
      parameters are not acceptable or when the engine does not connect; the
      engine of the connection string otherwise. A password that is not text
      raises a TypeError, which the function does not catch. */
  function CreateDbConnection(args: DbParams, config: Option<Dict>, be: Backend): (r: Result<Option<Engine>>)
    ensures var p := ResolveParams(args, config);
      && (!Acceptable(p) ==> r == Ok(None))
      && (r.Err? <==> Acceptable(p) && EncodedPassword(p.password, be.quotePlus).Err?)
      && (r.Ok? && r.value.Some? <==>
            && Acceptable(p) && EncodedPassword(p.password, be.quotePlus).Ok?
            && ConnectionString(p, EncodedPassword(p.password, be.quotePlus).value) in be.accepts)
      && (r.Ok? && r.value.Some? ==>
            r.value.value.url == ConnectionString(p, EncodedPassword(p.password, be.quotePlus).value))
  {
    var p := ResolveParams(args, config);
    if !Acceptable(p) then Ok(None)
    else match EncodedPassword(p.password, be.quotePlus)
      case Err(e) => Err(e)
      case Ok(encoded) =>
        var url := ConnectionString(p, encoded);
        Ok(if url in be.accepts then Some(Engine(url)) else None)
  }

  // ---------------------------------------------------------------------------
  // Reading a connection string back

  /** The five parts of a connection string. */
  datatype DbUrl = DbUrl(user: string, password: string, host: string, port: string, database: string)

  /** A reference reader for connection strings of the driver: the
      credentials before the `@`, user and password split at `:`, then host
      and port split at `:` before the `/` that starts the database. */
  function ParseDbUrl(url: string): Option<DbUrl> {
    if !(DRIVER <= url) then None
    else
      var at := Split(url[|DRIVER|..], "@");
      if |at| != 2 then None
      else
        var cred, loc := Split(at[0], ":"), Split(at[1], "/");
        if |cred| != 2 || |loc| != 2 then None
        else
          var hp := Split(loc[0], ":");
          if |hp| != 2 then None
          else Some(DbUrl(cred[0], cred[1], hp[0], hp[1], loc[1]))
  }

  /** A piece that can stand in a connection string without being confused
      with its separators. */
  predicate Plain(s: string) {
    Free(s, '@') && Free(s, ':') && Free(s, '/')
  }

  /** Joining two pieces free of `d` by another character keeps `d` out. */
  lemma FreeJoined(a: string, b: string, c: char, d: char)
    requires Free(a, d) && Free(b, d) && c != d
    ensures Free(a + [c] + b, d)
  {
    var s := a + [c] + b;
    forall i | 0 <= i < |s| ensures s[i] != d {
      if i < |a| { assert s[i] == a[i]; }
      else if i > |a| { assert s[i] == b[i - |a| - 1]; }
    }
  }

  /** The rendering of an integer has none of the separators. */
  lemma IntTextPlain(n: int)
    ensures Plain(IntToString(n))
  {
    IntTextFree(n, '@');
    IntTextFree(n, ':');
    IntTextFree(n, '/');
  }

  /** The connection string reads back as the parts it was made of, when
      none of them holds a separator (`quote_plus` escapes all three). */
  lemma ConnectionStringRoundTrip(p: DbParams, encoded: string)
    requires Plain(Text(p.user)) && Plain(encoded) && Plain(Text(p.host)) && Plain(Text(p.port))
    requires Free(Text(p.database), '@') && Free(Text(p.database), '/')
    ensures ParseDbUrl(ConnectionString(p, encoded)) ==
      Some(DbUrl(Text(p.user), encoded, Text(p.host), Text(p.port), Text(p.database)))
  {
    var user, host, port, db := Text(p.user), Text(p.host), Text(p.port), Text(p.database);
    var cred, hp := user + ":" + encoded, host + ":" + port;
    var loc := hp + "/" + db;
    UrlParts(cred, loc);
    FreeJoined(user, encoded, ':', '@');
    FreeJoined(host, port, ':', '@');
    FreeJoined(hp, db, '/', '@');
    SplitPair(cred, loc, '@');
    SplitPair(user, encoded, ':');
    FreeJoined(host, port, ':', '/');
    SplitPair(hp, db, '/');
    SplitPair(host, port, ':');
  }

  lemma UrlParts(cred: string, loc: string)
    ensures var url := DRIVER + (cred + "@" + loc);
      DRIVER <= url && url[|DRIVER|..] == cred + "@" + loc
  {
  }

  /** An acceptable connection with an integer port and plain parts: the
      engine's connection string gives back the user, the encoded password,
      the host, the port and the database. */
  lemma EngineUrlRoundTrip(args: DbParams, config: Option<Dict>, be: Backend)
    requires CreateDbConnection(args, config, be).Ok? && CreateDbConnection(args, config, be).value.Some?
    requires var p := ResolveParams(args, config);
      && p.port.Int? && Plain(Text(p.user)) && Plain(Text(p.host))
      && Plain(EncodedPassword(p.password, be.quotePlus).value)
      && Free(Text(p.database), '@') && Free(Text(p.database), '/')
    ensures var p := ResolveParams(args, config);
      var url := ParseDbUrl(CreateDbConnection(args, config, be).value.value.url);
      && url.Some? && url.value.user == Text(p.user) && url.value.host == Text(p.host)
      && ParseInt(url.value.port) == Some(p.port.n) && url.value.database == Text(p.database)
  {
    var p := ResolveParams(args, config);
    IntTextPlain(p.port.n);
    ConnectionStringRoundTrip(p, EncodedPassword(p.password, be.quotePlus).value);
    ParseIntToString(p.port.n);
  }

  /** An empty or missing password encodes to the empty text: the engine's
      connection string holds nothing between the user's `:` and the `@`. */
  lemma EmptyPasswordUrl(args: DbParams, config: Option<Dict>, be: Backend)
    requires CreateDbConnection(args, config, be).Ok? && CreateDbConnection(args, config, be).value.Some?
    requires var p := ResolveParams(args, config);
      && (p.password == NoneValue || p.password == Str(""))
      && Plain(Text(p.user)) && Plain(Text(p.host)) && Plain(Text(p.port))
      && Free(Text(p.database), '@') && Free(Text(p.database), '/')
    ensures var url := ParseDbUrl(CreateDbConnection(args, config, be).value.value.url);
      url.Some? && url.value.password == ""
  {
    var p := ResolveParams(args, config);
    assert EncodedPassword(p.password, be.quotePlus) == Ok("");
    ConnectionStringRoundTrip(p, "");
  }

  // ---------------------------------------------------------------------------
  // SSH tunnel

  /** The parameters of `create_ssh_tunnel`. */
  datatype TunnelArgs = TunnelArgs(sshHost: Value, sshUser: Value, keyPath: string, remoteHost: Value,
                                   remotePort: Value, localBindPort: Value, sshPort: Value)

  /** A started tunnel: the SSH server, the user and key, the remote database
      address and the local address it listens on. */
  datatype Tunnel = Tunnel(ssh: (Value, Value), user: Value, key: string, remote: (Value, Value), local: (string, Value))

  /** `create_ssh_tunnel`: a FileNotFoundError when the key path is empty or
      names no file (the existence probe is skipped for an empty path), an
      error when the tunnel does not start, the tunnel otherwise. */
  function CreateSshTunnel(a: TunnelArgs, be: Backend): (r: Result<Tunnel>)
    ensures (a.keyPath == "" || a.keyPath !in be.keyFiles) ==> r == Err(FileNotFound(a.keyPath))
    ensures r.Ok? <==> a.keyPath != "" && a.keyPath in be.keyFiles && be.tunnelStarts
    ensures r.Ok? ==> r.value.local == (LOOPBACK, a.localBindPort) && r.value.remote == (a.remoteHost, a.remotePort)
                      && r.value.ssh == (a.sshHost, a.sshPort) && r.value.key == a.keyPath
  {
    if a.keyPath == "" || a.keyPath !in be.keyFiles then Err(FileNotFound(a.keyPath))
    else if !be.tunnelStarts then Err(ConnectionError)
    else Ok(Tunnel((a.sshHost, a.sshPort), a.sshUser, a.keyPath, (a.remoteHost, a.remotePort), (LOOPBACK, a.localBindPort)))
  }

  /** The database half of `create_db_connection_with_tunnel`: the given
      credentials against 127.0.0.1 on the local bind port, explicit
      parameters only. */
  function TunnelParams(user: Value, password: Value, database: Value, localBindPort: Value): (p: DbParams)
    ensures p.host == Str(LOOPBACK) && p.port == localBindPort
    ensures p.user == user && p.password == password && p.database == database
  {
    DbParams(Str(LOOPBACK), user, password, database, localBindPort)
  }

  /** `create_db_connection_with_tunnel`: the tunnel first (its errors
      escape), forwarding to the database host and port, then the engine
      through it; the pair is returned even when there is no engine. */
  function CreateDbConnectionWithTunnel(sshHost: Value, sshUser: Value, keyPath: string, dbHost: Value, dbPort: Value,
                                        dbUser: Value, dbPassword: Value, dbName: Value,
                                        localBindPort: Value, sshPort: Value, be: Backend)
    : (r: Result<(Option<Engine>, Tunnel)>)
    ensures var t := CreateSshTunnel(TunnelArgs(sshHost, sshUser, keyPath, dbHost, dbPort, localBindPort, sshPort), be);
      var e := CreateDbConnection(TunnelParams(dbUser, dbPassword, dbName, localBindPort), None, be);
      && (t.Err? ==> r == Err(t.error))
      && (t.Ok? && e.Err? ==> r == Err(e.error))
      && (t.Ok? && e.Ok? ==> r == Ok((e.value, t.value)))
  {
    var t :- CreateSshTunnel(TunnelArgs(sshHost, sshUser, keyPath, dbHost, dbPort, localBindPort, sshPort), be);
    var e :- CreateDbConnection(TunnelParams(dbUser, dbPassword, dbName, localBindPort), None, be);
    Ok((e, t))
  }

  /** Through the tunnel the host is 127.0.0.1, not "localhost": a missing
      password leaves the tunnel open but gives no engine. */
  lemma TunnelNeedsPassword(sshHost: Value, sshUser: Value, keyPath: string, dbHost: Value, dbPort: Value,
                            dbUser: Value, dbName: Value, localBindPort: Value, sshPort: Value, be: Backend)
    requires keyPath != "" && keyPath in be.keyFiles && be.tunnelStarts
    ensures var r := CreateDbConnectionWithTunnel(sshHost, sshUser, keyPath, dbHost, dbPort, dbUser, NoneValue,
                                                  dbName, localBindPort, sshPort, be);
      r.Ok? && r.value.0.None? && r.value.1.remote == (dbHost, dbPort)
  {
    var args := TunnelArgs(sshHost, sshUser, keyPath, dbHost, dbPort, localBindPort, sshPort);
    var p := TunnelParams(dbUser, NoneValue, dbName, localBindPort);
    assert CreateSshTunnel(args, be).Ok?;
    RemoteNeedsPassword(p);
    assert CreateDbConnection(p, None, be) == Ok(None);
  }
}
