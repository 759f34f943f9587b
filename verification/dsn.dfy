/** The driver-specific connection strings (DSNs) of the `/query` handler, and
    for each template a reference reading of it: the fields a driver recovers
    from the string. The round-trip lemmas say when a template is read back as
    the fields that were put in. */
module Dsn {
  import opened Wrappers
  import opened Seqs
  import opened Url
  import opened Net
  import opened Dialect

  const PostgresParams := "sslmode=disable&connect_timeout=30&pool_timeout=30&statement_timeout=60&tcp_user_timeout=60000"
  const MySqlParams := "timeout=30s&readTimeout=30s&writeTimeout=30s"
  const ClickHouseTimeouts := "read_timeout=30&write_timeout=30"

  /** Which DSNs the handler builds: its own, or corrected ones. The corrected
      DSNs escape the PostgreSQL password as URL user information, query-escape
      the ClickHouse password, and write the MySQL and ClickHouse address with
      `net.JoinHostPort`. */
  datatype Edition = AsWritten | Corrected

  /** The PostgreSQL URL, with the password text placed as given. */
  function PostgresDsn(user: string, password: string, address: string, database: string): (dsn: string)
    ensures "postgres://" <= dsn
  {
    "postgres://" + user + ":" + password + "@" + address + "/" + database + "?" + PostgresParams
  }

  /** The MySQL DSN around an address text; the password goes in unescaped. */
  function MySqlDsn(user: string, password: string, address: string, database: string): (dsn: string)
    ensures user + ":" + password + "@tcp(" <= dsn
  {
    var head := user + ":" + password + "@tcp(";
    assert head + (address + ")/" + database + "?" + MySqlParams)
        == head + address + ")/" + database + "?" + MySqlParams;
    head + address + ")/" + database + "?" + MySqlParams
  }

  /** The ClickHouse URL around an address text, with the password text
      placed as given in its query part. */
  function ClickHouseDsn(address: string, user: string, password: string, database: string): (dsn: string)
    ensures "tcp://" <= dsn
  {
    "tcp://" + address + "?" + ClickHouseQueryText(user, password, database)
  }

  /** The query part of the ClickHouse template. */
  function ClickHouseQueryText(user: string, password: string, database: string): string {
    "username=" + user + "&" + ("password=" + password + "&" + ("database=" + database + "&" + ClickHouseTimeouts))
  }

  /** Host and port for MySQL and ClickHouse: the address split by
      `SplitHostPort`, or, when that fails, the whole address with the
      default port. */
  function HostPortOrDefault(address: string, defaultPort: string): (hp: (string, string))
    ensures SplitHostPort(address).Err? ==> hp == (address, defaultPort)
    ensures SplitHostPort(address).Ok? ==>
      && NoBrackets(hp.0) && NoBrackets(hp.1) && ':' !in hp.1
      && (address == hp.0 + ":" + hp.1 || address == "[" + hp.0 + "]:" + hp.1)
  {
    match SplitHostPort(address)
    case Ok(split) => split
    case Err(_) => (address, defaultPort)
  }

  /** The address text the MySQL and ClickHouse DSNs carry: the handler writes
      `host:port` with `%s:%s`; `net.JoinHostPort` also brackets a host that
      holds a colon. */
  function AddressText(edition: Edition, host: string, port: string): (a: string)
    ensures ':' !in host ==> a == host + ":" + port
    ensures edition.Corrected? && ':' in host ==> a == "[" + host + "]:" + port
  {
    if edition.AsWritten? then host + ":" + port else JoinHostPort(host, port)
  }

  /** A character that is not `:` or a bracket is in the address text only
      if it is in the host or the port. */
  lemma AddressTextHolds(edition: Edition, host: string, port: string, c: char)
    requires c != ':' && c != '[' && c != ']'
    ensures c in AddressText(edition, host, port) ==> c in host || c in port
  {
    var a := AddressText(edition, host, port);
    if c in a {
      var k :| 0 <= k < |a| && a[k] == c;
      if edition.AsWritten? || ':' !in host {
        assert a == host + ":" + port;
        if k >= |host| + 1 {
          assert port[k - |host| - 1] == c;
        }
      } else {
        assert a == "[" + host + "]:" + port;
        if 1 <= k <= |host| {
          assert host[k - 1] == c;
        } else if k >= |host| + 3 {
          assert port[k - |host| - 3] == c;
        }
      }
    }
  }

  /** As written, a host that holds a colon loses its brackets, and the
      address text no longer splits: a driver cannot tell host from port. */
  lemma BracketsLost(host: string, port: string)
    requires NoBrackets(host) && NoBrackets(port) && ':' !in port
    ensures SplitHostPort(AddressText(AsWritten, host, port)).Ok? <==> ':' !in host
    ensures ':' in host ==>
      SplitHostPort(AddressText(AsWritten, host, port)) == Err(AddrError(host + ":" + port, TooManyColons))
  {
    var a := AddressText(AsWritten, host, port);
    if ':' in host {
      assert a == host + [':'] + port;
      LastIndexOfJoin(host, ':', port);
      assert a[..|host|] == host;
      assert host[0] != '[';
    } else {
      SplitJoinHostPort(host, port);
    }
  }

  /** Corrected, the address text splits back into the host and port for
      every host `SplitHostPort` can produce, IPv6 hosts included. */
  lemma AddressTextSplits(host: string, port: string)
    requires NoBrackets(host) && NoBrackets(port) && ':' !in port
    ensures SplitHostPort(AddressText(Corrected, host, port)) == Ok((host, port))
  {
    SplitJoinHostPort(host, port);
  }

  /** The DSN the handler opens for a driver, given the normalised address
      and the default port. */
  function Build(edition: Edition, d: Driver, user: string, password: string,
                 address: string, defaultPort: string, database: string): (dsn: string)
    ensures d.Postgres? ==> "postgres://" <= dsn
    ensures d.ClickHouse? ==> "tcp://" <= dsn
    ensures d.MySql? ==> user + ":" + password + "@tcp(" <= dsn
  {
    match d
    case Postgres =>
      var encoded := if edition.AsWritten? then QueryEscape(password) else UserinfoEscape(password);
      PostgresDsn(user, encoded, address, database)
    case MySql =>
      var (host, port) := HostPortOrDefault(address, defaultPort);
      MySqlDsn(user, password, AddressText(edition, host, port), database)
    case ClickHouse =>
      var (host, port) := HostPortOrDefault(address, defaultPort);
      ClickHouseDsn(AddressText(edition, host, port), user, if edition.AsWritten? then password else QueryEscape(password), database)
  }

  /** An address `SplitHostPort` rejects is used whole with the default port
      appended: the MySQL server "a:b:c" is written `tcp(a:b:c:3306)`. */
  lemma MalformedAddressKeptWhole(user: string, password: string, database: string)
    ensures Build(AsWritten, MySql, user, password, "a:b:c", "3306", database)
         == MySqlDsn(user, password, "a:b:c:3306", database)
  {
    assert "a:b:c" == "a:b" + [':'] + "c";
    LastIndexOfJoin("a:b", ':', "c");
    assert "a:b:c"[..3] == "a:b";
    assert "a:b"[1] == ':';
  }

  /** A bare host completed with the default port splits back into that host
      and port, so MySQL and ClickHouse see the same server as PostgreSQL. */
  lemma HostPortOfBareHost(host: string, defaultPort: string)
    requires ':' !in host && NoBrackets(host)
    requires defaultPort != "" && ':' !in defaultPort && NoBrackets(defaultPort)
    ensures HostPortOrDefault(NormalizeAddress(host, defaultPort), defaultPort) == (host, defaultPort)
  {
    SplitJoinHostPort(host, defaultPort);
  }

  /** An address that already names its port keeps it; the default is unused. */
  lemma HostPortOfExplicitPort(host: string, port: string, defaultPort: string)
    requires NoBrackets(host) && NoBrackets(port) && ':' !in port
    ensures HostPortOrDefault(JoinHostPort(host, port), defaultPort) == (host, port)
  {
    SplitJoinHostPort(host, port);
  }

  // ---------------------------------------------------------------------
  // Reference readings of the templates

  /** `s` without `prefix`, if it starts with it. */
  function After(s: string, prefix: string): (r: Option<string>)
    ensures r.Some? <==> prefix <= s
    ensures r.Some? ==> s == prefix + r.value
  {
    if prefix <= s then Some(s[|prefix|..]) else None
  }

  lemma AfterJoin(prefix: string, rest: string)
    ensures After(prefix + rest, prefix) == Some(rest)
  {
    assert (prefix + rest)[|prefix|..] == rest;
  }

  /** A character `url.Parse` refuses anywhere in a URL: an ASCII control
      character or DEL. */
  predicate Control(c: char) {
    c as int < 0x20 || c as int == 0x7F
  }

  predicate NoControl(s: string) {
    forall k :: 0 <= k < |s| ==> !Control(s[k])
  }

  /** Text a URL carries verbatim inside one of its parts: none of the
      characters that end a part (`/`, `?`, `#`, `@`) or begin an escape
      (`%`), no space, which URL user information and hosts reject, and no
      control character, for which the whole URL is refused. */
  predicate UrlVerbatim(s: string) {
    '/' !in s && '?' !in s && '#' !in s && '@' !in s && '%' !in s && ' ' !in s && NoControl(s)
  }

  datatype PostgresFields = PostgresFields(user: string, password: seq<byte>, address: string, database: string)

  /** How a PostgreSQL URL is read, positionally: the user ends at the first
      `:`, the password at `@`, the address at `/`, the database at `?`. The
      password is URL user information, decoded with `+` kept as `+`. */
  function ParsePostgres(dsn: string): Option<PostgresFields> {
    var rest :- After(dsn, "postgres://");
    var user :- SplitFirst(rest, ':');
    var password :- SplitFirst(user.1, '@');
    var address :- SplitFirst(password.1, '/');
    var database :- SplitFirst(address.1, '?');
    if database.1 != PostgresParams then None
    else
      var bytes :- Unescape(password.0, false);
      Some(PostgresFields(user.0, bytes, address.0, database.0))
  }

  /** The PostgreSQL template read back field by field, for any password
      text free of `@`. */
  lemma PostgresFieldsOf(user: string, password: string, address: string, database: string)
    requires ':' !in user && '@' !in password && '/' !in address && '?' !in database
    ensures ParsePostgres(PostgresDsn(user, password, address, database)) ==
      match Unescape(password, false)
      case None => None
      case Some(bytes) => Some(PostgresFields(user, bytes, address, database))
  {
    var r3 := database + ['?'] + PostgresParams;
    var r2 := address + ['/'] + r3;
    var r1 := password + ['@'] + r2;
    var rest := user + [':'] + r1;
    PostgresDsnShape(user, password, address, database);
    AfterJoin("postgres://", rest);
    SplitFirstJoin(user, ':', r1);
    SplitFirstJoin(password, '@', r2);
    SplitFirstJoin(address, '/', r3);
    SplitFirstJoin(database, '?', PostgresParams);
  }

  /** The PostgreSQL template, nested as it is read. */
  lemma PostgresDsnShape(user: string, password: string, address: string, database: string)
    ensures PostgresDsn(user, password, address, database)
         == "postgres://" + (user + [':'] + (password + ['@'] + (address + ['/'] + (database + ['?'] + PostgresParams))))
  {
  }

  /** The PostgreSQL fields `url.Parse` takes as they are: a user and an
      address it carries verbatim, and a database path with no `?`, `#`, `%`
      or control character. */
  predicate PostgresPlain(user: string, address: string, database: string) {
    && ':' !in user && UrlVerbatim(user) && UrlVerbatim(address)
    && '?' !in database && '#' !in database && '%' !in database && NoControl(database)
  }

  /** As written, the PostgreSQL password reaches the server intact when it
      holds no space. */
  lemma PostgresRoundTrip(user: string, password: string, address: string, defaultPort: string, database: string)
    requires PostgresPlain(user, address, database) && ' ' !in password
    ensures ParsePostgres(Build(AsWritten, Postgres, user, password, address, defaultPort, database))
         == Some(PostgresFields(user, Utf8Encode(password), address, database))
  {
    PostgresFieldsOf(user, QueryEscape(password), address, database);
    QueryEscapeAsUserinfo(password);
  }

  /** As written, a one-space PostgreSQL password is read as `+`. */
  lemma PostgresSpacePassword(user: string, address: string, defaultPort: string, database: string)
    requires PostgresPlain(user, address, database)
    ensures ParsePostgres(Build(AsWritten, Postgres, user, " ", address, defaultPort, database))
         == Some(PostgresFields(user, [Plus], address, database))
  {
    PostgresFieldsOf(user, QueryEscape(" "), address, database);
    QueryEscapedSpaceAsUserinfo();
  }

  /** With user-information escaping every PostgreSQL password arrives intact. */
  lemma PostgresCorrectedRoundTrip(user: string, password: string, address: string, defaultPort: string, database: string)
    requires PostgresPlain(user, address, database)
    ensures ParsePostgres(Build(Corrected, Postgres, user, password, address, defaultPort, database))
         == Some(PostgresFields(user, Utf8Encode(password), address, database))
  {
    PostgresFieldsOf(user, UserinfoEscape(password), address, database);
    UserinfoEscapeRoundTrip(password, false);
  }

  /** The correction changes no PostgreSQL DSN whose password needs no escaping. */
  lemma PostgresPlainPasswordUnchanged(user: string, password: string, address: string, defaultPort: string, database: string)
    requires forall k :: 0 <= k < |password| ==> Unreserved(password[k])
    ensures Build(Corrected, Postgres, user, password, address, defaultPort, database)
         == Build(AsWritten, Postgres, user, password, address, defaultPort, database)
  {
    EscapeUnreserved(password, true);
    EscapeUnreserved(password, false);
  }

  datatype MySqlFields = MySqlFields(user: string, password: string, address: string, database: string)

  /** How a MySQL DSN is read: the user ends at the first `:`, the password
      at the last `@`, so the password needs no escaping; the address is the
      text inside `tcp(…)`. */
  function ParseMySql(dsn: string): Option<MySqlFields> {
    var user :- SplitFirst(dsn, ':');
    var password :- SplitLast(user.1, '@');
    var target :- MySqlTarget(password.1);
    Some(MySqlFields(user.0, password.0, target.0, target.1))
  }

  /** Address and database of the `tcp(address)/database?params` part. */
  function MySqlTarget(net: string): Option<(string, string)> {
    var inner :- After(net, "tcp(");
    var address :- SplitFirst(inner, ')');
    var path :- After(address.1, "/");
    var database :- SplitFirst(path, '?');
    if database.1 != MySqlParams then None
    else Some((address.0, database.0))
  }

  /** The `tcp(address)/database?params` part of the MySQL template, nested as it is read. */
  function MySqlTargetText(address: string, database: string): string {
    "tcp(" + (address + [')'] + ("/" + (database + ['?'] + MySqlParams)))
  }

  lemma MySqlDsnShape(user: string, password: string, address: string, database: string)
    ensures MySqlDsn(user, password, address, database)
         == user + [':'] + (password + ['@'] + MySqlTargetText(address, database))
  {
  }

  lemma MySqlTargetOf(address: string, database: string)
    requires ')' !in address && '?' !in database
    ensures MySqlTarget(MySqlTargetText(address, database)) == Some((address, database))
  {
    var path := database + ['?'] + MySqlParams;
    var inner := address + [')'] + ("/" + path);
    AfterJoin("tcp(", inner);
    SplitFirstJoin(address, ')', "/" + path);
    AfterJoin("/", path);
    SplitFirstJoin(database, '?', MySqlParams);
  }

  lemma NoAtInMySqlTarget(address: string, database: string)
    requires '@' !in address && '@' !in database
    ensures '@' !in MySqlTargetText(address, database)
  {
    assert '@' !in MySqlParams;
  }

  /** The MySQL template reads back as its fields, whatever the password. */
  lemma MySqlFieldsOf(user: string, password: string, address: string, database: string)
    requires ':' !in user && '@' !in address && ')' !in address
    requires '@' !in database && '?' !in database
    ensures ParseMySql(MySqlDsn(user, password, address, database))
         == Some(MySqlFields(user, password, address, database))
  {
    var target := MySqlTargetText(address, database);
    MySqlDsnShape(user, password, address, database);
    SplitFirstJoin(user, ':', password + ['@'] + target);
    NoAtInMySqlTarget(address, database);
    SplitLastJoin(password, '@', target);
    MySqlTargetOf(address, database);
  }

  /** The handler's MySQL DSN reads back as the user, the raw password, the
      address text and the database, whatever the password. The database is
      kept free of `%`, which go-sql-driver/mysql from version 1.8 on
      path-unescapes. */
  lemma MySqlRoundTrip(edition: Edition, user: string, password: string, address: string, defaultPort: string, database: string)
    requires ':' !in user
    requires var (host, port) := HostPortOrDefault(address, defaultPort);
      '@' !in host && '@' !in port && ')' !in host && ')' !in port
    requires '@' !in database && '/' !in database && '?' !in database && '%' !in database
    ensures var (host, port) := HostPortOrDefault(address, defaultPort);
      ParseMySql(Build(edition, MySql, user, password, address, defaultPort, database))
      == Some(MySqlFields(user, password, AddressText(edition, host, port), database))
  {
    var (host, port) := HostPortOrDefault(address, defaultPort);
    AddressTextHolds(edition, host, port, '@');
    AddressTextHolds(edition, host, port, ')');
    MySqlFieldsOf(user, password, AddressText(edition, host, port), database);
  }

  /** The MySQL DSN built for a server given as a bare host names the
      default port, and reads back as the request's fields. As written the
      handler never opens it: the probe of the bare host fails first (see
      `Gateway.BareHostUnavailable`). */
  lemma MySqlBareHost(user: string, password: string, host: string, database: string)
    requires ':' !in user && ':' !in host && NoBrackets(host) && '@' !in host && ')' !in host
    requires '@' !in database && '/' !in database && '?' !in database && '%' !in database
    ensures ParseMySql(Build(AsWritten, MySql, user, password, NormalizeAddress(host, Port(MySql)), Port(MySql), database))
         == Some(MySqlFields(user, password, host + ":" + Port(MySql), database))
  {
    HostPortOfBareHost(host, Port(MySql));
    MySqlRoundTrip(AsWritten, user, password, NormalizeAddress(host, Port(MySql)), Port(MySql), database);
  }

  datatype ClickHouseFields = ClickHouseFields(address: string, user: seq<byte>, password: seq<byte>, database: seq<byte>)

  /** Text a URL query reads back unchanged: no `&` to end it early, no `;`
      for which `url.ParseQuery` drops the pair, no `#` to end the URL, no
      `%` or `+` to be decoded, and no control character, for which
      `url.Parse` refuses the whole URL. */
  predicate QueryLiteral(s: string) {
    '&' !in s && ';' !in s && '#' !in s && '%' !in s && '+' !in s && NoControl(s)
  }

  /** One `name=value` query parameter ended by `&`: its value and what follows. */
  function Param(query: string, key: string): Option<(string, string)> {
    var value :- After(query, key);
    SplitFirst(value, '&')
  }

  lemma ParamJoin(key: string, value: string, rest: string)
    requires '&' !in value
    ensures Param(key + value + "&" + rest, key) == Some((value, rest))
  {
    assert key + value + "&" + rest == key + (value + ['&'] + rest);
    AfterJoin(key, value + ['&'] + rest);
    SplitFirstJoin(value, '&', rest);
  }

  /** The three parameter texts of a ClickHouse URL's query, which must end
      with the fixed timeouts. */
  function ClickHouseQuery(query: string): Option<(string, string, string)> {
    var user :- Param(query, "username=");
    var password :- Param(user.1, "password=");
    var database :- Param(password.1, "database=");
    if database.1 != ClickHouseTimeouts then None
    else Some((user.0, password.0, database.0))
  }

  /** The four raw texts of a ClickHouse URL: the address before the `?`,
      then the `username`, `password` and `database` parameters. */
  function ClickHouseTexts(dsn: string): Option<(string, string, string, string)> {
    var rest :- After(dsn, "tcp://");
    var address :- SplitFirst(rest, '?');
    var params :- ClickHouseQuery(address.1);
    Some((address.0, params.0, params.1, params.2))
  }

  /** How a ClickHouse URL is read: the parameter values are decoded as query
      components, `+` meaning a space. */
  function ParseClickHouse(dsn: string): Option<ClickHouseFields> {
    var texts :- ClickHouseTexts(dsn);
    var u :- Unescape(texts.1, true);
    var p :- Unescape(texts.2, true);
    var d :- Unescape(texts.3, true);
    Some(ClickHouseFields(texts.0, u, p, d))
  }

  lemma ClickHouseQueryOf(user: string, password: string, database: string)
    requires '&' !in user && '&' !in password && '&' !in database
    ensures ClickHouseQuery(ClickHouseQueryText(user, password, database)) == Some((user, password, database))
  {
    var q3 := "database=" + database + "&" + ClickHouseTimeouts;
    var q2 := "password=" + password + "&" + q3;
    ParamJoin("username=", user, q2);
    ParamJoin("password=", password, q3);
    ParamJoin("database=", database, ClickHouseTimeouts);
  }

  /** The ClickHouse template splits back into the texts put in, for any
      texts free of `&`. */
  lemma ClickHouseTextsOf(address: string, user: string, password: string, database: string)
    requires '?' !in address
    requires '&' !in user && '&' !in password && '&' !in database
    ensures ClickHouseTexts(ClickHouseDsn(address, user, password, database))
         == Some((address, user, password, database))
  {
    var query := ClickHouseQueryText(user, password, database);
    ClickHouseDsnShape(address, user, password, database);
    AfterJoin("tcp://", address + ['?'] + query);
    SplitFirstJoin(address, '?', query);
    ClickHouseQueryOf(user, password, database);
  }

  /** The ClickHouse template, nested as it is read. */
  lemma ClickHouseDsnShape(address: string, user: string, password: string, database: string)
    ensures ClickHouseDsn(address, user, password, database)
         == "tcp://" + (address + ['?'] + ClickHouseQueryText(user, password, database))
  {
  }

  /** The ClickHouse template read back field by field, for any password
      text free of `&`. */
  lemma ClickHouseFieldsOf(address: string, user: string, password: string, database: string)
    requires '?' !in address
    requires QueryLiteral(user) && QueryLiteral(database) && '&' !in password
    ensures ParseClickHouse(ClickHouseDsn(address, user, password, database)) ==
      match Unescape(password, true)
      case None => None
      case Some(bytes) => Some(ClickHouseFields(address, Utf8Encode(user), bytes, Utf8Encode(database)))
  {
    ClickHouseTextsOf(address, user, password, database);
    UnescapeLiteral(user, true);
    UnescapeLiteral(database, true);
  }

  /** The ClickHouse host and port `url.Parse` takes as a URL host verbatim. */
  predicate ClickHousePlain(address: string, defaultPort: string) {
    var (host, port) := HostPortOrDefault(address, defaultPort);
    UrlVerbatim(host) && UrlVerbatim(port)
  }

  /** As written, a ClickHouse password arrives intact when it is query-literal. */
  lemma ClickHouseRoundTrip(user: string, password: string, address: string, defaultPort: string, database: string)
    requires ClickHousePlain(address, defaultPort)
    requires QueryLiteral(user) && QueryLiteral(database) && QueryLiteral(password)
    ensures var (host, port) := HostPortOrDefault(address, defaultPort);
      ParseClickHouse(Build(AsWritten, ClickHouse, user, password, address, defaultPort, database))
      == Some(ClickHouseFields(AddressText(AsWritten, host, port), Utf8Encode(user), Utf8Encode(password), Utf8Encode(database)))
  {
    var (host, port) := HostPortOrDefault(address, defaultPort);
    AddressTextHolds(AsWritten, host, port, '?');
    ClickHouseFieldsOf(AddressText(AsWritten, host, port), user, password, database);
    UnescapeLiteral(password, true);
  }

  /** As written, a ClickHouse password `+` is read as a space. */
  lemma ClickHousePlusPassword(user: string, address: string, defaultPort: string, database: string)
    requires ClickHousePlain(address, defaultPort)
    requires QueryLiteral(user) && QueryLiteral(database)
    ensures var (host, port) := HostPortOrDefault(address, defaultPort);
      ParseClickHouse(Build(AsWritten, ClickHouse, user, "+", address, defaultPort, database))
      == Some(ClickHouseFields(AddressText(AsWritten, host, port), Utf8Encode(user), [Space], Utf8Encode(database)))
  {
    var (host, port) := HostPortOrDefault(address, defaultPort);
    AddressTextHolds(AsWritten, host, port, '?');
    ClickHouseFieldsOf(AddressText(AsWritten, host, port), user, "+", database);
    assert "+"[1..] == "";
    var empty: seq<byte> := [];
    assert [Space] + empty == [Space];
  }

  /** With query escaping every ClickHouse password arrives intact. */
  lemma ClickHouseCorrectedRoundTrip(user: string, password: string, address: string, defaultPort: string, database: string)
    requires ClickHousePlain(address, defaultPort)
    requires QueryLiteral(user) && QueryLiteral(database)
    ensures var (host, port) := HostPortOrDefault(address, defaultPort);
      ParseClickHouse(Build(Corrected, ClickHouse, user, password, address, defaultPort, database))
      == Some(ClickHouseFields(AddressText(Corrected, host, port), Utf8Encode(user), Utf8Encode(password), Utf8Encode(database)))
  {
    var (host, port) := HostPortOrDefault(address, defaultPort);
    AddressTextHolds(Corrected, host, port, '?');
    ClickHouseFieldsOf(AddressText(Corrected, host, port), user, QueryEscape(password), database);
    QueryEscapeRoundTrip(password);
  }
}
