/** Per-driver conventions of the `/query` handler: which driver names it
    accepts, the default port of each, and how a server address without a
    port is completed. */
module Dialect {
  import opened Wrappers

  /** The drivers the DSN switch accepts. SQLite is linked into the program
      but has no case there, so it is not one of them. */
  datatype Driver = Postgres | MySql | ClickHouse

  /** The form value naming each driver. */
  function Name(d: Driver): string {
    match d
    case Postgres => "postgres"
    case MySql => "mysql"
    case ClickHouse => "clickhouse"
  }

  /** The DSN switch's reading of the `driver` form field: exactly the three
      driver names are accepted, every other text (`sqlite` included) is not. */
  function Parse(name: string): (r: Option<Driver>)
    ensures r.Some? ==> Name(r.value) == name
    ensures r.None? ==> forall d :: Name(d) != name
  {
    if name == "postgres" then Some(Postgres)
    else if name == "mysql" then Some(MySql)
    else if name == "clickhouse" then Some(ClickHouse)
    else None
  }

  /** The default-port switch, which runs on the raw driver name before the
      driver is validated. */
  function DefaultPort(name: string): (port: string)
    ensures port in {"", "5432", "3306", "9000"}
  {
    if name == "postgres" then "5432"
    else if name == "mysql" then "3306"
    else if name == "clickhouse" then "9000"
    else ""
  }

  /** The port a driver's server listens on by default. */
  function Port(d: Driver): string {
    match d
    case Postgres => "5432"
    case MySql => "3306"
    case ClickHouse => "9000"
  }

  /** Every accepted driver name round-trips through `Parse`. */
  lemma ParseName(d: Driver)
    ensures Parse(Name(d)) == Some(d)
  {
  }

  /** The two switches agree: a name gets a non-empty default port exactly
      when the DSN switch accepts it, and then it is that driver's port. */
  lemma DefaultPortIffSupported(name: string)
    ensures DefaultPort(name) != "" <==> Parse(name).Some?
    ensures Parse(name).Some? ==> DefaultPort(name) == Port(Parse(name).value)
  {
  }

  /** SQLite is imported but unsupported: no default port, rejected. */
  lemma SqliteUnsupported()
    ensures DefaultPort("sqlite") == "" && Parse("sqlite") == None
  {
  }

  /** Completes an address that has no colon with the default port, if there
      is one. The original address is always kept as a prefix, and with a
      default port the result always names a port. */
  function NormalizeAddress(address: string, defaultPort: string): (r: string)
    ensures address <= r
    ensures defaultPort != "" ==> ':' in r
    ensures r == address <==> (':' in address || defaultPort == "")
    ensures r != address ==> r[|address|..] == ":" + defaultPort
  {
    if ':' !in address && defaultPort != "" then address + ":" + defaultPort else address
  }

  /** Normalising an already normalised address changes nothing. */
  lemma NormalizeIdempotent(address: string, defaultPort: string)
    ensures NormalizeAddress(NormalizeAddress(address, defaultPort), defaultPort)
         == NormalizeAddress(address, defaultPort)
  {
  }
}
