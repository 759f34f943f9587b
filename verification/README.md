# Query gateway of SimpleAdmin1File, in Dafny

The program is one HTTP handler, `POST /query` in `main.go`. It takes a driver
name, a server address, credentials, a database name and a raw SQL text from
a form. It completes the address with the driver's default port, builds the
driver's connection string (DSN) and probes the server with a raw TCP dial.
It then connects with up to three attempts, runs the query and answers with
the result rows as JSON, or with an error and an HTTP status.

This project models that handler as pure functions. Every backend call is an
input value rather than I/O:
- the network's answer to the probe;
- one outcome per connection attempt (open failed, ping failed, or connected);
- the query's outcome: an error, or a cursor with columns, scanned rows and a
  final iteration error.

`Gateway.Handle` maps a request and those inputs to the response (status code
and payload kind) and to a trace of what the handler reached. The trace holds
the address dialled, the DSN opened, the attempts made, the sleeps requested
and whether the query ran.

Modules, leaf first:
- `Wrappers`: `Option`, and `Result`, which carries a Go error as its text.
- `Seqs`: first and last index of an element, and splitting around it.
- `Fmt`: decimal rendering of a number, as `%d` writes it.
- `Url`: percent-encoding over UTF-8 bytes, as `url.QueryEscape` does. Also
  user-information escaping and the two matching decoders.
- `Net`: `net.SplitHostPort`, `net.JoinHostPort`, and the address checks a
  TCP dial makes before touching the network.
- `Dialect`: accepted drivers, default ports, address normalisation.
- `Dsn`: the three DSN templates, the host/port fallback, the address text
  of the MySQL and ClickHouse DSNs, and for each template a positional
  reading of the fields back out of the string.
- `Retry`: the connection loop, both as a method with a loop and as a
  declarative function.
- `Rows`: the catch-all scan, the byte-slice-to-text switch, the row map, and
  the all-or-nothing drain.
- `Gateway`: the handler and its status and payload decisions.

What the code does, and so what the model does:
- every column is scanned into one untyped slot, and the only typed step is
  the byte-slice-to-text switch;
- the end of the rows is the end of the cursor, and the one error after it is
  what `rows.Err()` reports;
- the retry loop always runs to three attempts or the first success; the
  60-second context does not cut it short;
- a failed ping on attempt `i` (counted from 0) is followed by a sleep of
  `i + 1` seconds, except after the last attempt, and a failed open by none;
- no error message names the row that failed;
- the reachability probe dials the raw `server` field, not the normalised
  address.

## Model

| member | source | states |
|---|---|---|
| Dialect.Parse | main.go:71-105 | The DSN switch accepts exactly "postgres", "mysql" and "clickhouse": an accepted name is that driver's name, and no driver has a rejected name |
| Dialect.ParseName | main.go:71-99 | Every driver's form value is accepted and selects that driver |
| Dialect.DefaultPort | main.go:50-60 | The default port is always one of "", "5432", "3306", "9000" |
| Dialect.DefaultPortIffSupported | main.go:51-60 | A name gets a non-empty default port exactly when the DSN switch accepts it, and then it is that driver's port: 5432 for postgres, 3306 for mysql, 9000 for clickhouse |
| Dialect.SqliteUnsupported | main.go:53-60 | "sqlite" gets no default port and is rejected |
| Dialect.NormalizeAddress | main.go:62-65 | The address stays a prefix of the result. With a default port the result always names a port. The address is unchanged exactly when it already has a colon or there is no default. Otherwise the result adds exactly ":" and the default port |
| Dialect.NormalizeIdempotent | main.go:63-65 | Normalising twice gives the same address as normalising once |
| Net.SplitHostPort | main.go:81-86 | A successful split gives a bracket-free host and a bracket- and colon-free port, with the address equal to host:port (colon-free host) or [host]:port. An address without a colon fails with "missing port in address" |
| Net.SplitJoinHostPort | main.go:81-86 | Splitting a joined host and port gives them back, IPv6-style bracketed hosts included |
| Net.DialAddressError | main.go:113 | An address that does not split fails before any network I/O. An empty address fails with "missing address". Any other address that does not split fails with "dial tcp: " and the split's error, so a colon-free one fails with "missing port in address" |
| Net.SplitUnbracketed | main.go:113 | An address that does not start with '[' is split at its last colon. An earlier colon fails with "too many colons in address". Otherwise it splits into the text before and after that colon, unless a '[' or a ']' makes it fail with "unexpected '['" or "unexpected ']'" |
| Net.SplitMissingBracket | main.go:113 | An address that opens '[' but never closes it fails with "missing ']' in address" |
| Net.DialBareIpv6 | main.go:112-127 | Dialing the bare IPv6 server "::1" fails before any I/O with "dial tcp: address ::1: too many colons in address" |
| Url.QueryEscape | main.go:78 | The escaped password consists only of unreserved characters, '%' and '+', so it holds none of ':', '@', '/', '?', '&', '=' or a space |
| Url.QueryEscapeRoundTrip | main.go:78 | Query-component decoding of the escaped text gives back the password's exact UTF-8 bytes |
| Url.QueryEscapeAsUserinfo | main.go:78 | A URL user-information reader, which keeps '+' as '+', gets a query-escaped password back intact exactly when it holds no space |
| Url.QueryEscapedSpaceAsUserinfo | main.go:78 | A user-information reader reads a query-escaped space as '+' |
| Dsn.HostPortOrDefault | main.go:81-86 | When `SplitHostPort` fails, the pair is exactly the whole address and the default port. When it succeeds, the pair is a bracket-free host and a colon-free port that the address writes as host:port or [host]:port |
| Dsn.HostPortOfBareHost | main.go:92-97 | A bare host completed with the default port splits back into that host and port, so the fallback is not taken |
| Dsn.HostPortOfExplicitPort | main.go:92-97 | An address that names its port keeps that port and ignores the default |
| Dsn.MalformedAddressKeptWhole | main.go:81-90 | An address `SplitHostPort` rejects is used whole with the default port appended: the MySQL server "a:b:c" is written `tcp(a:b:c:3306)` |
| Dsn.AddressText | main.go:88-89 | The MySQL and ClickHouse address text is host:port for a colon-free host. Only the corrected text brackets a host that holds a colon |
| Dsn.BracketsLost | main.go:88-89 | As written, the address text splits again exactly when the host holds no colon. An IPv6 host, split out of "[::1]:3306", comes back as "::1:3306", which fails with "too many colons" |
| Dsn.AddressTextSplits | main.go:81-89 | Written with `JoinHostPort`, the address text splits back into the same host and port for every host the split can produce |
| Dsn.Build | main.go:71-99 | The PostgreSQL DSN starts "postgres://", the ClickHouse DSN starts "tcp://", and the MySQL DSN starts with the user, ':', the raw password, then "@tcp(" |
| Dsn.PostgresRoundTrip | main.go:74-79 | As written, a PostgreSQL URL with plain user, address and database gives back those three and the password's exact bytes, for any space-free password |
| Dsn.PostgresSpacePassword | main.go:78 | As written, the password " " is read back by the server as "+" |
| Dsn.PostgresCorrectedRoundTrip | main.go:78 | With user-information escaping, every password is read back exactly |
| Dsn.PostgresPlainPasswordUnchanged | main.go:78 | The correction leaves the DSN unchanged for every password made only of unreserved characters |
| Dsn.MySqlRoundTrip | main.go:80-90 | In both editions, the MySQL DSN reads back the user, the raw password, the DSN's address text for the split host and port, and the database, for any password |
| Dsn.MySqlBareHost | main.go:80-90 | The MySQL DSN built for a server given as a bare host names host:3306 and reads back the request's own fields. As written the handler never opens it, since the probe fails first (`Gateway.BareHostUnavailable`) |
| Dsn.ClickHouseRoundTrip | main.go:91-99 | As written, a ClickHouse URL with a plain host and port gives back the host:port text and the exact bytes of user, password and database, when these are query-literal |
| Dsn.ClickHousePlusPassword | main.go:98-99 | As written, the password "+" is read back by the server as a space |
| Dsn.ClickHouseCorrectedRoundTrip | main.go:98-99 | With query escaping, every ClickHouse password is read back exactly |
| Retry.Connect | main.go:133-165 | The loop makes 1 to 3 attempts, each failed attempt before the first connecting one. Its error is clear exactly when one of the three attempts connects. Otherwise it made all 3 attempts and the error is the last attempt's. The sleeps are exactly `Delays` of the attempts made, and the whole outcome equals the declarative `Run` |
| Retry.DelaysExactly | main.go:159-164 | A sleep of d seconds is requested exactly when attempt d-1's ping failed and that was not the last attempt, so a failed open never causes a sleep |
| Retry.DelaysIncrease | main.go:162-164 | Each sleep is longer than the one before and lies between 1 and the number of attempts made |
| Retry.DelaysTotal | main.go:133-165 | The sleeps total at most 3 seconds (at most 1 after a single attempt) |
| Retry.PingsAlwaysFail | main.go:138-165 | When every ping fails the loop makes 3 attempts, sleeps 1 then 2 seconds, and keeps the last ping error |
| Retry.OpensAlwaysFail | main.go:141-145 | When every open fails the loop makes 3 attempts and never sleeps |
| Retry.RunFailsIffNoAttemptConnects | main.go:154-172 | The loop ends with an error exactly when none of the three attempts connects, and then after 3 attempts |
| Fmt.Decimal | main.go:170 | `%d` writes a number as decimal digits, without a leading zero |
| Fmt.DecimalRoundTrip | main.go:170 | Reading the `%d` text back as a decimal number gives the number |
| Rows.Decode | main.go:216-224 | A byte-slice value becomes text with the same bytes; any other value is kept unchanged |
| Rows.Scan | main.go:200-211 | A row scans exactly when the driver produced it with one value per column, and the slots then hold those values. A driver scan error is passed on unchanged |
| Rows.RowMap | main.go:213-225 | The row map's keys are exactly the column names, and each name maps to the decoded value of its last occurrence |
| Rows.RowMapDistinct | main.go:215-225 | With distinct column names, each column maps to its own decoded value |
| Rows.DuplicateColumnLaterWins | main.go:215-225 | With a repeated column name, the later column's value overwrites the earlier one |
| Rows.DrainRows | main.go:197-234 | Draining succeeds exactly when every row scans and iteration reports no error. It then yields one map per cursor row, in order, each keyed by exactly the column names. A scan failure reports the first failing row's error, an iteration failure reports the iteration error, and the result equals the declarative `Materialise` |
| Gateway.Dial | main.go:112-121 | A probe of an address that does not split fails with the address check's error. Otherwise it succeeds exactly when the network answers, and fails with the network's error |
| Gateway.Serve | main.go:41-242 | The handler, in both editions. It dials exactly when the driver is accepted, and opens a DSN exactly when it makes an attempt. The query runs exactly when the driver is accepted and the answer is not 503. `StatusCodes`, `UnsupportedDriverRejected`, `ProbeFailure`, `ConnectionFailure`, `QueryError`, `ServerError` and `SuccessPayload` state its answer on each path |
| Gateway.Answer | main.go:176-241 | After connecting, the answer is 200, 400 or 500. It is 400 exactly when the query fails. The success object comes with 200 only and the HTML error page with 500 only |
| Gateway.FailureMessages | main.go:177-232 | A failed answer names its cause with the driver's error: "Query error: ", "Failed to get columns: ", "Failed to scan row: " with the error of the first row that fails to scan, or "Error during row iteration: " when every row scanned |
| Gateway.UnsupportedDriverRejected | main.go:100-104 | The answer is 400 "Unsupported database driver" exactly when the DSN switch rejects the driver, and then nothing is dialled, opened or queried |
| Gateway.SqliteRejected | main.go:100-104 | A "sqlite" request is answered 400 "Unsupported database driver" and reaches no probe, open or query |
| Gateway.ProbeFailure | main.go:112-130 | A failed probe of the raw server field is answered 503 "Database server is not accessible: cannot connect to server " plus the field and the dial's error, before any attempt and without opening a DSN |
| Gateway.ConnectionFailure | main.go:167-173 | Past the probe, when no attempt connects the answer is 503 "Failed to connect to database after 3 attempts: " plus the last error, after 3 attempts and no query. A 503 there means no attempt connected |
| Gateway.StatusCodes | main.go:100-241 | Every answer is 200, 400, 500 or 503. The success object comes exactly with 200 and the HTML error page exactly with 500 |
| Gateway.BoundedRetries | main.go:133-165 | No request makes more than 3 attempts or asks to sleep more than 3 seconds in all |
| Gateway.QueryError | main.go:177-184 | A connected request whose query fails is answered 400 "Query error: " plus the driver's error |
| Gateway.ServerError | main.go:187-234 | Once the query ran, the answer is 500 exactly when the column fetch, a row scan or the iteration fails, and no non-200 answer carries rows. The page says "Failed to get columns: ", else "Failed to scan row: " with the first failing row's error, else "Error during row iteration: ", each followed by the driver's error |
| Gateway.SuccessPayload | main.go:236-241 | A 200 answer carries status "success" and the cursor's columns. Its rows are one map per cursor row, in cursor order, each keyed by exactly the column names. The cursor had no iteration error and the query ran |
| Gateway.SuccessWhenAllGoesWell | main.go:138-241 | A reachable probe, some connecting attempt and a clean cursor always give 200 |
| Gateway.BareHostUnavailable | main.go:113 | As written, a supported driver with a server field without a colon is always answered 503 with no attempt made, whatever the network and database do. The error is "missing port in address", or "missing address" for an empty field |
| Gateway.BareHostReachesBackend | main.go:63-65 | Corrected, a bare host of a reachable server is probed at host:default-port and at least one connection attempt is made. The query runs exactly when some attempt connects |

## Left out

- The gin shell is left out as I/O: routing, the `GET /` and `POST /test` handlers, template loading and rendering, and `r.Run`.
- JSON and HTML rendering is left out. For example, an empty row list is rendered as `null` because the Go slice stays nil. The model returns the payload values.
- Logging is left out. It has no effect on the response.
- `context.WithTimeout` and wall-clock time are left out. A ping or query that the 60-second deadline cuts off is just a failed outcome in the inputs. Sleeps are recorded as requested seconds.
- Pool tuning (`SetMaxOpenConns` and the rest) and every `Close` are left out. They are resource plumbing with no observable logic.
- The SQL text reaches the backend verbatim. The backend's answer is an input value, not a function of the text.
- Form values are Dafny strings: sequences of Unicode scalar values, encoded to UTF-8 where bytes matter. A Go string can hold any bytes, so a form value that is not valid UTF-8 cannot be represented.
- Retry.Connect: requires a script of at least three attempt outcomes, since the environment must say what each attempt does. This excludes no run of the loop.
- Go's `net.SplitHostPort`, `net.JoinHostPort`, `url.QueryEscape`, URL unescaping and the dial's address checks are not part of the repository. They are modelled from their documented behaviour.
- Dialing is modelled only as its address checks. Name resolution, port-name lookup and the 5-second timeout are folded into the network input.
- The DSN readers (`Dsn.ParsePostgres`, `Dsn.ParseMySql`, `Dsn.ParseClickHouse`) are positional: they cut each template at the separators it writes, in order. Go's `url.Parse`, `url.ParseQuery` and the MySQL driver's DSN parser behave differently in several ways. They cut at '#' and '?' before the authority, split user information at its last '@', and percent-decode the user and the path. They also drop a query pair that holds ';', refuse a URL that holds an ASCII control character or DEL, and check which characters user information and a host may hold. The drivers' own parsers are not part of this model.
- Dsn.PostgresRoundTrip: states the round trip only for a user and an address free of '/', '?', '#', '@', '%', spaces and control characters (the user also free of ':'), and a database free of '?', '#', '%' and control characters. On that input the positional reading and `url.Parse` cut the URL at the same places. The user-information character check and the port check `url.Parse` makes on the host are not modelled, so a port that is not a number reads back here but fails there.
- Dsn.MySqlRoundTrip: states the round trip only for a user free of ':', a split host and port free of '@' and ')', and a database free of '@', '/', '?' and '%'. The driver version is not part of this model, and go-sql-driver/mysql from 1.8 on path-unescapes the database name, so a '%' there reads differently across versions. On that input the positional reading and the MySQL DSN grammar of every version cut the DSN at the same places.
- Dsn.ClickHouseRoundTrip: states the as-written round trip only for host and port texts free of '/', '?', '#', '@', '%', spaces and control characters, and for user, password and database texts free of '&', ';', '#', '%', '+' and control characters. The program does not escape those, and the corrected version changes only the password and the address text.
- Scanned values are only "byte slice" or "other value". Which Go type a driver returns for a column is driver-defined and left abstract.

## Findings

| source | as written | input that shows it | evidently intended | confidence | as-written member | corrected member |
|---|---|---|---|---|---|---|
| main.go:113 | The probe dials the raw `server` field. A TCP dial needs a port, and only the normalised address has one | driver "mysql", server "db.internal": always 503 "missing port in address", although "db.internal:3306" is the address the DSN uses | Dial the normalised `serverAddress` | high; not executed | Gateway.BareHostUnavailable | Gateway.BareHostReachesBackend |
| main.go:78 | The PostgreSQL password is escaped with `url.QueryEscape`, which writes a space as '+'. URL user information reads '+' as a literal '+' | password " " reaches the server as "+" | Escape for URL user information, where a space is "%20" | medium; not executed | Dsn.PostgresSpacePassword | Dsn.PostgresCorrectedRoundTrip |
| main.go:98-99 | The ClickHouse password goes into the URL query unescaped, though the PostgreSQL branch escapes its password | password "+" is read as a space. A password holding '&' is cut short | Query-escape the password as the PostgreSQL branch does | medium; not executed | Dsn.ClickHousePlusPassword | Dsn.ClickHouseCorrectedRoundTrip |
| main.go:88-89 | The MySQL and ClickHouse DSNs write the split host and port back as `%s:%s`, which drops the brackets around an IPv6 host | driver "mysql", server "[::1]:3306": the DSN holds `tcp(::1:3306)`, and "::1:3306" no longer splits ("too many colons") | Rejoin with `net.JoinHostPort`, giving `tcp([::1]:3306)` | medium; not executed | Dsn.BracketsLost | Dsn.AddressTextSplits |

`Gateway.HandleCorrected` is the handler with all four corrections. It
dials the normalised address and builds the corrected DSNs. Every
`Gateway` lemma stated over an `Edition` holds for both handlers.
