/** The `POST /query` handler as a function from the form fields and the
    backends' behaviour to the response it sends. The network, the driver,
    the server and the clock are inputs: the probe's answer, one outcome per
    connection attempt, and the query's result cursor. Besides the response
    the model returns a trace of what the handler reached: the address it
    dialled, the DSN it opened, its attempts and sleeps, whether it queried. */
module Gateway {
  import opened Wrappers
  import opened Fmt
  import opened Dialect
  import opened Net
  import opened Dsn
  import opened Retry
  import opened Rows

  const StatusOK: nat := 200
  const StatusBadRequest: nat := 400
  const StatusInternalServerError: nat := 500
  const StatusServiceUnavailable: nat := 503

  const UnsupportedDriver := "Unsupported database driver"

  /** The form fields of a `POST /query`. */
  datatype Request = Request(driver: string, server: string, username: string,
                             password: string, database: string, query: string)

  /** What the network does with a TCP dial of a well-formed address. */
  datatype Network = Reachable | Unreachable(error: string)

  /** What `db.QueryContext` returns: an error, or a cursor. */
  datatype Backend<V> = QueryFailed(error: string) | Answered(cursor: Cursor<V>)

  /** Everything outside the handler: network, connection attempts, query. */
  datatype Env<V> = Env(network: Network, script: seq<Attempt>, backend: Backend<V>)

  /** The three payload kinds: a JSON error, the `result.html` page with an
      error, or the JSON success object. */
  datatype Payload<V> =
    | JsonError(error: string)
    | HtmlError(error: string)
    | Success(columns: seq<string>, rows: seq<Row<V>>, status: string)

  datatype Response<V> = Response(code: nat, payload: Payload<V>)

  /** How far the handler got. */
  datatype Trace = Trace(dialed: Option<string>, dsn: Option<string>, attempts: nat, delays: seq<nat>, queried: bool)

  datatype Exchange<V> = Exchange(response: Response<V>, trace: Trace)

  const Untouched := Trace(None, None, 0, [], false)

  /** `net.DialTimeout("tcp", address, …)`: the address check, then the network. */
  function Dial(address: string, network: Network): (r: Result<()>)
    ensures SplitHostPort(address).Err? ==> r == Err(DialAddressError(address).value)
    ensures SplitHostPort(address).Ok? ==> (r.Ok? <==> network.Reachable?)
    ensures SplitHostPort(address).Ok? && network.Unreachable? ==> r == Err(network.error)
  {
    match DialAddressError(address)
    case Some(e) => Err(e)
    case None =>
      match network
      case Reachable => Ok(())
      case Unreachable(e) => Err(e)
  }

  /** Everything after a successful connection: run the query, read the
      columns, drain the rows. */
  function Answer<V>(backend: Backend<V>): (r: Response<V>)
    ensures r.code in {StatusOK, StatusBadRequest, StatusInternalServerError}
    ensures r.code == StatusBadRequest <==> backend.QueryFailed?
    ensures r.payload.Success? <==> r.code == StatusOK
    ensures r.payload.HtmlError? <==> r.code == StatusInternalServerError
  {
    match backend
    case QueryFailed(e) => Response(StatusBadRequest, JsonError("Query error: " + e))
    case Answered(cursor) =>
      match cursor.columns
      case Err(e) => Response(StatusInternalServerError, HtmlError("Failed to get columns: " + e))
      case Ok(columns) =>
        match Materialise(columns, cursor.rows, cursor.iterError)
        case ScanFailure(e) => Response(StatusInternalServerError, HtmlError("Failed to scan row: " + e))
        case IterationFailure(e) => Response(StatusInternalServerError, HtmlError("Error during row iteration: " + e))
        case Drained(rows) => Response(StatusOK, Success(columns, rows, "success"))
  }

  /** A failed answer names its cause and carries the driver's error: the
      query's, the column fetch's, the first row that fails to scan, or else
      the iteration's. */
  lemma FailureMessages<V>(backend: Backend<V>)
    ensures backend.QueryFailed? ==> Answer(backend).payload == JsonError("Query error: " + backend.error)
    ensures backend.Answered? && backend.cursor.columns.Err? ==>
      Answer(backend).payload == HtmlError("Failed to get columns: " + backend.cursor.columns.error)
    ensures backend.Answered? && backend.cursor.columns.Ok? ==>
      var rows, columns := backend.cursor.rows, backend.cursor.columns.value;
      forall k :: 0 <= k < |rows| && Scan(columns, rows[k]).Err? && (forall j :: 0 <= j < k ==> Scan(columns, rows[j]).Ok?) ==>
        Answer(backend).payload == HtmlError("Failed to scan row: " + Scan(columns, rows[k]).error)
    ensures backend.Answered? && backend.cursor.columns.Ok? && backend.cursor.iterError.Some? ==>
      var rows, columns := backend.cursor.rows, backend.cursor.columns.value;
      (forall i :: 0 <= i < |rows| ==> Scan(columns, rows[i]).Ok?) ==>
        Answer(backend).payload == HtmlError("Error during row iteration: " + backend.cursor.iterError.value)
  {
  }

  /** The handler. `AsWritten` dials the raw `server` field and encodes the
      passwords as the program does; `Corrected` dials the normalised address
      and uses the corrected DSNs. */
  function Serve<V>(edition: Edition, req: Request, env: Env<V>): (x: Exchange<V>)
    requires MaxRetries <= |env.script|
    ensures x.trace.dialed.Some? <==> Parse(req.driver).Some?
    ensures x.trace.dsn.Some? <==> x.trace.attempts > 0
    ensures x.trace.queried <==> Parse(req.driver).Some? && x.response.code != StatusServiceUnavailable
  {
    var defaultPort := DefaultPort(req.driver);
    var address := NormalizeAddress(req.server, defaultPort);
    match Parse(req.driver)
    case None => Exchange(Response(StatusBadRequest, JsonError(UnsupportedDriver)), Untouched)
    case Some(d) =>
      var dsn := Build(edition, d, req.username, req.password, address, defaultPort, req.database);
      var target := if edition.AsWritten? then req.server else address;
      match Dial(target, env.network)
      case Err(e) =>
        Exchange(Response(StatusServiceUnavailable,
                          JsonError("Database server is not accessible: cannot connect to server " + target + ": " + e)),
                 Trace(Some(target), None, 0, [], false))
      case Ok(_) =>
        var c := Run(env.script);
        match c.error
        case Some(e) =>
          Exchange(Response(StatusServiceUnavailable,
                            JsonError("Failed to connect to database after " + Decimal(MaxRetries) + " attempts: " + e)),
                   Trace(Some(target), Some(dsn), c.attempts, c.delays, false))
        case None =>
          Exchange(Answer(env.backend), Trace(Some(target), Some(dsn), c.attempts, c.delays, true))
  }

  /** The handler as the program has it. */
  function Handle<V>(req: Request, env: Env<V>): Exchange<V>
    requires MaxRetries <= |env.script|
  {
    Serve(AsWritten, req, env)
  }

  /** The handler with the probe and password encodings corrected. */
  function HandleCorrected<V>(req: Request, env: Env<V>): Exchange<V>
    requires MaxRetries <= |env.script|
  {
    Serve(Corrected, req, env)
  }

  // ---------------------------------------------------------------------
  // Properties of the handler

  /** The driver is rejected with 400 exactly when the DSN switch does not
      know it, and then nothing is dialled, opened or queried. */
  lemma UnsupportedDriverRejected<V>(edition: Edition, req: Request, env: Env<V>)
    requires MaxRetries <= |env.script|
    ensures Parse(req.driver).None? <==>
      Serve(edition, req, env).response == Response(StatusBadRequest, JsonError(UnsupportedDriver))
    ensures Parse(req.driver).None? ==> Serve(edition, req, env).trace == Untouched
  {
    var r := Serve(edition, req, env).response;
    if Parse(req.driver).Some? && r.code == StatusBadRequest {
      var c := Run(env.script);
      assert env.backend.QueryFailed?;
      assert r.payload.error[0] == 'Q';
    }
  }

  /** SQLite is among the rejected drivers. */
  lemma SqliteRejected<V>(req: Request, env: Env<V>)
    requires MaxRetries <= |env.script| && req.driver == "sqlite"
    ensures Handle(req, env) == Exchange(Response(StatusBadRequest, JsonError(UnsupportedDriver)), Untouched)
  {
  }

  /** A failed reachability probe answers 503 before any connection attempt,
      naming the server field and the dial's error. */
  lemma ProbeFailure<V>(req: Request, env: Env<V>)
    requires MaxRetries <= |env.script|
    requires Parse(req.driver).Some? && Dial(req.server, env.network).Err?
    ensures Handle(req, env).response.code == StatusServiceUnavailable
    ensures Handle(req, env).response.payload == JsonError(
      "Database server is not accessible: cannot connect to server " + req.server + ": " + Dial(req.server, env.network).error)
    ensures Handle(req, env).trace == Trace(Some(req.server), None, 0, [], false)
  {
  }

  /** Past the probe, the 503 "after 3 attempts" answer comes exactly when
      none of the three attempts connects; the query is then never run. */
  lemma ConnectionFailure<V>(req: Request, env: Env<V>)
    requires MaxRetries <= |env.script|
    requires Parse(req.driver).Some? && Dial(req.server, env.network).Ok?
    ensures (forall j :: 0 <= j < MaxRetries ==> !env.script[j].Connected?) ==>
      && Handle(req, env).response == Response(StatusServiceUnavailable,
           JsonError("Failed to connect to database after 3 attempts: " + env.script[MaxRetries - 1].error))
      && Handle(req, env).trace.attempts == MaxRetries
      && !Handle(req, env).trace.queried
    ensures Handle(req, env).response.code == StatusServiceUnavailable ==>
      forall j :: 0 <= j < MaxRetries ==> !env.script[j].Connected?
  {
    RunFailsIffNoAttemptConnects(env.script);
    AfterProbe(req, env);
    var c := Run(env.script);
    if c.error.Some? {
      ThreeAttemptsMessage(c.error.value);
    }
  }

  /** Past the probe, the handler answers with the connection loop's error,
      or else with the query's answer. */
  lemma AfterProbe<V>(req: Request, env: Env<V>)
    requires MaxRetries <= |env.script|
    requires Parse(req.driver).Some? && Dial(req.server, env.network).Ok?
    ensures var c := Run(env.script);
      Handle(req, env).response == if c.error.Some? then
        Response(StatusServiceUnavailable, JsonError("Failed to connect to database after " + Decimal(MaxRetries) + " attempts: " + c.error.value))
      else Answer(env.backend)
    ensures Handle(req, env).trace.attempts == Run(env.script).attempts
    ensures Handle(req, env).trace.queried <==> Run(env.script).error.None?
  {
  }

  /** The retry count as the connection-failure message spells it. */
  lemma ThreeAttemptsMessage(e: string)
    ensures "Failed to connect to database after " + Decimal(MaxRetries) + " attempts: " + e
         == "Failed to connect to database after 3 attempts: " + e
  {
    assert Decimal(MaxRetries) == "3";
  }

  /** The handler answers with one of four codes; the success object comes
      with 200 only, the HTML page with 500 only. */
  lemma StatusCodes<V>(edition: Edition, req: Request, env: Env<V>)
    requires MaxRetries <= |env.script|
    ensures Serve(edition, req, env).response.code in {StatusOK, StatusBadRequest, StatusInternalServerError, StatusServiceUnavailable}
    ensures Serve(edition, req, env).response.payload.Success? <==> Serve(edition, req, env).response.code == StatusOK
    ensures Serve(edition, req, env).response.payload.HtmlError? <==> Serve(edition, req, env).response.code == StatusInternalServerError
  {
  }

  /** The handler never sleeps more than 3 seconds nor tries more than 3 times. */
  lemma BoundedRetries<V>(edition: Edition, req: Request, env: Env<V>)
    requires MaxRetries <= |env.script|
    ensures Serve(edition, req, env).trace.attempts <= MaxRetries
    ensures Sum(Serve(edition, req, env).trace.delays) <= 3
  {
    DelaysTotal(env.script, Run(env.script).attempts);
  }

  /** A connected handler whose query fails answers 400 with the driver's error. */
  lemma QueryError<V>(req: Request, env: Env<V>)
    requires MaxRetries <= |env.script|
    requires Parse(req.driver).Some? && Dial(req.server, env.network).Ok?
    requires Run(env.script).error.None? && env.backend.QueryFailed?
    ensures Handle(req, env).response == Response(StatusBadRequest, JsonError("Query error: " + env.backend.error))
  {
  }

  /** The rows are all or nothing: once the query ran, the answer is 500
      exactly when the columns, a row scan or the iteration fails, and a
      failure never carries rows. The page names the failure: the columns
      first, then the first row that fails to scan, then the iteration. */
  lemma ServerError<V>(req: Request, env: Env<V>)
    requires MaxRetries <= |env.script|
    requires Parse(req.driver).Some? && Dial(req.server, env.network).Ok?
    requires Run(env.script).error.None? && env.backend.Answered?
    ensures var cursor := env.backend.cursor;
      Handle(req, env).response.code == StatusInternalServerError <==>
        || cursor.columns.Err?
        || cursor.iterError.Some?
        || exists i :: 0 <= i < |cursor.rows| && Scan(cursor.columns.value, cursor.rows[i]).Err?
    ensures Handle(req, env).response.code != StatusOK ==> !Handle(req, env).response.payload.Success?
    ensures env.backend.cursor.columns.Err? ==>
      Handle(req, env).response == Response(StatusInternalServerError, HtmlError("Failed to get columns: " + env.backend.cursor.columns.error))
    ensures env.backend.cursor.columns.Ok? ==>
      var rows, columns := env.backend.cursor.rows, env.backend.cursor.columns.value;
      forall k :: 0 <= k < |rows| && Scan(columns, rows[k]).Err? && (forall j :: 0 <= j < k ==> Scan(columns, rows[j]).Ok?) ==>
        Handle(req, env).response == Response(StatusInternalServerError, HtmlError("Failed to scan row: " + Scan(columns, rows[k]).error))
    ensures env.backend.cursor.columns.Ok? && env.backend.cursor.iterError.Some? ==>
      var rows, columns := env.backend.cursor.rows, env.backend.cursor.columns.value;
      (forall i :: 0 <= i < |rows| ==> Scan(columns, rows[i]).Ok?) ==>
        Handle(req, env).response == Response(StatusInternalServerError, HtmlError("Error during row iteration: " + env.backend.cursor.iterError.value))
  {
    FailureMessages(env.backend);
    var cursor := env.backend.cursor;
    if cursor.columns.Ok? {
      var k := FirstFailure(cursor.columns.value, cursor.rows);
      if k < |cursor.rows| {
        assert Scan(cursor.columns.value, cursor.rows[k]).Err?;
      }
    }
  }

  /** A 200 answer carries the cursor's columns and one map per cursor row,
      in cursor order, keyed by exactly the column names, byte values as text. */
  lemma SuccessPayload<V>(edition: Edition, req: Request, env: Env<V>)
    requires MaxRetries <= |env.script|
    ensures Serve(edition, req, env).response.code == StatusOK ==>
      env.backend.Answered? && env.backend.cursor.columns.Ok?
    ensures Serve(edition, req, env).response.code == StatusOK ==>
      var cursor := env.backend.cursor;
      var columns := cursor.columns.value;
      var payload := Serve(edition, req, env).response.payload;
      && payload == Success(columns, payload.rows, "success")
      && |payload.rows| == |cursor.rows|
      && cursor.iterError.None?
      && forall i :: 0 <= i < |cursor.rows| ==>
           && cursor.rows[i].Fetched?
           && payload.rows[i] == RowMap(columns, cursor.rows[i].values)
           && payload.rows[i].Keys == set c | c in columns
    ensures Serve(edition, req, env).response.code == StatusOK ==> Serve(edition, req, env).trace.queried
  {
    if Serve(edition, req, env).response.code == StatusOK {
      var cursor := env.backend.cursor;
      var columns := cursor.columns.value;
      assert FirstFailure(columns, cursor.rows) == |cursor.rows|;
    }
  }

  /** And conversely: a reachable server, a connecting attempt and a clean
      cursor always give 200. */
  lemma SuccessWhenAllGoesWell<V>(edition: Edition, req: Request, env: Env<V>, target: string)
    requires MaxRetries <= |env.script|
    requires Parse(req.driver).Some?
    requires target == (if edition.AsWritten? then req.server else NormalizeAddress(req.server, DefaultPort(req.driver)))
    requires Dial(target, env.network).Ok?
    requires exists j :: 0 <= j < MaxRetries && env.script[j].Connected?
    requires env.backend.Answered? && env.backend.cursor.columns.Ok? && env.backend.cursor.iterError.None?
    requires forall i :: 0 <= i < |env.backend.cursor.rows| ==>
      Scan(env.backend.cursor.columns.value, env.backend.cursor.rows[i]).Ok?
    ensures Serve(edition, req, env).response.code == StatusOK
  {
    RunFailsIffNoAttemptConnects(env.script);
  }

  /** As written, a server given without a port never gets past the probe:
      the probe dials the raw field, which has no port to dial (or, when
      empty, no address at all), so the answer is 503 whatever the network
      and the database would have done. */
  lemma BareHostUnavailable<V>(req: Request, env: Env<V>)
    requires MaxRetries <= |env.script|
    requires Parse(req.driver).Some? && ':' !in req.server
    ensures Handle(req, env).response == Response(StatusServiceUnavailable, JsonError(
      "Database server is not accessible: cannot connect to server " + req.server + ": "
        + ("dial tcp: " + (if req.server == "" then MissingAddress else AddrError(req.server, MissingPort)))))
    ensures Handle(req, env).trace.attempts == 0
  {
  }

  /** Corrected, the probe dials the normalised address, so a bare host of a
      reachable server is probed at its default port and the request goes on
      to the database. */
  lemma BareHostReachesBackend<V>(req: Request, env: Env<V>)
    requires MaxRetries <= |env.script|
    requires Parse(req.driver).Some? && ':' !in req.server && NoBrackets(req.server)
    requires env.network.Reachable?
    ensures HandleCorrected(req, env).trace.dialed == Some(req.server + ":" + Port(Parse(req.driver).value))
    ensures HandleCorrected(req, env).trace.attempts >= 1
    ensures HandleCorrected(req, env).trace.queried <==> exists j :: 0 <= j < MaxRetries && env.script[j].Connected?
  {
    var port := Port(Parse(req.driver).value);
    DefaultPortIffSupported(req.driver);
    assert ':' !in port && NoBrackets(port);
    SplitJoinHostPort(req.server, port);
    RunFailsIffNoAttemptConnects(env.script);
  }
}
