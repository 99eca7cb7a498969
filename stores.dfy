/** The two stores as in-memory snapshots, what the connection helpers do before a query runs,
    and the shape every tool returns: a reply plus the log of store connections it made. */
module Stores {
  import opened Json
  import opened Dates

  datatype Store = Mongo | MySql

  /** What a tool run did to a store connection, in order. */
  datatype Event = Opened(store: Store) | Queried(store: Store) | Closed(store: Store)

  /** The exceptions the tools catch; `ErrorText` gives the text they put in the `error` field. */
  datatype Fault =
    | InvalidRiskLevel
    | MongoUriMissing
    | MongoCredentialsMissing
    | MongoConnectFailed
    | MysqlCredentialsMissing
    | MysqlPortInvalid
    | MysqlConnectFailed
    | QueryFailed(store: Store)
    | NotSerialisable

  /** The `error` text; for wrapped driver errors only the fixed prefix is known. */
  function ErrorText(f: Fault): string
  {
    match f
    case InvalidRiskLevel => "Invalid risk appetite level. Must be 'High', 'Medium', or 'Low'."
    case MongoUriMissing => "MONGO_URI not found in environment variables."
    case MongoCredentialsMissing => "MongoDB credentials not fully set in environment variables."
    case MongoConnectFailed => "Failed to connect to MongoDB: "
    case MysqlCredentialsMissing => "MySQL credentials not fully set in environment variables."
    case MysqlPortInvalid => "MYSQL_PORT must be a valid integer."
    case MysqlConnectFailed => "Failed to connect to MySQL: "
    case QueryFailed(_) => ""
    case NotSerialisable => "Object of type Decimal is not JSON serializable"
  }

  /** A tool's JSON reply: its payload, or an `{"error": ..., "message": ...}` object
      (the risk-level check sends an object with no `message`). */
  datatype Reply<T> = Ok(payload: T) | Err(fault: Fault, message: Option<string>)

  datatype Outcome<T> = Outcome(reply: Reply<T>, log: seq<Event>)

  /** The `limit` the two top-N tools take when the caller gives none. */
  const DefaultLimit: real := 5.0

  /** Every connection the run opened is closed later in the same run. */
  predicate ClosesWhatItOpens(log: seq<Event>)
  {
    forall i :: 0 <= i < |log| && log[i].Opened? ==>
      exists j :: i < j < |log| && log[j] == Closed(log[i].store)
  }

  /** The run never connected to, or queried, store `s`. */
  predicate Untouched(log: seq<Event>, s: Store)
  {
    forall i :: 0 <= i < |log| ==> log[i].store != s
  }

  /** The session log of a run that connected: open, query, close. */
  function QueryLog(s: Store): seq<Event>
  {
    [Opened(s), Queried(s), Closed(s)]
  }

  /** The document store: connection settings and the `clients` collection.
      `uriAccepted` says whether `MongoClient(uri)` constructs a client; `reachable` whether
      the server answers queries (the driver connects lazily, at the first query). */
  datatype MongoEnv = MongoEnv(uri: string, dbName: string, uriAccepted: bool, reachable: bool, clients: seq<Doc>)

  /** A `DECIMAL` cell of `client_portfolios.portfolio_value`: NULL, a `Decimal`, or the float
      the tool has converted it to. */
  datatype Amount = NullAmount | DecimalAmount(d: real) | FloatAmount(f: real)

  datatype PortfolioRow = PortfolioRow(clientId: string, value: Amount)

  /** A `transactions.transaction_date` cell: NULL, a `date`, or the ISO text the tool rendered. */
  datatype DateCell = NullDate | DateValue(date: Date) | IsoText(text: string)

  datatype TxRow = TxRow(clientId: string, symbol: string, kind: string, quantity: int, date: DateCell)

  /** The relational store: the five connection settings (an unset variable reads as ""),
      whether `int(MYSQL_PORT)` succeeds, whether the server accepts the connection, and the tables. */
  datatype MysqlEnv = MysqlEnv(
    host: string, port: string, database: string, user: string, password: string,
    portIsInteger: bool, reachable: bool,
    portfolios: seq<PortfolioRow>, transactions: seq<TxRow>)

  /** How a connection helper ended: with a connection, or by raising. `connectionError` is true when
      it raised `ConnectionError` (the tools answer those with their connection message);
      `clientCreated` when a Mongo client object already existed when it raised. */
  datatype Attempt = Connected | Refused(fault: Fault, connectionError: bool, clientCreated: bool)

  /** pymongo's database-name check: non-empty, none of the characters it forbids. `Database`
      skips the check for the name `$external`. */
  predicate DbNameAccepted(name: string)
  {
    name == "$external" || (name != "" && forall i :: 0 <= i < |name| ==> name[i] !in {' ', '.', '$', '/', '\\', '"', '\0'})
  }

  /** `$external` is the one name that passes despite its `$`. */
  lemma ExternalDbNameAccepted()
    ensures DbNameAccepted("$external")
    ensures !DbNameAccepted("$ext")
  {
    assert "$ext"[0] == '$';
  }

  /** `_get_mongo_collection` (mongodb_tools.py). An unset or rejected database name makes
      `client[MONGO_DB_NAME]` raise after `MongoClient(...)` has made the client. */
  function CollectionAttempt(env: MongoEnv): (a: Attempt)
    ensures a.Connected? <==> env.uri != "" && env.uriAccepted && DbNameAccepted(env.dbName)
  {
    if env.uri == "" then Refused(MongoUriMissing, false, false)
    else if !env.uriAccepted then Refused(MongoConnectFailed, true, false)
    else if !DbNameAccepted(env.dbName) then Refused(MongoConnectFailed, true, true)
    else Connected
  }

  /** `_get_mongodb_connection` (mysql_tools.py): both settings are checked before any client exists. */
  function DatabaseAttempt(env: MongoEnv): (a: Attempt)
    ensures a.Connected? <==> env.uri != "" && env.uriAccepted && DbNameAccepted(env.dbName)
    ensures env.uri == "" || env.dbName == "" ==> a == Refused(MongoCredentialsMissing, false, false)
  {
    if env.uri == "" || env.dbName == "" then Refused(MongoCredentialsMissing, false, false)
    else if !env.uriAccepted then Refused(MongoConnectFailed, true, false)
    else if !DbNameAccepted(env.dbName) then Refused(MongoConnectFailed, true, true)
    else Connected
  }

  predicate MysqlCredentialsSet(env: MysqlEnv)
  {
    env.host != "" && env.port != "" && env.database != "" && env.user != "" && env.password != ""
  }

  /** `_get_mysql_connection`: the credential check, then the port conversion, then the connect. */
  function MysqlAttempt(env: MysqlEnv): (a: Attempt)
    ensures a.Connected? <==> MysqlCredentialsSet(env) && env.portIsInteger && env.reachable
    ensures !MysqlCredentialsSet(env) ==> a == Refused(MysqlCredentialsMissing, false, false)
    ensures a.Refused? ==> !a.clientCreated
  {
    if !MysqlCredentialsSet(env) then Refused(MysqlCredentialsMissing, false, false)
    else if !env.portIsInteger then Refused(MysqlPortInvalid, false, false)
    else if !env.reachable then Refused(MysqlConnectFailed, true, false)
    else Connected
  }

  /** The log of a refused attempt as the helpers are written: a client made before the helper
      raised is dropped without `close()`, because the tool never received it. */
  function RefusalLogAsWritten(a: Attempt, s: Store): seq<Event>
    requires a.Refused?
  {
    if a.clientCreated then [Opened(s)] else []
  }

  /** The log of a refused attempt when the helper closes a client it made before raising. */
  function RefusalLog(a: Attempt, s: Store): (log: seq<Event>)
    requires a.Refused?
    ensures ClosesWhatItOpens(log)
    ensures !a.clientCreated ==> Untouched(log, s)
  {
    if a.clientCreated then
      var log := [Opened(s), Closed(s)];
      assert log[1] == Closed(s);
      log
    else []
  }

  /** With MONGO_URI set and MONGO_DB_NAME unset, `_get_mongo_collection` leaves an open client behind. */
  lemma CollectionAttemptLeaksClient()
    ensures var env := MongoEnv("mongodb://db", "", true, true, []);
            !ClosesWhatItOpens(RefusalLogAsWritten(CollectionAttempt(env), Mongo))
  {
    var env := MongoEnv("mongodb://db", "", true, true, []);
    var log := RefusalLogAsWritten(CollectionAttempt(env), Mongo);
    assert log == [Opened(Mongo)];
    assert |log| == 1 && log[0].Opened?;
  }

  /** A run that connected and ran its query closes the connection. */
  lemma QueryLogCloses(s: Store)
    ensures ClosesWhatItOpens(QueryLog(s))
  {
    assert QueryLog(s)[2] == Closed(s);
  }
}
