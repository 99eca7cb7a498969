/** The MySQL tool provider: top portfolios, the cross-store total per relationship manager,
    a client's transactions and the holders of a stock. Each tool is a specification function
    over the snapshots and, where the tool edits rows or accumulates in a loop, a method that
    does it step by step and is proved to compute the function. */
module MysqlTools {
  import opened Json
  import opened Seqs
  import opened Text
  import opened Ranking
  import opened Grouping
  import opened Dates
  import opened Stores
  import MongoTools

  const ConnectionFailedMessage := "Database connection failed."

  // ---------------------------------------------------------------------------------------------
  // get_top_n_portfolios

  /** `ORDER BY portfolio_value DESC` puts NULL after every value. */
  function AmountRank(a: Amount): Rank
  {
    match a
    case NullAmount => Bottom
    case DecimalAmount(d) => At(d)
    case FloatAmount(f) => At(f)
  }

  function PortfolioRank(r: PortfolioRow): Rank { AmountRank(r.value) }

  /** The loop body: a `Decimal` value becomes a float (the rounding is not modelled). */
  function AsFloat(r: PortfolioRow): PortfolioRow
  {
    if r.value.DecimalAmount? then r.(value := FloatAmount(r.value.d)) else r
  }

  /** `ORDER BY portfolio_value DESC LIMIT n`. */
  function TopPortfolioRows(rows: seq<PortfolioRow>, n: nat): seq<PortfolioRow>
  {
    Take(SortDesc(rows, PortfolioRank), n)
  }

  const TopNFailure := "Failed to retrieve top N portfolios from MySQL. Database Error: "

  /** 2^64: `LIMIT` takes an unsigned 64-bit count, and a larger literal is a syntax error. */
  const UInt64Bound: int := 0x1_0000_0000_0000_0000

  /** Whether `LIMIT n` is a count MySQL accepts. */
  predicate LimitAccepted(n: int) { 0 <= n < UInt64Bound }

  /** get_top_n_portfolios. A credential or port `ValueError` lands in the generic branch; a
      negative `LIMIT`, or one of 2^64 or more, is a database error. */
  function TopNPortfolios(env: MysqlEnv, limit: real): (o: Outcome<seq<PortfolioRow>>)
    ensures o.reply.Ok? <==> MysqlAttempt(env).Connected? && LimitAccepted(TruncateTowardZero(limit))
    ensures o.reply.Ok? ==> |o.reply.payload| <= |env.portfolios|
    ensures Untouched(o.log, Mongo)
  {
    var a := MysqlAttempt(env);
    if a.Refused? then
      Outcome(Err(a.fault, Some(if a.connectionError then ConnectionFailedMessage
                                else "An unexpected error occurred while fetching top portfolios.")),
              RefusalLogAsWritten(a, MySql))
    else
      var n := TruncateTowardZero(limit);
      SortDescFacts(env.portfolios, PortfolioRank, (r: PortfolioRow) => 0);
      if !LimitAccepted(n) then Outcome(Err(QueryFailed(MySql), Some(TopNFailure)), QueryLog(MySql))
      else Outcome(Ok(Map(AsFloat, TopPortfolioRows(env.portfolios, n))), QueryLog(MySql))
  }

  /** The `for row in results` loop, editing the fetched rows in place. */
  method ConvertDecimals(results: array<PortfolioRow>)
    modifies results
    ensures results[..] == Map(AsFloat, old(results[..]))
  {
    var i := 0;
    while i < results.Length
      invariant 0 <= i <= results.Length
      invariant forall j :: 0 <= j < i ==> results[j] == AsFloat(old(results[j]))
      invariant forall j :: i <= j < results.Length ==> results[j] == old(results[j])
    {
      if results[i].value.DecimalAmount? {
        results[i] := results[i].(value := FloatAmount(results[i].value.d));
      }
      i := i + 1;
    }
  }

  method GetTopNPortfolios(env: MysqlEnv, limit: real) returns (o: Outcome<seq<PortfolioRow>>)
    ensures o == TopNPortfolios(env, limit)
  {
    var a := MysqlAttempt(env);
    if a.Refused? {
      var message := if a.connectionError then ConnectionFailedMessage else "An unexpected error occurred while fetching top portfolios.";
      return Outcome(Err(a.fault, Some(message)), RefusalLogAsWritten(a, MySql));
    }
    var n := TruncateTowardZero(limit);
    if !LimitAccepted(n) {
      return Outcome(Err(QueryFailed(MySql), Some(TopNFailure)), QueryLog(MySql));
    }
    var fetched := TopPortfolioRows(env.portfolios, n);
    var results := new PortfolioRow[|fetched|](i requires 0 <= i < |fetched| => fetched[i]);
    assert results[..] == fetched;
    ConvertDecimals(results);
    o := Outcome(Ok(results[..]), QueryLog(MySql));
  }

  /** Converting a row keeps its client and its place in the order, and leaves no `Decimal`. */
  lemma AsFloatKeepsRow(r: PortfolioRow)
    ensures AsFloat(r).clientId == r.clientId
    ensures PortfolioRank(AsFloat(r)) == PortfolioRank(r)
    ensures !AsFloat(r).value.DecimalAmount?
  {
  }

  /** The kept rows are rows of the table, and no row left out has a larger value than a kept one. */
  lemma TopPortfolioRowsAreTop(rows: seq<PortfolioRow>, n: nat)
    ensures multiset(TopPortfolioRows(rows, n)) <= multiset(rows)
    ensures forall x, y :: x in multiset(rows) - multiset(TopPortfolioRows(rows, n)) && y in TopPortfolioRows(rows, n) ==>
              RankLe(PortfolioRank(x), PortfolioRank(y))
  {
    var sorted := SortDesc(rows, PortfolioRank);
    SortDescFacts(rows, PortfolioRank, (r: PortfolioRow) => 0);
    TopKept(rows, PortfolioRank, n);
    if n < |sorted| {
      assert sorted == TopPortfolioRows(rows, n) + sorted[n..];
    }
  }

  /** Once connected: a negative limit, or one of 2^64 or more, is an error; otherwise `min(n, rows)`
      rows, the largest value first, each a kept row with its `Decimal` converted (so `LIMIT 0` gives `[]`). */
  lemma TopNPortfoliosFacts(env: MysqlEnv, limit: real)
    requires MysqlAttempt(env).Connected?
    ensures var n, r := TruncateTowardZero(limit), TopNPortfolios(env, limit).reply;
      && (r.Err? <==> n < 0 || n >= UInt64Bound)
      && (!LimitAccepted(n) ==> r == Err(QueryFailed(MySql), Some(TopNFailure)))
      && (LimitAccepted(n) ==>
            var kept := TopPortfolioRows(env.portfolios, n);
            && |r.payload| == (if n < |env.portfolios| then n else |env.portfolios|)
            && NonIncreasing(r.payload, PortfolioRank)
            && forall i :: 0 <= i < |r.payload| ==>
                 r.payload[i].clientId == kept[i].clientId && PortfolioRank(r.payload[i]) == PortfolioRank(kept[i]) &&
                 !r.payload[i].value.DecimalAmount?)
  {
    var n := TruncateTowardZero(limit);
    if LimitAccepted(n) {
      var sorted := SortDesc(env.portfolios, PortfolioRank);
      var kept := TopPortfolioRows(env.portfolios, n);
      var out := Map(AsFloat, kept);
      SortDescFacts(env.portfolios, PortfolioRank, (r: PortfolioRow) => 0);
      forall i, j | 0 <= i < j < |out| ensures RankLe(PortfolioRank(out[j]), PortfolioRank(out[i])) {
        AsFloatKeepsRow(kept[i]);
        AsFloatKeepsRow(kept[j]);
        assert kept[i] == sorted[i] && kept[j] == sorted[j];
      }
      forall i | 0 <= i < |out| ensures out[i].clientId == kept[i].clientId && PortfolioRank(out[i]) == PortfolioRank(kept[i]) &&
                                        !out[i].value.DecimalAmount? {
        AsFloatKeepsRow(kept[i]);
      }
    }
  }

  // ---------------------------------------------------------------------------------------------
  // get_portfolio_values_by_relationship_manager

  /** The tool's JSON object: manager, total, and the message of the no-clients answer. */
  datatype RmTotal = RmTotal(manager: string, total: real, message: Option<string>)

  const RmConnectionFailedMessage := "Database connection failed (MongoDB or MySQL)."

  function RmFailure(name: string, f: Fault): string
  {
    "Failed to get portfolio values for RM " + name + ". Error: " + ErrorText(f)
  }

  /** `{"$regex": "^name$", "$options": "i"}` on `relationship_manager`. */
  predicate ManagerIs(name: string, d: Doc)
  {
    MongoTools.FieldSatisfies(d, "relationship_manager", s => MatchesWholeIgnoringCase(s, name))
  }

  function ByManagerName(name: string): Doc -> bool { d => ManagerIs(name, d) }

  /** The candidate ids: `client_id` of each wholly matching client that has one, in stored order. */
  function CandidateIds(docs: seq<Doc>, name: string): seq<Value>
  {
    MongoTools.ClientIdsOf(Select(docs, ByManagerName(name)))
  }

  /** `WHERE client_id IN (ids)`. */
  function WithIdIn(ids: seq<Value>): PortfolioRow -> bool { (r: PortfolioRow) => Str(r.clientId) in ids }

  /** What a row adds to the total: its value if it is a `Decimal`, nothing otherwise. */
  function DecimalValue(r: PortfolioRow): real
  {
    if r.value.DecimalAmount? then r.value.d else 0.0
  }

  function DecimalSum(rows: seq<PortfolioRow>): real
  {
    if rows == [] then 0.0 else DecimalSum(rows[..|rows| - 1]) + DecimalValue(rows[|rows| - 1])
  }

  /** The total over the portfolios of the candidate ids. */
  function RmSum(rows: seq<PortfolioRow>, ids: seq<Value>): real
  {
    DecimalSum(Select(rows, WithIdIn(ids)))
  }

  /** get_portfolio_values_by_relationship_manager: Mongo first, MySQL only when there are
      candidates; in `finally` MySQL is closed before Mongo. A client `_get_mongodb_connection`
      made before raising never reaches the tool, so it is not closed. */
  function PortfolioValuesByRelationshipManager(mongo: MongoEnv, mysql: MysqlEnv, name: string): (o: Outcome<RmTotal>)
    ensures o.reply.Ok? <==> DatabaseAttempt(mongo).Connected? && mongo.reachable &&
                             (CandidateIds(mongo.clients, name) == [] || MysqlAttempt(mysql).Connected?)
    ensures o.reply.Ok? ==> o.reply.payload.manager == name
    ensures DatabaseAttempt(mongo).Refused? ==> Untouched(o.log, MySql)
  {
    var a := DatabaseAttempt(mongo);
    if a.Refused? then
      Outcome(Err(a.fault, Some(if a.connectionError then RmConnectionFailedMessage else RmFailure(name, a.fault))), RefusalLogAsWritten(a, Mongo))
    else if !mongo.reachable then
      Outcome(Err(QueryFailed(Mongo), Some(RmFailure(name, QueryFailed(Mongo)))), QueryLog(Mongo))
    else
      var ids := CandidateIds(mongo.clients, name);
      if ids == [] then
        Outcome(Ok(RmTotal(name, 0.0, Some("No clients found for relationship manager '" + name + "'."))), QueryLog(Mongo))
      else
        var m := MysqlAttempt(mysql);
        if m.Refused? then
          Outcome(Err(m.fault, Some(if m.connectionError then RmConnectionFailedMessage else RmFailure(name, m.fault))),
                  [Opened(Mongo), Queried(Mongo)] + RefusalLogAsWritten(m, MySql) + [Closed(Mongo)])
        else
          Outcome(Ok(RmTotal(name, RmSum(mysql.portfolios, ids), None)),
                  [Opened(Mongo), Queried(Mongo), Opened(MySql), Queried(MySql), Closed(MySql), Closed(Mongo)])
  }

  /** The `+=` loop over the fetched rows. */
  method SumDecimals(rows: seq<PortfolioRow>) returns (total: real)
    ensures total == DecimalSum(rows)
  {
    total := 0.0;
    for i := 0 to |rows|
      invariant total == DecimalSum(rows[..i])
    {
      assert rows[..i + 1][..i] == rows[..i];
      if rows[i].value.DecimalAmount? {
        total := total + rows[i].value.d;
      }
    }
    assert rows[..|rows|] == rows;
  }

  method GetPortfolioValuesByRelationshipManager(mongo: MongoEnv, mysql: MysqlEnv, name: string) returns (o: Outcome<RmTotal>)
    ensures o == PortfolioValuesByRelationshipManager(mongo, mysql, name)
  {
    var a := DatabaseAttempt(mongo);
    if a.Refused? {
      var message := if a.connectionError then RmConnectionFailedMessage else RmFailure(name, a.fault);
      return Outcome(Err(a.fault, Some(message)), RefusalLogAsWritten(a, Mongo));
    }
    var log := [Opened(Mongo)];
    if !mongo.reachable {
      return Outcome(Err(QueryFailed(Mongo), Some(RmFailure(name, QueryFailed(Mongo)))), log + [Queried(Mongo), Closed(Mongo)]);
    }
    log := log + [Queried(Mongo)];
    var ids := CandidateIds(mongo.clients, name);
    if ids == [] {
      return Outcome(Ok(RmTotal(name, 0.0, Some("No clients found for relationship manager '" + name + "'."))), log + [Closed(Mongo)]);
    }
    var m := MysqlAttempt(mysql);
    if m.Refused? {
      var message := if m.connectionError then RmConnectionFailedMessage else RmFailure(name, m.fault);
      return Outcome(Err(m.fault, Some(message)), log + RefusalLogAsWritten(m, MySql) + [Closed(Mongo)]);
    }
    log := log + [Opened(MySql), Queried(MySql)];
    var total := SumDecimals(Select(mysql.portfolios, WithIdIn(ids)));
    log := log + [Closed(MySql)] + [Closed(Mongo)];
    o := Outcome(Ok(RmTotal(name, total, None)), log);
  }

  lemma {:induction false} DecimalSumAppend(a: seq<PortfolioRow>, b: seq<PortfolioRow>)
    ensures DecimalSum(a + b) == DecimalSum(a) + DecimalSum(b)
  {
    if b == [] {
      assert a + b == a;
    } else {
      DecimalSumAppend(a, b[..|b| - 1]);
      assert (a + b)[..|a + b| - 1] == a + b[..|b| - 1];
    }
  }

  /** The total adds up row by row: a `Decimal` row adds its value, any other row adds nothing. */
  lemma DecimalSumLaws()
    ensures forall a, b :: DecimalSum(a + b) == DecimalSum(a) + DecimalSum(b)
    ensures forall r :: DecimalSum([r]) == if r.value.DecimalAmount? then r.value.d else 0.0
  {
    forall a, b ensures DecimalSum(a + b) == DecimalSum(a) + DecimalSum(b) {
      DecimalSumAppend(a, b);
    }
    forall r ensures DecimalSum([r]) == if r.value.DecimalAmount? then r.value.d else 0.0 {
      assert [r][..0] == [];
    }
  }

  /** `IN` depends only on which ids are candidates: repeating an id counts no row twice. */
  lemma IdSetDecidesTotal(rows: seq<PortfolioRow>, ids1: seq<Value>, ids2: seq<Value>)
    requires forall v :: v in ids1 <==> v in ids2
    ensures RmSum(rows, ids1) == RmSum(rows, ids2)
  {
    SelectAgree(rows, WithIdIn(ids1), WithIdIn(ids2));
  }

  /** A candidate id with no MySQL row contributes nothing. */
  lemma UnknownIdContributesNothing(rows: seq<PortfolioRow>, ids: seq<Value>, v: Value)
    requires forall i :: 0 <= i < |rows| ==> Str(rows[i].clientId) != v
    ensures RmSum(rows, ids + [v]) == RmSum(rows, ids)
  {
    SelectAgree(rows, WithIdIn(ids + [v]), WithIdIn(ids));
  }

  lemma CandidateIdsCons(docs: seq<Doc>, name: string)
    requires docs != []
    ensures CandidateIds(docs, name) ==
            (if ManagerIs(name, docs[0]) && "client_id" in docs[0] then [docs[0]["client_id"]] else []) + CandidateIds(docs[1..], name)
  {
    MongoTools.ClientIdsOfLaws();
    assert docs == [docs[0]] + docs[1..];
    SelectAppend([docs[0]], docs[1..], ByManagerName(name));
    SelectSingleton(docs[0], ByManagerName(name));
  }

  /** The candidates are the ids of exactly the clients whose manager equals `name` ignoring case. */
  lemma {:induction false} CandidateIdsMembership(docs: seq<Doc>, name: string, v: Value)
    ensures v in CandidateIds(docs, name) <==>
            exists i :: 0 <= i < |docs| && ManagerIs(name, docs[i]) && "client_id" in docs[i] && docs[i]["client_id"] == v
  {
    if docs != [] {
      CandidateIdsMembership(docs[1..], name, v);
      CandidateIdsCons(docs, name);
      if exists i :: 0 <= i < |docs| && ManagerIs(name, docs[i]) && "client_id" in docs[i] && docs[i]["client_id"] == v {
        var i :| 0 <= i < |docs| && ManagerIs(name, docs[i]) && "client_id" in docs[i] && docs[i]["client_id"] == v;
        if i > 0 {
          assert docs[1..][i - 1] == docs[i];
        }
      }
      if exists i :: 0 <= i < |docs[1..]| && ManagerIs(name, docs[1..][i]) && "client_id" in docs[1..][i] && docs[1..][i]["client_id"] == v {
        var i :| 0 <= i < |docs[1..]| && ManagerIs(name, docs[1..][i]) && "client_id" in docs[1..][i] && docs[1..][i]["client_id"] == v;
        assert docs[i + 1] == docs[1..][i];
      }
    }
  }

  /** A manager equal to `name` ignoring case also contains it. */
  lemma WholeManagerMatchIsSubstringMatch(name: string, d: Doc)
    requires ManagerIs(name, d)
    ensures MongoTools.ManagerContains(name, d)
  {
    match d["relationship_manager"]
    case Str(s) => WholeMatchIsSubstringMatch(s, name);
    case Arr(items) =>
      var i :| 0 <= i < |items| && items[i].Str? && MatchesWholeIgnoringCase(items[i].s, name);
      WholeMatchIsSubstringMatch(items[i].s, name);
  }

  /** Every candidate id of this tool is also an id get_client_ids_by_relationship_manager gives
      for the same name; the converse fails (see `AshaScenario`). */
  lemma CandidatesAreManagerIds(docs: seq<Doc>, name: string, v: Value)
    requires v in CandidateIds(docs, name)
    ensures v in MongoTools.ManagerClientIds(docs, name)
  {
    CandidateIdsMembership(docs, name, v);
    var i :| 0 <= i < |docs| && ManagerIs(name, docs[i]) && "client_id" in docs[i] && docs[i]["client_id"] == v;
    WholeManagerMatchIsSubstringMatch(name, docs[i]);
    MongoTools.ManagerClientIdsMembership(docs, name, v);
  }

  /** No candidate: the zero total with its message, and no MySQL connection at all. */
  lemma NoCandidatesShortCircuit(mongo: MongoEnv, mysql: MysqlEnv, name: string)
    requires DatabaseAttempt(mongo).Connected? && mongo.reachable && CandidateIds(mongo.clients, name) == []
    ensures var o := PortfolioValuesByRelationshipManager(mongo, mysql, name);
            && o.reply == Ok(RmTotal(name, 0.0, Some("No clients found for relationship manager '" + name + "'.")))
            && Untouched(o.log, MySql)
  {
  }

  /** With candidates, MySQL is asked: connected, the total is the `Decimal` sum over the rows whose
      id is a candidate; refused, the reply is its error. */
  lemma CandidatesAskMysql(mongo: MongoEnv, mysql: MysqlEnv, name: string)
    requires DatabaseAttempt(mongo).Connected? && mongo.reachable && CandidateIds(mongo.clients, name) != []
    ensures var o, ids := PortfolioValuesByRelationshipManager(mongo, mysql, name), CandidateIds(mongo.clients, name);
      && (MysqlAttempt(mysql).Connected? ==> o.reply == Ok(RmTotal(name, RmSum(mysql.portfolios, ids), None)))
      && (MysqlAttempt(mysql).Refused? ==> o.reply.Err? && o.reply.fault == MysqlAttempt(mysql).fault)
  {
  }

  /** Both settings are set and the URI is accepted, but `client[MONGO_DB_NAME]` rejects the name:
      `_get_mongodb_connection` raises after making a client. */
  predicate RmLeavesClientOpen(mongo: MongoEnv)
  {
    mongo.uri != "" && mongo.dbName != "" && mongo.uriAccepted && !DbNameAccepted(mongo.dbName)
  }

  /** Every connection the tool receives is closed, MySQL first, then Mongo; the only one left
      open is the client the helper made before raising. */
  lemma RmClosesWhatItOpens(mongo: MongoEnv, mysql: MysqlEnv, name: string)
    ensures ClosesWhatItOpens(PortfolioValuesByRelationshipManager(mongo, mysql, name).log) <==> !RmLeavesClientOpen(mongo)
    ensures RmLeavesClientOpen(mongo) ==> PortfolioValuesByRelationshipManager(mongo, mysql, name).log == [Opened(Mongo)]
  {
    var o := PortfolioValuesByRelationshipManager(mongo, mysql, name);
    QueryLogCloses(Mongo);
    if RmLeavesClientOpen(mongo) {
      assert o.log == [Opened(Mongo)];
      assert |o.log| == 1 && o.log[0].Opened?;
    }
    if DatabaseAttempt(mongo).Connected? && mongo.reachable && CandidateIds(mongo.clients, name) != [] {
      if MysqlAttempt(mysql).Connected? {
        assert o.log[4] == Closed(MySql) && o.log[5] == Closed(Mongo);
      } else {
        assert o.log == QueryLog(Mongo);
      }
    }
  }

  /** The tool as intended: the helper closes a client it made before raising. Every run then
      closes what it opens, with the same reply. */
  function RmCorrected(mongo: MongoEnv, mysql: MysqlEnv, name: string): (o: Outcome<RmTotal>)
    ensures o.reply == PortfolioValuesByRelationshipManager(mongo, mysql, name).reply
    ensures ClosesWhatItOpens(o.log)
    ensures !RmLeavesClientOpen(mongo) ==> o == PortfolioValuesByRelationshipManager(mongo, mysql, name)
    ensures RmLeavesClientOpen(mongo) ==> o.log == [Opened(Mongo), Closed(Mongo)]
  {
    var o := PortfolioValuesByRelationshipManager(mongo, mysql, name);
    var a := DatabaseAttempt(mongo);
    RmClosesWhatItOpens(mongo, mysql, name);
    if a.Refused? then Outcome(o.reply, RefusalLog(a, Mongo)) else o
  }

  /** With MONGO_DB_NAME set to `a.b`, which pymongo rejects, the tool answers with the connection
      message and leaves the client it made open. */
  lemma RmLeavesClientOpenExample(mysql: MysqlEnv, name: string)
    ensures var o := PortfolioValuesByRelationshipManager(MongoEnv("mongodb://db", "a.b", true, true, []), mysql, name);
            && o.reply == Err(MongoConnectFailed, Some(RmConnectionFailedMessage))
            && o.log == [Opened(Mongo)]
            && !ClosesWhatItOpens(o.log)
  {
    assert "a.b"[1] == '.';
    var o := PortfolioValuesByRelationshipManager(MongoEnv("mongodb://db", "a.b", true, true, []), mysql, name);
    assert |o.log| == 1 && o.log[0].Opened?;
  }

  /** An unset MONGO_URI or MONGO_DB_NAME is reported before any client exists, with the text of
      the `ValueError` in the message. */
  lemma RmMongoCredentialsChecked(mongo: MongoEnv, mysql: MysqlEnv, name: string)
    requires mongo.uri == "" || mongo.dbName == ""
    ensures PortfolioValuesByRelationshipManager(mongo, mysql, name) ==
            Outcome(Err(MongoCredentialsMissing, Some(RmFailure(name, MongoCredentialsMissing))), [])
  {
  }

  // ---------------------------------------------------------------------------------------------
  // get_client_transactions

  /** The conditions the query text is built from, each with its `%s` placeholders. */
  datatype Clause = ClientIdIs | DateBetween | DateFrom | DateUntil

  function Placeholders(c: Clause): nat
  {
    match c
    case DateBetween => 2
    case _ => 1
  }

  function Arity(clauses: seq<Clause>): nat
  {
    if clauses == [] then 0 else Placeholders(clauses[0]) + Arity(clauses[1..])
  }

  /** A bound the caller gave: an absent bound and `""` are both falsy. */
  predicate Given(b: Option<string>) { b.Some? && b.value != "" }

  /** The date a cell holds: a `date`, or ISO text read back. */
  function CellDate(c: DateCell): Option<Date>
  {
    match c
    case NullDate => None
    case DateValue(d) => Some(d)
    case IsoText(t) => ParseIso(t)
  }

  /** `transaction_date >= bound`, the bound being `YYYY-MM-DD` text; NULL satisfies no comparison. */
  predicate OnOrAfter(c: DateCell, bound: string)
  {
    CellDate(c).Some? && StrLe(bound, IsoFormat(CellDate(c).value))
  }

  predicate OnOrBefore(c: DateCell, bound: string)
  {
    CellDate(c).Some? && StrLe(IsoFormat(CellDate(c).value), bound)
  }

  /** The `WHERE` clause as the database reads it, each condition taking its parameters in order. */
  function Where(clauses: seq<Clause>, params: seq<string>, r: TxRow): bool
    decreases |clauses|
  {
    if clauses == [] then params == []
    else
      var k := Placeholders(clauses[0]);
      if |params| < k then false
      else
        (match clauses[0]
         case ClientIdIs => r.clientId == params[0]
         case DateBetween => OnOrAfter(r.date, params[0]) && OnOrBefore(r.date, params[1])
         case DateFrom => OnOrAfter(r.date, params[0])
         case DateUntil => OnOrBefore(r.date, params[0]))
        && Where(clauses[1..], params[k..], r)
  }

  function QueryFilter(clauses: seq<Clause>, params: seq<string>): TxRow -> bool
  {
    (r: TxRow) => Where(clauses, params, r)
  }

  /** The query and parameters the tool builds: the client condition and its id first, then
      one parameter per further placeholder. */
  function TxQuery(clientId: string, start: Option<string>, end: Option<string>): (q: (seq<Clause>, seq<string>))
    ensures |q.0| > 0 && q.0[0] == ClientIdIs && |q.1| > 0 && q.1[0] == clientId
    ensures |q.1| == Arity(q.0)
  {
    assert forall c :: Arity([ClientIdIs, c]) == 1 + Placeholders(c) by {
      forall c ensures Arity([ClientIdIs, c]) == 1 + Placeholders(c) {
        assert [ClientIdIs, c][1..] == [c] && [c][1..] == [];
        assert Arity([c]) == Placeholders(c) + Arity([]);
      }
    }
    assert [ClientIdIs][1..] == [];
    if Given(start) && Given(end) then ([ClientIdIs, DateBetween], [clientId, start.value, end.value])
    else if Given(start) then ([ClientIdIs, DateFrom], [clientId, start.value])
    else if Given(end) then ([ClientIdIs, DateUntil], [clientId, end.value])
    else ([ClientIdIs], [clientId])
  }

  /** Building `query` and `params` by appending to both. */
  method BuildTxQuery(clientId: string, start: Option<string>, end: Option<string>) returns (clauses: seq<Clause>, params: seq<string>)
    ensures (clauses, params) == TxQuery(clientId, start, end)
  {
    clauses := [ClientIdIs];
    params := [clientId];
    if Given(start) && Given(end) {
      clauses := clauses + [DateBetween];
      assert clauses == [ClientIdIs, DateBetween];
      params := params + [start.value, end.value];
      assert params == [clientId, start.value, end.value];
    } else if Given(start) {
      clauses := clauses + [DateFrom];
      assert clauses == [ClientIdIs, DateFrom];
      params := params + [start.value];
      assert params == [clientId, start.value];
    } else if Given(end) {
      clauses := clauses + [DateUntil];
      assert clauses == [ClientIdIs, DateUntil];
      params := params + [end.value];
      assert params == [clientId, end.value];
    }
  }

  /** The filter the tool means: the client's rows, within each bound that was given. */
  predicate InRange(c: DateCell, start: Option<string>, end: Option<string>)
  {
    (Given(start) ==> OnOrAfter(c, start.value)) && (Given(end) ==> OnOrBefore(c, end.value))
  }

  /** The built query has one parameter per placeholder and selects exactly the client's rows whose
      date is within the given bounds: `BETWEEN` for both, `>=` or `<=` for one, no date filter for none. */
  lemma TxQueryMeaning(clientId: string, start: Option<string>, end: Option<string>, r: TxRow)
    ensures var q := TxQuery(clientId, start, end);
            && |q.1| == Arity(q.0)
            && (Where(q.0, q.1, r) <==> r.clientId == clientId && InRange(r.date, start, end))
  {
    var q := TxQuery(clientId, start, end);
    if |q.0| == 2 {
      assert q.0[1..] == [q.0[1]] && q.0[1..][1..] == [];
      assert Arity(q.0[1..]) == Placeholders(q.0[1]);
    } else {
      assert q.0[1..] == [];
    }
  }

  /** With `YYYY-MM-DD` bounds the comparisons are calendar comparisons, and `BETWEEN` includes both ends. */
  lemma BoundsAreDateOrder(d: Date, lo: Date, hi: Date)
    ensures OnOrAfter(DateValue(d), IsoFormat(lo)) <==> Ordinal(lo) <= Ordinal(d)
    ensures OnOrBefore(DateValue(d), IsoFormat(hi)) <==> Ordinal(d) <= Ordinal(hi)
    ensures InRange(DateValue(d), Some(IsoFormat(lo)), Some(IsoFormat(hi))) <==> Ordinal(lo) <= Ordinal(d) <= Ordinal(hi)
  {
    IsoOrderIsDateOrder(lo, d);
    IsoOrderIsDateOrder(d, hi);
  }

  /** `ORDER BY transaction_date DESC`: NULL dates last. */
  function TxRank(r: TxRow): Rank
  {
    match CellDate(r.date)
    case None => Bottom
    case Some(d) => At(Ordinal(d) as real)
  }

  /** The loop body: a `date` becomes its `isoformat()` text. */
  function Rendered(r: TxRow): TxRow
  {
    if r.date.DateValue? then r.(date := IsoText(IsoFormat(r.date.date))) else r
  }

  /** Rendering keeps the row's client and date, so its place in the order and in the filter. */
  lemma RenderedKeepsDate(r: TxRow)
    ensures Rendered(r).clientId == r.clientId
    ensures CellDate(Rendered(r).date) == CellDate(r.date)
    ensures TxRank(Rendered(r)) == TxRank(r)
    ensures !Rendered(r).date.DateValue?
  {
    if r.date.DateValue? {
      ParseIsoRoundTrip(r.date.date);
    }
  }

  function TxFailure(clientId: string, f: Fault): string
  {
    "Failed to retrieve transactions for client " + clientId + ". Error: " + ErrorText(f)
  }

  /** The rows the query returns, before rendering. */
  function FetchedTransactions(rows: seq<TxRow>, clientId: string, start: Option<string>, end: Option<string>): seq<TxRow>
  {
    var q := TxQuery(clientId, start, end);
    SortDesc(Select(rows, QueryFilter(q.0, q.1)), TxRank)
  }

  /** get_client_transactions */
  function ClientTransactions(env: MysqlEnv, clientId: string, start: Option<string>, end: Option<string>): (o: Outcome<seq<TxRow>>)
    ensures o.reply.Ok? <==> MysqlAttempt(env).Connected?
    ensures o.reply.Ok? ==> |o.reply.payload| <= |env.transactions|
    ensures Untouched(o.log, Mongo)
  {
    var a := MysqlAttempt(env);
    if a.Refused? then
      Outcome(Err(a.fault, Some(if a.connectionError then ConnectionFailedMessage else TxFailure(clientId, a.fault))), RefusalLogAsWritten(a, MySql))
    else
      var q := TxQuery(clientId, start, end);
      SortDescFacts(Select(env.transactions, QueryFilter(q.0, q.1)), TxRank, (r: TxRow) => 0);
      Outcome(Ok(Map(Rendered, FetchedTransactions(env.transactions, clientId, start, end))), QueryLog(MySql))
  }

  /** The `for row in results` loop, rendering dates in place. */
  method RenderDates(results: array<TxRow>)
    modifies results
    ensures results[..] == Map(Rendered, old(results[..]))
  {
    var i := 0;
    while i < results.Length
      invariant 0 <= i <= results.Length
      invariant forall j :: 0 <= j < i ==> results[j] == Rendered(old(results[j]))
      invariant forall j :: i <= j < results.Length ==> results[j] == old(results[j])
    {
      if results[i].date.DateValue? {
        results[i] := results[i].(date := IsoText(IsoFormat(results[i].date.date)));
      }
      i := i + 1;
    }
  }

  method GetClientTransactions(env: MysqlEnv, clientId: string, start: Option<string>, end: Option<string>) returns (o: Outcome<seq<TxRow>>)
    ensures o == ClientTransactions(env, clientId, start, end)
  {
    var a := MysqlAttempt(env);
    if a.Refused? {
      var message := if a.connectionError then ConnectionFailedMessage else TxFailure(clientId, a.fault);
      return Outcome(Err(a.fault, Some(message)), RefusalLogAsWritten(a, MySql));
    }
    var clauses, params := BuildTxQuery(clientId, start, end);
    var fetched := SortDesc(Select(env.transactions, QueryFilter(clauses, params)), TxRank);
    var results := new TxRow[|fetched|](i requires 0 <= i < |fetched| => fetched[i]);
    assert results[..] == fetched;
    RenderDates(results);
    o := Outcome(Ok(results[..]), QueryLog(MySql));
  }

  /** The fetched rows are exactly the client's rows within the bounds, each as often as it is
      stored, most recent first. */
  lemma FetchedTransactionsFacts(rows: seq<TxRow>, clientId: string, start: Option<string>, end: Option<string>)
    ensures var fetched := FetchedTransactions(rows, clientId, start, end);
      && NonIncreasing(fetched, TxRank)
      && (forall r :: r in fetched <==> r in rows && r.clientId == clientId && InRange(r.date, start, end))
      && multiset(fetched) <= multiset(rows)
      && forall r: TxRow :: r.clientId == clientId && InRange(r.date, start, end) ==> multiset(fetched)[r] == multiset(rows)[r]
  {
    var q := TxQuery(clientId, start, end);
    var sel := Select(rows, QueryFilter(q.0, q.1));
    SortDescFacts(sel, TxRank, (r: TxRow) => 0);
    forall r ensures r in FetchedTransactions(rows, clientId, start, end) <==> r in rows && r.clientId == clientId && InRange(r.date, start, end) {
      assert r in FetchedTransactions(rows, clientId, start, end) <==> r in multiset(sel);
      SelectMembership(rows, QueryFilter(q.0, q.1), r);
      TxQueryMeaning(clientId, start, end, r);
    }
    SelectSubMultiset(rows, QueryFilter(q.0, q.1));
    forall r: TxRow | r.clientId == clientId && InRange(r.date, start, end)
      ensures multiset(FetchedTransactions(rows, clientId, start, end))[r] == multiset(rows)[r]
    {
      TxQueryMeaning(clientId, start, end, r);
      SelectMultiset(rows, QueryFilter(q.0, q.1), r);
    }
  }

  /** The reply, once connected: the fetched rows in the same order, each with its date rendered as
      ISO text, so still most recent first and still within the bounds. */
  lemma ClientTransactionsFacts(env: MysqlEnv, clientId: string, start: Option<string>, end: Option<string>)
    requires MysqlAttempt(env).Connected?
    ensures var r := ClientTransactions(env, clientId, start, end).reply;
            var fetched := FetchedTransactions(env.transactions, clientId, start, end);
      && r.Ok?
      && |r.payload| == |fetched|
      && NonIncreasing(r.payload, TxRank)
      && forall i :: 0 <= i < |r.payload| ==>
           && r.payload[i] == Rendered(fetched[i])
           && !r.payload[i].date.DateValue?
           && r.payload[i].clientId == clientId
           && InRange(r.payload[i].date, start, end)
  {
    var fetched := FetchedTransactions(env.transactions, clientId, start, end);
    var out := Map(Rendered, fetched);
    FetchedTransactionsFacts(env.transactions, clientId, start, end);
    forall i | 0 <= i < |out| ensures !out[i].date.DateValue? && out[i].clientId == clientId && InRange(out[i].date, start, end) {
      RenderedKeepsDate(fetched[i]);
      assert fetched[i] in fetched;
    }
    forall i, j | 0 <= i < j < |out| ensures RankLe(TxRank(out[j]), TxRank(out[i])) {
      RenderedKeepsDate(fetched[i]);
      RenderedKeepsDate(fetched[j]);
    }
  }

  // ---------------------------------------------------------------------------------------------
  // get_stock_holders_for_stock

  /** `transaction_type = 'buy' AND LOWER(stock_symbol) = LOWER(symbol)`. */
  predicate IsBuyOf(symbol: string, r: TxRow)
  {
    r.kind == "buy" && EqualIgnoringCase(r.symbol, symbol)
  }

  function BuyOf(symbol: string): TxRow -> bool { (r: TxRow) => IsBuyOf(symbol, r) }

  /** `GROUP BY client_id, stock_symbol` with `SUM(quantity)`. */
  function HolderItem(r: TxRow): ((string, string), int) { ((r.clientId, r.symbol), r.quantity) }

  function HolderItems(rows: seq<TxRow>, symbol: string): seq<((string, string), int)>
  {
    Map(HolderItem, Select(rows, BuyOf(symbol)))
  }

  function QuantityRank(t: Tally<(string, string)>): Rank { At(t.total as real) }

  /** The grouped rows, `ORDER BY total_quantity DESC`. */
  function Holders(rows: seq<TxRow>, symbol: string): seq<Tally<(string, string)>>
  {
    SortDesc(GroupSum(HolderItems(rows, symbol)), QuantityRank)
  }

  function StockFailure(symbol: string, f: Fault): string
  {
    "Failed to get holders for stock " + symbol + ". Error: " + ErrorText(f)
  }

  /** get_stock_holders_for_stock as written: `SUM` over an integer column is a `DECIMAL`, the
      connector returns it as `Decimal`, and `json.dumps` raises on it, so any holder at all turns
      the reply into the generic error. */
  function StockHoldersAsWritten(env: MysqlEnv, symbol: string): (o: Outcome<seq<Tally<(string, string)>>>)
    ensures o.reply.Ok? ==> o.reply.payload == []
    ensures Untouched(o.log, Mongo)
  {
    var a := MysqlAttempt(env);
    if a.Refused? then
      Outcome(Err(a.fault, Some(if a.connectionError then ConnectionFailedMessage else StockFailure(symbol, a.fault))), RefusalLogAsWritten(a, MySql))
    else
      var gs := Holders(env.transactions, symbol);
      if gs == [] then Outcome(Ok([]), QueryLog(MySql))
      else Outcome(Err(NotSerialisable, Some(StockFailure(symbol, NotSerialisable))), QueryLog(MySql))
  }

  /** get_stock_holders_for_stock with the totals converted before serialising: the groups. */
  function StockHolders(env: MysqlEnv, symbol: string): (o: Outcome<seq<Tally<(string, string)>>>)
    ensures o.reply.Ok? <==> MysqlAttempt(env).Connected?
  {
    var a := MysqlAttempt(env);
    if a.Refused? then
      Outcome(Err(a.fault, Some(if a.connectionError then ConnectionFailedMessage else StockFailure(symbol, a.fault))), RefusalLogAsWritten(a, MySql))
    else Outcome(Ok(Holders(env.transactions, symbol)), QueryLog(MySql))
  }

  /** Corrected, a connected run answers with the holders themselves: a correct grouping of the
      matching buy rows, largest total first, each of the requested symbol. */
  lemma StockHoldersFacts(env: MysqlEnv, symbol: string)
    requires MysqlAttempt(env).Connected?
    ensures var r := StockHolders(env, symbol).reply;
      && r == Ok(Holders(env.transactions, symbol))
      && GroupsOf(r.payload, HolderItems(env.transactions, symbol))
      && NonIncreasing(r.payload, QuantityRank)
      && forall t :: t in r.payload ==> EqualIgnoringCase(t.key.1, symbol)
  {
    HoldersCorrect(env.transactions, symbol);
  }

  /** One group per distinct (client, symbol) among the matching buy rows, each totalling their
      quantities, the totals adding up to the quantity of all of them, largest first; every group's
      symbol matches the requested one ignoring case. */
  lemma HoldersCorrect(rows: seq<TxRow>, symbol: string)
    ensures GroupsOf(Holders(rows, symbol), HolderItems(rows, symbol))
    ensures NonIncreasing(Holders(rows, symbol), QuantityRank)
    ensures forall t :: t in Holders(rows, symbol) ==> EqualIgnoringCase(t.key.1, symbol)
  {
    var items := HolderItems(rows, symbol);
    var sel := Select(rows, BuyOf(symbol));
    var gs := Holders(rows, symbol);
    SortedGroupsStillGroups(items, QuantityRank);
    forall t | t in gs ensures EqualIgnoringCase(t.key.1, symbol) {
      MemberOccurs(gs, t);
      assert HasKey(items, t.key);
      var i :| 0 <= i < |items| && items[i].0 == t.key;
      assert items[i] == HolderItem(sel[i]);
      SelectMembership(rows, BuyOf(symbol), sel[i]);
    }
  }

  /** As written, a connected run succeeds only when nobody holds the stock. */
  lemma StockHoldersAsWrittenFails(env: MysqlEnv, symbol: string)
    requires MysqlAttempt(env).Connected?
    ensures StockHoldersAsWritten(env, symbol).reply.Ok? <==> Holders(env.transactions, symbol) == []
    ensures Holders(env.transactions, symbol) != [] ==>
            StockHoldersAsWritten(env, symbol).reply == Err(NotSerialisable, Some(StockFailure(symbol, NotSerialisable)))
  {
  }

  const OneHolder := MysqlEnv("db-host", "3306", "wealth", "agent", "secret", true, true, [],
                              [TxRow("C1", "AAPL", "buy", 10, NullDate)])

  /** Called without `limit`, the tool takes 5: a connected run gives the five largest portfolios,
      or all of them when there are fewer. */
  lemma DefaultLimitTopFive(env: MysqlEnv)
    requires MysqlAttempt(env).Connected?
    ensures var r := TopNPortfolios(env, DefaultLimit).reply;
            r.Ok? && |r.payload| == if |env.portfolios| < 5 then |env.portfolios| else 5
  {
    assert TruncateTowardZero(DefaultLimit) == 5;
    TopNPortfoliosFacts(env, DefaultLimit);
  }

  /** One client who bought 10 AAPL: the tool as written answers with the error object, the
      corrected one with that client's group. */
  lemma StockHoldersCounterexample()
    ensures StockHoldersAsWritten(OneHolder, "AAPL").reply == Err(NotSerialisable, Some(StockFailure("AAPL", NotSerialisable)))
    ensures StockHolders(OneHolder, "AAPL").reply == Ok([Tally(("C1", "AAPL"), 10)])
  {
    var rows := OneHolder.transactions;
    SelectSingleton(rows[0], BuyOf("AAPL"));
    assert rows == [rows[0]];
    assert HolderItems(rows, "AAPL") == [(("C1", "AAPL"), 10)];
    var items := HolderItems(rows, "AAPL");
    assert items[..0] == [];
    assert GroupSum(items) == [Tally(("C1", "AAPL"), 10)];
    assert SortDesc([Tally(("C1", "AAPL"), 10)], QuantityRank) == [Tally(("C1", "AAPL"), 10)];
  }

  // ---------------------------------------------------------------------------------------------
  // What every run promises

  /** A missing MySQL setting is answered with an error object, never raised, before any MySQL
      connection; the `ValueError` reaches each tool's generic branch. */
  lemma MysqlCredentialsMissingReported(env: MysqlEnv, limit: real, clientId: string, start: Option<string>, end: Option<string>,
                                        symbol: string, mongo: MongoEnv, name: string)
    requires !MysqlCredentialsSet(env)
    ensures TopNPortfolios(env, limit) ==
            Outcome(Err(MysqlCredentialsMissing, Some("An unexpected error occurred while fetching top portfolios.")), [])
    ensures ClientTransactions(env, clientId, start, end) ==
            Outcome(Err(MysqlCredentialsMissing, Some(TxFailure(clientId, MysqlCredentialsMissing))), [])
    ensures StockHolders(env, symbol) == Outcome(Err(MysqlCredentialsMissing, Some(StockFailure(symbol, MysqlCredentialsMissing))), [])
    ensures StockHoldersAsWritten(env, symbol) ==
            Outcome(Err(MysqlCredentialsMissing, Some(StockFailure(symbol, MysqlCredentialsMissing))), [])
    ensures DatabaseAttempt(mongo).Connected? && mongo.reachable && CandidateIds(mongo.clients, name) != [] ==>
            PortfolioValuesByRelationshipManager(mongo, env, name) ==
            Outcome(Err(MysqlCredentialsMissing, Some(RmFailure(name, MysqlCredentialsMissing))), QueryLog(Mongo))
  {
  }

  /** The MySQL-only tools close every connection they open and never touch MongoDB. */
  lemma MysqlToolsCloseWhatTheyOpen(env: MysqlEnv, limit: real, clientId: string, start: Option<string>, end: Option<string>, symbol: string)
    ensures var log := TopNPortfolios(env, limit).log; ClosesWhatItOpens(log) && Untouched(log, Mongo)
    ensures var log := ClientTransactions(env, clientId, start, end).log; ClosesWhatItOpens(log) && Untouched(log, Mongo)
    ensures var log := StockHolders(env, symbol).log; ClosesWhatItOpens(log) && Untouched(log, Mongo)
    ensures var log := StockHoldersAsWritten(env, symbol).log; ClosesWhatItOpens(log) && Untouched(log, Mongo)
  {
    QueryLogCloses(MySql);
  }

  /** Two clients of "Asha" (one spelled "ASHA") and one of "Asha Jr"; C2 has no MySQL row. */
  const AshaClients: seq<Doc> := [
    map["client_id" := Str("C1"), "relationship_manager" := Str("Asha")],
    map["client_id" := Str("C2"), "relationship_manager" := Str("ASHA")],
    map["client_id" := Str("C3"), "relationship_manager" := Str("Asha Jr")]]

  const AshaPortfolios := [PortfolioRow("C1", DecimalAmount(10.5)), PortfolioRow("C3", DecimalAmount(4.0))]

  lemma AshaMatches()
    ensures forall i :: 0 <= i < 3 ==> MongoTools.ManagerContains("asha", AshaClients[i])
    ensures ManagerIs("asha", AshaClients[0]) && ManagerIs("asha", AshaClients[1]) && !ManagerIs("asha", AshaClients[2])
  {
    assert Lower("Asha") == "asha" && Lower("ASHA") == "asha";
    assert Lower("Asha Jr"[0..4]) == "asha" by {
      assert "Asha Jr"[0..4] == "Asha";
    }
    assert OccursAt("Asha", "asha", 0) && OccursAt("ASHA", "asha", 0) && OccursAt("Asha Jr", "asha", 0);
    assert |Lower("Asha Jr")| == 7 && |Lower("asha")| == 4 && |Lower("asha" + "\n")| == 5;
  }

  lemma AshaSubstringIds()
    ensures MongoTools.ManagerClientIds(AshaClients, "asha") == [Str("C1"), Str("C2"), Str("C3")]
  {
    var docs := AshaClients;
    AshaMatches();
    MongoTools.ManagerClientIdsCons(docs, "asha");
    MongoTools.ManagerClientIdsCons(docs[1..], "asha");
    MongoTools.ManagerClientIdsCons(docs[2..], "asha");
    assert docs[1..][1..] == docs[2..] && docs[2..][1..] == [];
  }

  lemma AshaCandidates()
    ensures CandidateIds(AshaClients, "asha") == [Str("C1"), Str("C2")]
  {
    var docs := AshaClients;
    AshaMatches();
    CandidateIdsCons(docs, "asha");
    CandidateIdsCons(docs[1..], "asha");
    CandidateIdsCons(docs[2..], "asha");
    assert docs[1..][1..] == docs[2..] && docs[2..][1..] == [];
  }

  lemma AshaTotal()
    ensures RmSum(AshaPortfolios, [Str("C1"), Str("C2")]) == 10.5
  {
    var rows, ids := AshaPortfolios, [Str("C1"), Str("C2")];
    assert Select(rows, WithIdIn(ids)) == [rows[0]] by {
      assert rows == [rows[0]] + [rows[1]];
      SelectAppend([rows[0]], [rows[1]], WithIdIn(ids));
      SelectSingleton(rows[0], WithIdIn(ids));
      SelectSingleton(rows[1], WithIdIn(ids));
    }
    DecimalSumLaws();
    assert DecimalSum([rows[0]]) == 10.5;
  }

  /** The substring match of get_client_ids_by_relationship_manager takes all three clients, the
      whole-name match here only the first two, and the total is C1's value alone. */
  lemma AshaScenario()
    ensures MongoTools.ManagerClientIds(AshaClients, "asha") == [Str("C1"), Str("C2"), Str("C3")]
    ensures CandidateIds(AshaClients, "asha") == [Str("C1"), Str("C2")]
    ensures RmSum(AshaPortfolios, CandidateIds(AshaClients, "asha")) == 10.5
  {
    AshaSubstringIds();
    AshaCandidates();
    AshaTotal();
  }
}
