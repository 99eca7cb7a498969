/** The MongoDB tool provider: eight read-only queries over the `clients` collection. */
module MongoTools {
  import opened Json
  import opened Seqs
  import opened Text
  import opened Ranking
  import opened Grouping
  import opened Stores

  const ConnectionFailedMessage := "MongoDB connection failed."

  /** The levels `get_clients_by_risk_appetite` accepts, compared exactly. */
  const RiskLevels := ["High", "Medium", "Low"]

  /** 2^63: `$limit` travels as a signed 64-bit BSON integer, and a larger `int(limit)` makes the
      driver raise `OverflowError` while encoding the pipeline. */
  const Int64Bound: int := 0x8000_0000_0000_0000

  /** The inclusion projection of the name/value summaries. */
  const SummaryFields := {"name", "initial_portfolio_value_crores", "client_id"}

  /** The inclusion projection of `get_clients_by_investment_preference`. */
  const PreferenceFields := {"name", "risk_appetite", "client_id"}

  // ---------------------------------------------------------------------------------------------
  // Query conditions as MongoDB evaluates them on a field

  /** A string condition holds of a value that is that string, or an array holding such a string. */
  predicate ValueSatisfies(v: Value, p: string -> bool)
  {
    match v
    case Str(s) => p(s)
    case Arr(items) => exists i :: 0 <= i < |items| && items[i].Str? && p(items[i].s)
    case _ => false
  }

  predicate FieldSatisfies(d: Doc, field: string, p: string -> bool)
  {
    field in d && ValueSatisfies(d[field], p)
  }

  /** A path `outer.field` into a sub-document, or into any sub-document of an array. */
  predicate PathSatisfies(v: Value, field: string, p: string -> bool)
  {
    match v
    case Obj(m) => FieldSatisfies(m, field, p)
    case Arr(items) => exists i :: 0 <= i < |items| && items[i].Obj? && FieldSatisfies(items[i].fields, field, p)
    case _ => false
  }

  function Summary(d: Doc): Doc { Project(d, SummaryFields) }

  function PreferenceSummary(d: Doc): Doc { Project(d, PreferenceFields) }

  /** The list comprehension over matched documents: their `client_id`s, skipping documents without one. */
  function ClientIdsOf(docs: seq<Doc>): (ids: seq<Value>)
    ensures |ids| <= |docs|
  {
    Map(ClientIdOf, Select(docs, HasClientId))
  }

  predicate HasClientId(d: Doc) { "client_id" in d }

  function ClientIdOf(d: Doc): Value { if "client_id" in d then d["client_id"] else Null }

  /** The comprehension keeps stored order and drops exactly the documents without `client_id`. */
  lemma ClientIdsOfLaws()
    ensures forall a, b :: ClientIdsOf(a + b) == ClientIdsOf(a) + ClientIdsOf(b)
    ensures forall d :: ClientIdsOf([d]) == if "client_id" in d then [d["client_id"]] else []
    ensures ClientIdsOf([]) == []
  {
    forall a, b ensures ClientIdsOf(a + b) == ClientIdsOf(a) + ClientIdsOf(b) {
      SelectAppend(a, b, HasClientId);
      MapAppend(ClientIdOf, Select(a, HasClientId), Select(b, HasClientId));
    }
    forall d ensures ClientIdsOf([d]) == if "client_id" in d then [d["client_id"]] else [] {
      SelectSingleton(d, HasClientId);
    }
  }

  /** One tool run: the helper `_get_mongo_collection`, then the tool's `query` (None when the
      server rejects it), inside the tool's `try/except/finally`. A client the helper made before
      raising never reaches the tool, so the `finally` has nothing to close. */
  function Session<T>(env: MongoEnv, failure: string, query: seq<Doc> -> Option<T>): Outcome<T>
  {
    var attempt := CollectionAttempt(env);
    if attempt.Refused? then
      Outcome(Err(attempt.fault, Some(if attempt.connectionError then ConnectionFailedMessage else failure)),
              RefusalLogAsWritten(attempt, Mongo))
    else if !env.reachable then Outcome(Err(QueryFailed(Mongo), Some(failure)), QueryLog(Mongo))
    else match query(env.clients)
      case None => Outcome(Err(QueryFailed(Mongo), Some(failure)), QueryLog(Mongo))
      case Some(r) => Outcome(Ok(r), QueryLog(Mongo))
  }

  /** Whether a tool run can get as far as its query. */
  predicate Usable(env: MongoEnv)
  {
    CollectionAttempt(env).Connected? && env.reachable
  }

  /** MONGO_URI is set and accepted but MONGO_DB_NAME is unset or rejected: the helper raises
      after `MongoClient(...)` has made a client. */
  predicate LeavesClientOpen(env: MongoEnv)
  {
    env.uri != "" && env.uriAccepted && !DbNameAccepted(env.dbName)
  }

  /** Every failure comes back as an error object; every client the tool receives is closed, and
      the only client left open is the one the helper made before raising; a missing MONGO_URI is
      reported before any client exists. */
  lemma SessionFacts<T>(env: MongoEnv, failure: string, query: seq<Doc> -> Option<T>)
    ensures ClosesWhatItOpens(Session(env, failure, query).log) <==> !LeavesClientOpen(env)
    ensures LeavesClientOpen(env) ==> Session(env, failure, query).log == [Opened(Mongo)]
    ensures Untouched(Session(env, failure, query).log, MySql)
    ensures Session(env, failure, query).reply.Ok? <==> Usable(env) && query(env.clients).Some?
    ensures Usable(env) && query(env.clients).Some? ==> Session(env, failure, query).reply.payload == query(env.clients).value
    ensures env.uri == "" ==> Session(env, failure, query) == Outcome(Err(MongoUriMissing, Some(failure)), [])
    ensures env.uri != "" && (!env.uriAccepted || !DbNameAccepted(env.dbName)) ==>
              Session(env, failure, query).reply == Err(MongoConnectFailed, Some(ConnectionFailedMessage))
  {
    var log := Session(env, failure, query).log;
    QueryLogCloses(Mongo);
    if LeavesClientOpen(env) {
      assert log == [Opened(Mongo)];
      assert |log| == 1 && log[0].Opened?;
    }
  }

  /** The run as intended: the helper closes a client it made before raising. Every run then
      closes what it opens, with the same reply. */
  function SessionCorrected<T>(env: MongoEnv, failure: string, query: seq<Doc> -> Option<T>): (o: Outcome<T>)
    ensures o.reply == Session(env, failure, query).reply
    ensures ClosesWhatItOpens(o.log)
    ensures Untouched(o.log, MySql)
    ensures !LeavesClientOpen(env) ==> o == Session(env, failure, query)
    ensures LeavesClientOpen(env) ==> o.log == [Opened(Mongo), Closed(Mongo)]
  {
    var o := Session(env, failure, query);
    var attempt := CollectionAttempt(env);
    SessionFacts(env, failure, query);
    if attempt.Refused? then Outcome(o.reply, RefusalLog(attempt, Mongo)) else o
  }

  /** With MONGO_DB_NAME unset, get_client_profile_by_name answers with the connection message
      and leaves the client `MongoClient(...)` made open. */
  lemma ProfileByNameLeavesClientOpen()
    ensures var o := ClientProfileByName(MongoEnv("mongodb://db", "", true, true, []), "Asha");
            && o.reply == Err(MongoConnectFailed, Some(ConnectionFailedMessage))
            && o.log == [Opened(Mongo)]
            && !ClosesWhatItOpens(o.log)
  {
    var o := ClientProfileByName(MongoEnv("mongodb://db", "", true, true, []), "Asha");
    assert |o.log| == 1 && o.log[0].Opened?;
  }

  // ---------------------------------------------------------------------------------------------
  // The tools, each as its query over the collection and its run

  predicate NameContains(name: string, d: Doc)
  {
    FieldSatisfies(d, "name", s => ContainsIgnoringCase(s, name))
  }

  function ByName(name: string): Doc -> bool { d => NameContains(name, d) }

  /** `collection.find_one(filter, {"_id": 0})`. */
  function FindOne(docs: seq<Doc>, p: Doc -> bool): Option<Doc>
  {
    match FirstIndex(docs, p)
    case None => None
    case Some(i) => Some(WithoutId(docs[i]))
  }

  /** The reply of get_client_profile_by_name: the found document, or `{}` for none (an empty
      found document also prints as `{}`). */
  function ProfileByName(docs: seq<Doc>, clientName: string): Doc
  {
    match FindOne(docs, ByName(clientName))
    case Some(d) => d
    case None => map[]
  }

  /** get_client_profile_by_name */
  function ClientProfileByName(env: MongoEnv, clientName: string): (o: Outcome<Doc>)
    ensures o.reply.Ok? <==> Usable(env)
    ensures Untouched(o.log, MySql)
  {
    var query := docs => Some(ProfileByName(docs, clientName));
    SessionFacts(env, "Failed to retrieve client profile.", query);
    Session(env, "Failed to retrieve client profile.", query)
  }

  predicate NameHasWord(profession: string, d: Doc)
  {
    FieldSatisfies(d, "name", s => ContainsWordIgnoringCase(s, profession))
  }

  function ByProfession(profession: string): Doc -> bool { d => NameHasWord(profession, d) }

  function ProfessionSummaries(docs: seq<Doc>, profession: string): seq<Doc>
  {
    Map(Summary, Select(docs, ByProfession(profession)))
  }

  /** get_clients_by_profession */
  function ClientsByProfession(env: MongoEnv, profession: string): (o: Outcome<seq<Doc>>)
    ensures o.reply.Ok? <==> Usable(env)
    ensures Untouched(o.log, MySql)
  {
    var query := docs => Some(ProfessionSummaries(docs, profession));
    SessionFacts(env, "Failed to retrieve clients by profession.", query);
    Session(env, "Failed to retrieve clients by profession.", query)
  }

  predicate HasRiskAppetite(level: string, d: Doc)
  {
    FieldSatisfies(d, "risk_appetite", s => s == level)
  }

  function ByRisk(level: string): Doc -> bool { d => HasRiskAppetite(level, d) }

  function RiskSummaries(docs: seq<Doc>, level: string): seq<Doc>
  {
    Map(Summary, Select(docs, ByRisk(level)))
  }

  /** get_clients_by_risk_appetite: the level is checked before any connection is made. */
  function ClientsByRiskAppetite(env: MongoEnv, level: string): (o: Outcome<seq<Doc>>)
    ensures o.reply.Ok? <==> level in RiskLevels && Usable(env)
    ensures Untouched(o.log, MySql)
  {
    var query := docs => Some(RiskSummaries(docs, level));
    SessionFacts(env, "Failed to retrieve clients by risk appetite.", query);
    if level !in RiskLevels then Outcome(Err(InvalidRiskLevel, None), [])
    else Session(env, "Failed to retrieve clients by risk appetite.", query)
  }

  predicate HasPreference(preference: string, d: Doc)
  {
    FieldSatisfies(d, "investment_preferences", s => ContainsIgnoringCase(s, preference))
  }

  function ByPreference(preference: string): Doc -> bool { d => HasPreference(preference, d) }

  function PreferenceSummaries(docs: seq<Doc>, preference: string): seq<Doc>
  {
    Map(PreferenceSummary, Select(docs, ByPreference(preference)))
  }

  /** get_clients_by_investment_preference */
  function ClientsByInvestmentPreference(env: MongoEnv, preference: string): (o: Outcome<seq<Doc>>)
    ensures o.reply.Ok? <==> Usable(env)
    ensures Untouched(o.log, MySql)
  {
    var query := docs => Some(PreferenceSummaries(docs, preference));
    SessionFacts(env, "Failed to retrieve clients by investment preference.", query);
    Session(env, "Failed to retrieve clients by investment preference.", query)
  }

  /** The `$group` key: the field's value; a missing field groups with `null`. */
  function ManagerOf(d: Doc): Value
  {
    if "relationship_manager" in d then d["relationship_manager"] else Null
  }

  function ManagerItem(d: Doc): (Value, int) { (ManagerOf(d), 1) }

  function CountRank(t: Tally<Value>): Rank { At(t.total as real) }

  /** The aggregation `$group` by manager with `$sum: 1`, then `$sort: {client_count: -1}`;
      each tally is one `{"_id": manager, "client_count": n}` document. */
  function ManagerCounts(docs: seq<Doc>): seq<Tally<Value>>
  {
    SortDesc(GroupSum(Map(ManagerItem, docs)), CountRank)
  }

  /** get_top_relationship_managers */
  function TopRelationshipManagers(env: MongoEnv): (o: Outcome<seq<Tally<Value>>>)
    ensures o.reply.Ok? <==> Usable(env)
    ensures Untouched(o.log, MySql)
  {
    var query := docs => Some(ManagerCounts(docs));
    SessionFacts(env, "Failed to retrieve top relationship managers.", query);
    Session(env, "Failed to retrieve top relationship managers.", query)
  }

  /** What get_client_profile_by_id sends back for one id. */
  datatype Profile = Found(doc: Doc) | NotFound(message: string)

  predicate HasClientIdValue(clientId: string, d: Doc)
  {
    FieldSatisfies(d, "client_id", s => s == clientId)
  }

  function ById(clientId: string): Doc -> bool { d => HasClientIdValue(clientId, d) }

  function ProfileById(docs: seq<Doc>, clientId: string): Profile
  {
    match FindOne(docs, ById(clientId))
    case Some(d) => if d != map[] then Found(d) else NotFound("Client with ID " + clientId + " not found.")
    case None => NotFound("Client with ID " + clientId + " not found.")
  }

  /** get_client_profile_by_id: an unknown id is answered with a `message` object, not an error. */
  function ClientProfileById(env: MongoEnv, clientId: string): (o: Outcome<Profile>)
    ensures o.reply.Ok? <==> Usable(env)
    ensures Untouched(o.log, MySql)
  {
    var query := docs => Some(ProfileById(docs, clientId));
    SessionFacts(env, "Failed to retrieve client profile for ID " + clientId + ".", query);
    Session(env, "Failed to retrieve client profile for ID " + clientId + ".", query)
  }

  predicate ManagerContains(name: string, d: Doc)
  {
    FieldSatisfies(d, "relationship_manager", s => ContainsIgnoringCase(s, name))
  }

  function ByManager(name: string): Doc -> bool { d => ManagerContains(name, d) }

  function ManagerClientIds(docs: seq<Doc>, name: string): seq<Value>
  {
    ClientIdsOf(Select(docs, ByManager(name)))
  }

  /** get_client_ids_by_relationship_manager */
  function ClientIdsByRelationshipManager(env: MongoEnv, name: string): (o: Outcome<seq<Value>>)
    ensures o.reply.Ok? <==> Usable(env)
    ensures Untouched(o.log, MySql)
  {
    var query := docs => Some(ManagerClientIds(docs, name));
    SessionFacts(env, "Failed to retrieve client IDs for RM " + name + ".", query);
    Session(env, "Failed to retrieve client IDs for RM " + name + ".", query)
  }

  /** One document of `$unwind: "$portfolio_by_preference"`: the client with one of its holdings. */
  datatype Unwound = Unwound(doc: Doc, holding: Value)

  /** The values `$unwind` produces for a document: an array's elements; nothing for a missing
      field, `null` or `[]`; any other value on its own. */
  function Holdings(d: Doc): seq<Value>
  {
    if "portfolio_by_preference" !in d then []
    else match d["portfolio_by_preference"]
      case Null => []
      case Arr(items) => items
      case v => [v]
  }

  function UnwindDoc(d: Doc): seq<Unwound>
  {
    Map((h: Value) => Unwound(d, h), Holdings(d))
  }

  function Unwind(docs: seq<Doc>): seq<Unwound>
  {
    if docs == [] then [] else UnwindDoc(docs[0]) + Unwind(docs[1..])
  }

  predicate TypeMatches(investmentType: string, holding: Value)
  {
    PathSatisfies(holding, "type", s => ContainsIgnoringCase(s, investmentType))
  }

  /** The first `$match`, on the whole document. */
  function OfType(investmentType: string): Doc -> bool
  {
    (d: Doc) => "portfolio_by_preference" in d && TypeMatches(investmentType, d["portfolio_by_preference"])
  }

  /** The second `$match`, on one unwound holding. */
  function HoldingOfType(investmentType: string): Unwound -> bool
  {
    (u: Unwound) => TypeMatches(investmentType, u.holding)
  }

  /** The values a path `holding.field` reaches, as `$project` collects them: the field of a
      sub-document; for an array holding, the array of the field's values in the sub-documents
      among its elements that have it; nothing for any other holding. */
  function ProjectedField(holding: Value, field: string): (r: Option<Value>)
    ensures holding.Obj? ==> (r.Some? <==> field in holding.fields)
    ensures holding.Obj? && field in holding.fields ==> r == Some(holding.fields[field])
    ensures holding.Arr? ==> r == Some(Arr(FieldValues(holding.items, field))) && |r.value.items| <= |holding.items|
    ensures !holding.Obj? && !holding.Arr? ==> r.None?
  {
    match holding
    case Obj(fields) => if field in fields then Some(fields[field]) else None
    case Arr(items) => Some(Arr(FieldValues(items, field)))
    case _ => None
  }

  /** The `field` values of the sub-documents among `items` that have it, in order. */
  function FieldValues(items: seq<Value>, field: string): (r: seq<Value>)
    ensures |r| <= |items|
    ensures forall v :: v in r ==> exists i :: 0 <= i < |items| && items[i].Obj? && field in items[i].fields && items[i].fields[field] == v
  {
    if items == [] then []
    else
      var rest := FieldValues(items[1..], field);
      assert forall v :: v in rest ==> exists i :: 0 <= i < |items| && items[i].Obj? && field in items[i].fields && items[i].fields[field] == v by {
        forall v | v in rest ensures exists i :: 0 <= i < |items| && items[i].Obj? && field in items[i].fields && items[i].fields[field] == v {
          var i :| 0 <= i < |items[1..]| && items[1..][i].Obj? && field in items[1..][i].fields && items[1..][i].fields[field] == v;
          assert items[i + 1] == items[1..][i];
        }
      }
      (if items[0].Obj? && field in items[0].fields then [items[0].fields[field]] else []) + rest
  }

  /** The collected values keep the order of the elements they come from. */
  lemma {:induction false} FieldValuesAppend(a: seq<Value>, b: seq<Value>, field: string)
    ensures FieldValues(a + b, field) == FieldValues(a, field) + FieldValues(b, field)
  {
    if a == [] {
      assert a + b == b;
    } else {
      var head := if a[0].Obj? && field in a[0].fields then [a[0].fields[field]] else [];
      assert (a + b)[0] == a[0];
      assert (a + b)[1..] == a[1..] + b;
      assert FieldValues(a + b, field) == head + FieldValues(a[1..] + b, field);
      FieldValuesAppend(a[1..], b, field);
      assert FieldValues(a, field) == head + FieldValues(a[1..], field);
    }
  }

  /** Every sub-document that has the field contributes its value. */
  lemma {:induction false} FieldValuesComplete(items: seq<Value>, field: string, i: int)
    requires 0 <= i < |items| && items[i].Obj? && field in items[i].fields
    ensures items[i].fields[field] in FieldValues(items, field)
    decreases i
  {
    var head := if items[0].Obj? && field in items[0].fields then [items[0].fields[field]] else [];
    assert FieldValues(items, field) == head + FieldValues(items[1..], field);
    if i > 0 {
      assert items[1..][i - 1] == items[i];
      FieldValuesComplete(items[1..], field, i - 1);
    }
  }

  function RankMax(a: Rank, b: Rank): (r: Rank)
    ensures RankLe(a, r) && RankLe(b, r)
    ensures r == a || r == b
  {
    if RankLe(a, b) then b else a
  }

  /** The largest number among `vs`; `Bottom` when there is none. */
  function MaxNumber(vs: seq<Value>): (r: Rank)
    ensures forall i :: 0 <= i < |vs| && vs[i].Num? ==> RankLe(At(vs[i].n), r)
    ensures r.At? ==> exists i :: 0 <= i < |vs| && vs[i] == Num(r.v)
  {
    if vs == [] then Bottom
    else
      var rest := MaxNumber(vs[1..]);
      assert forall i :: 1 <= i < |vs| ==> vs[i] == vs[1..][i - 1];
      RankMax(if vs[0].Num? then At(vs[0].n) else Bottom, rest)
  }

  /** A descending sort's key for one value the sort path reaches: a number is itself, and an
      array ranks by its largest number. */
  function ElementKey(v: Value): Rank
  {
    match v
    case Num(n) => At(n)
    case Arr(items) => MaxNumber(items)
    case _ => Bottom
  }

  /** The largest key among `vs`. */
  function MaxKey(vs: seq<Value>): (r: Rank)
    ensures forall i :: 0 <= i < |vs| ==> RankLe(ElementKey(vs[i]), r)
    ensures r.At? ==> exists i :: 0 <= i < |vs| && ElementKey(vs[i]) == r
  {
    if vs == [] then Bottom
    else
      var rest := MaxKey(vs[1..]);
      assert forall i :: 1 <= i < |vs| ==> vs[i] == vs[1..][i - 1];
      RankMax(ElementKey(vs[0]), rest)
  }

  /** `$sort: {f: -1}` on the value a path reaches: a number is its own key, an array sorts by
      its largest element, and a missing or non-numeric value sorts below every number. */
  function SortKey(v: Option<Value>): Rank
  {
    match v
    case Some(Num(n)) => At(n)
    case Some(Arr(items)) => MaxKey(items)
    case _ => Bottom
  }

  /** The `$sort` key `portfolio_by_preference.value_crores` of an unwound document. */
  function HoldingRank(u: Unwound): Rank
  {
    SortKey(ProjectedField(u.holding, "value_crores"))
  }

  /** The `$project` stage: a field whose source is missing is left out. */
  function HoldingRow(u: Unwound): (row: Doc)
    ensures "client_id" in row <==> "client_id" in u.doc
    ensures "client_id" in row ==> row["client_id"] == u.doc["client_id"]
    ensures "holding_value_crores" in row <==> ProjectedField(u.holding, "value_crores").Some?
    ensures "holding_value_crores" in row ==> row["holding_value_crores"] == ProjectedField(u.holding, "value_crores").value
    ensures "investment_type" in row <==> ProjectedField(u.holding, "type").Some?
    ensures "investment_type" in row ==> row["investment_type"] == ProjectedField(u.holding, "type").value
    ensures forall f :: f in {"name", "risk_appetite"} ==> (f in row <==> f in u.doc)
    ensures forall f :: f in {"name", "risk_appetite"} && f in row ==> row[f] == u.doc[f]
    ensures row.Keys <= {"client_id", "name", "risk_appetite", "investment_type", "holding_value_crores"}
    ensures IdField !in row
  {
    var src := map[
      "client_id" := Get(u.doc, "client_id"),
      "name" := Get(u.doc, "name"),
      "risk_appetite" := Get(u.doc, "risk_appetite"),
      "investment_type" := ProjectedField(u.holding, "type"),
      "holding_value_crores" := ProjectedField(u.holding, "value_crores")];
    map k | k in src && src[k].Some? :: src[k].value
  }

  /** The sort key of an output row, read back from its `holding_value_crores`. */
  function RowRank(row: Doc): Rank
  {
    SortKey(Get(row, "holding_value_crores"))
  }

  /** The matching (client, holding) pairs before `$sort` and `$limit`. */
  function MatchingHoldings(docs: seq<Doc>, investmentType: string): seq<Unwound>
  {
    Select(Unwind(Select(docs, OfType(investmentType))), HoldingOfType(investmentType))
  }

  /** The pairs `$sort` and `$limit` keep. */
  function KeptHoldings(docs: seq<Doc>, investmentType: string, n: nat): seq<Unwound>
  {
    Take(SortDesc(MatchingHoldings(docs, investmentType), HoldingRank), n)
  }

  /** The aggregation pipeline; `$limit` rejects a limit that is not positive, and the driver one
      that does not fit a signed 64-bit integer. */
  function HoldingsPipeline(docs: seq<Doc>, investmentType: string, n: int): (r: Option<seq<Doc>>)
    ensures r.Some? <==> 0 < n < Int64Bound
    ensures r.Some? ==> |r.value| <= n
  {
    if n <= 0 || n >= Int64Bound then None
    else Some(Map(HoldingRow, KeptHoldings(docs, investmentType, n)))
  }

  /** get_top_n_clients_by_investment_type_value: `int(limit)` truncates toward zero. */
  function TopNClientsByInvestmentTypeValue(env: MongoEnv, investmentType: string, limit: real): (o: Outcome<seq<Doc>>)
    ensures o.reply.Ok? <==> Usable(env) && 0 < TruncateTowardZero(limit) < Int64Bound
    ensures Untouched(o.log, MySql)
  {
    var query := docs => HoldingsPipeline(docs, investmentType, TruncateTowardZero(limit));
    SessionFacts(env, TopClientsFailure(investmentType), query);
    Session(env, TopClientsFailure(investmentType), query)
  }

  function TopClientsFailure(investmentType: string): string
  {
    "Failed to retrieve top clients by " + investmentType + " investment value. Check agent console logs for more details."
  }

  /** An array holding ranks by the largest `value_crores` among its sub-documents: the pair
      `[{type: "Equity", value_crores: 9}]` sorts above the sub-document `{type: "Equity", value_crores: 1}`. */
  lemma ArrayHoldingRanksByLargestValue(d: Doc)
    ensures var nine := Obj(map["type" := Str("Equity"), "value_crores" := Num(9.0)]);
            var one := Obj(map["type" := Str("Equity"), "value_crores" := Num(1.0)]);
            && HoldingRank(Unwound(d, Arr([nine]))) == At(9.0)
            && HoldingRank(Unwound(d, one)) == At(1.0)
            && HoldingRow(Unwound(d, Arr([nine])))["holding_value_crores"] == Arr([Num(9.0)])
  {
    var nine := Obj(map["type" := Str("Equity"), "value_crores" := Num(9.0)]);
    assert FieldValues([nine], "value_crores") == [Num(9.0)] by {
      assert [nine][1..] == [];
    }
    assert [Num(9.0)][1..] == [];
  }

  // ---------------------------------------------------------------------------------------------
  // What the queries return

  /** find_one: `{}` exactly when no client's name contains `clientName`; otherwise the first
      such client in stored order, without `_id`. */
  lemma ProfileByNameFirstMatch(docs: seq<Doc>, clientName: string)
    ensures ProfileByName(docs, clientName) == map[] <==> forall i :: 0 <= i < |docs| ==> !NameContains(clientName, docs[i])
    ensures forall i :: 0 <= i < |docs| && NameContains(clientName, docs[i]) && (forall j :: 0 <= j < i ==> !NameContains(clientName, docs[j])) ==>
              ProfileByName(docs, clientName) == WithoutId(docs[i])
  {
    var f := FirstIndex(docs, ByName(clientName));
    if f.Some? {
      assert "name" in WithoutId(docs[f.value]);
    }
    forall i | 0 <= i < |docs| && NameContains(clientName, docs[i]) && (forall j :: 0 <= j < i ==> !NameContains(clientName, docs[j]))
      ensures ProfileByName(docs, clientName) == WithoutId(docs[i])
    {
      assert ByName(clientName)(docs[i]);
      assert f.Some? && f.value == i;
    }
  }

  /** find_one by exact id: the not-found message exactly when no client has that id; otherwise
      the first such client in stored order, without `_id`. */
  lemma ProfileByIdFirstMatch(docs: seq<Doc>, clientId: string)
    ensures ProfileById(docs, clientId).NotFound? <==> forall i :: 0 <= i < |docs| ==> !HasClientIdValue(clientId, docs[i])
    ensures ProfileById(docs, clientId).NotFound? ==> ProfileById(docs, clientId).message == "Client with ID " + clientId + " not found."
    ensures forall i :: 0 <= i < |docs| && HasClientIdValue(clientId, docs[i]) && (forall j :: 0 <= j < i ==> !HasClientIdValue(clientId, docs[j])) ==>
              ProfileById(docs, clientId) == Found(WithoutId(docs[i]))
  {
    var f := FirstIndex(docs, ById(clientId));
    if f.Some? {
      assert "client_id" in WithoutId(docs[f.value]);
    }
    forall i | 0 <= i < |docs| && HasClientIdValue(clientId, docs[i]) && (forall j :: 0 <= j < i ==> !HasClientIdValue(clientId, docs[j]))
      ensures ProfileById(docs, clientId) == Found(WithoutId(docs[i]))
    {
      assert ById(clientId)(docs[i]);
      assert f.Some? && f.value == i;
    }
  }

  /** The profession summaries are the summaries of exactly the clients whose name holds the
      profession as a whole word, in stored order */
  lemma ProfessionSummariesLaws(profession: string)
    ensures forall a, b :: ProfessionSummaries(a + b, profession) == ProfessionSummaries(a, profession) + ProfessionSummaries(b, profession)
    ensures forall d :: ProfessionSummaries([d], profession) == if NameHasWord(profession, d) then [Summary(d)] else []
  {
    var p := ByProfession(profession);
    forall a, b ensures ProfessionSummaries(a + b, profession) == ProfessionSummaries(a, profession) + ProfessionSummaries(b, profession) {
      SelectAppend(a, b, p);
      MapAppend(Summary, Select(a, p), Select(b, p));
    }
    forall d ensures ProfessionSummaries([d], profession) == if NameHasWord(profession, d) then [Summary(d)] else [] {
      SelectSingleton(d, p);
    }
  }

  /** The risk summaries are the summaries of exactly the clients at that level, in stored order. */
  lemma RiskSummariesLaws(level: string)
    ensures forall a, b :: RiskSummaries(a + b, level) == RiskSummaries(a, level) + RiskSummaries(b, level)
    ensures forall d :: RiskSummaries([d], level) == if HasRiskAppetite(level, d) then [Summary(d)] else []
  {
    var p := ByRisk(level);
    forall a, b ensures RiskSummaries(a + b, level) == RiskSummaries(a, level) + RiskSummaries(b, level) {
      SelectAppend(a, b, p);
      MapAppend(Summary, Select(a, p), Select(b, p));
    }
    forall d ensures RiskSummaries([d], level) == if HasRiskAppetite(level, d) then [Summary(d)] else [] {
      SelectSingleton(d, p);
    }
  }

  /** The preference summaries are those of exactly the clients one of whose preferences contains
      `preference`, in stored order. */
  lemma PreferenceSummariesLaws(preference: string)
    ensures forall a, b :: PreferenceSummaries(a + b, preference) == PreferenceSummaries(a, preference) + PreferenceSummaries(b, preference)
    ensures forall d :: PreferenceSummaries([d], preference) == if HasPreference(preference, d) then [PreferenceSummary(d)] else []
  {
    var p := ByPreference(preference);
    forall a, b ensures PreferenceSummaries(a + b, preference) == PreferenceSummaries(a, preference) + PreferenceSummaries(b, preference) {
      SelectAppend(a, b, p);
      MapAppend(PreferenceSummary, Select(a, p), Select(b, p));
    }
    forall d ensures PreferenceSummaries([d], preference) == if HasPreference(preference, d) then [PreferenceSummary(d)] else [] {
      SelectSingleton(d, p);
    }
  }

  /** The ids of the clients whose manager contains `name`, in stored order, a matching client
      without `client_id` contributing nothing; never more ids than matching clients. */
  lemma ManagerClientIdsLaws(name: string)
    ensures forall a, b :: ManagerClientIds(a + b, name) == ManagerClientIds(a, name) + ManagerClientIds(b, name)
    ensures forall d :: ManagerClientIds([d], name) == if ManagerContains(name, d) && "client_id" in d then [d["client_id"]] else []
    ensures forall docs :: |ManagerClientIds(docs, name)| <= |Select(docs, ByManager(name))|
  {
    ClientIdsOfLaws();
    forall a, b ensures ManagerClientIds(a + b, name) == ManagerClientIds(a, name) + ManagerClientIds(b, name) {
      SelectAppend(a, b, ByManager(name));
    }
    forall d ensures ManagerClientIds([d], name) == if ManagerContains(name, d) && "client_id" in d then [d["client_id"]] else [] {
      SelectSingleton(d, ByManager(name));
    }
  }

  lemma ManagerClientIdsCons(docs: seq<Doc>, name: string)
    requires docs != []
    ensures ManagerClientIds(docs, name) ==
            (if ManagerContains(name, docs[0]) && "client_id" in docs[0] then [docs[0]["client_id"]] else []) + ManagerClientIds(docs[1..], name)
  {
    ClientIdsOfLaws();
    assert docs == [docs[0]] + docs[1..];
    SelectAppend([docs[0]], docs[1..], ByManager(name));
    SelectSingleton(docs[0], ByManager(name));
  }

  /** A client whose name holds the profession as a whole word also contains it. */
  lemma ProfessionMatchIsNameMatch(profession: string, d: Doc)
    requires NameHasWord(profession, d)
    ensures NameContains(profession, d)
  {
    match d["name"]
    case Str(s) => WordMatchIsSubstringMatch(s, profession);
    case Arr(items) =>
      var i :| 0 <= i < |items| && items[i].Str? && ContainsWordIgnoringCase(items[i].s, profession);
      WordMatchIsSubstringMatch(items[i].s, profession);
  }

  /** When get_client_profile_by_name finds nobody for a word, get_clients_by_profession finds
      nobody for it either. */
  lemma NoNameMatchNoProfession(docs: seq<Doc>, profession: string)
    requires ProfileByName(docs, profession) == map[]
    ensures ProfessionSummaries(docs, profession) == []
  {
    ProfileByNameFirstMatch(docs, profession);
    var selected := Select(docs, ByProfession(profession));
    if selected != [] {
      SelectMembership(docs, ByProfession(profession), selected[0]);
      var i :| 0 <= i < |docs| && docs[i] == selected[0];
      ProfessionMatchIsNameMatch(profession, docs[i]);
    }
  }

  /** The ids are those of exactly the clients whose manager contains `name` and that have a `client_id`. */
  lemma {:induction false} ManagerClientIdsMembership(docs: seq<Doc>, name: string, v: Value)
    ensures v in ManagerClientIds(docs, name) <==>
            exists i :: 0 <= i < |docs| && ManagerContains(name, docs[i]) && "client_id" in docs[i] && docs[i]["client_id"] == v
  {
    if docs != [] {
      ManagerClientIdsMembership(docs[1..], name, v);
      ManagerClientIdsCons(docs, name);
      if exists i :: 0 <= i < |docs| && ManagerContains(name, docs[i]) && "client_id" in docs[i] && docs[i]["client_id"] == v {
        var i :| 0 <= i < |docs| && ManagerContains(name, docs[i]) && "client_id" in docs[i] && docs[i]["client_id"] == v;
        if i > 0 {
          assert docs[1..][i - 1] == docs[i];
        }
      }
      if exists i :: 0 <= i < |docs[1..]| && ManagerContains(name, docs[1..][i]) && "client_id" in docs[1..][i] && docs[1..][i]["client_id"] == v {
        var i :| 0 <= i < |docs[1..]| && ManagerContains(name, docs[1..][i]) && "client_id" in docs[1..][i] && docs[1..][i]["client_id"] == v;
        assert docs[i + 1] == docs[1..][i];
      }
    }
  }

  function ManagedBy(m: Value): Doc -> bool { d => ManagerOf(d) == m }

  /** The number of clients whose `relationship_manager` is `m` (`null` for a missing field). */
  function ManagerCount(docs: seq<Doc>, m: Value): nat { |Select(docs, ManagedBy(m))| }

  lemma {:induction false} ManagerItemsFacts(docs: seq<Doc>, m: Value)
    ensures KeyTotal(Map(ManagerItem, docs), m) == ManagerCount(docs, m)
    ensures Weight(Map(ManagerItem, docs)) == |docs|
  {
    if docs != [] {
      ManagerItemsFacts(docs[1..], m);
      assert Map(ManagerItem, docs)[1..] == Map(ManagerItem, docs[1..]);
    }
  }

  /** The manager tallies: one per distinct manager value, each counting that manager's clients,
      the counts adding up to the number of clients, largest count first. */
  lemma ManagerCountsCorrect(docs: seq<Doc>)
    ensures forall m :: Occurrences(ManagerCounts(docs), m) == if exists i :: 0 <= i < |docs| && ManagerOf(docs[i]) == m then 1 else 0
    ensures forall i :: 0 <= i < |ManagerCounts(docs)| ==> ManagerCounts(docs)[i].total == ManagerCount(docs, ManagerCounts(docs)[i].key)
    ensures SumBy(ManagerCounts(docs), TotalOf) == |docs|
    ensures NonIncreasing(ManagerCounts(docs), CountRank)
  {
    var items := Map(ManagerItem, docs);
    SortedGroupsStillGroups(items, CountRank);
    ManagerItemsFacts(docs, Null);
    forall m ensures HasKey(items, m) <==> exists i :: 0 <= i < |docs| && ManagerOf(docs[i]) == m {
      if HasKey(items, m) {
        var i :| 0 <= i < |items| && items[i].0 == m;
        assert ManagerOf(docs[i]) == m;
      }
      if exists i :: 0 <= i < |docs| && ManagerOf(docs[i]) == m {
        var i :| 0 <= i < |docs| && ManagerOf(docs[i]) == m;
        assert items[i].0 == m;
      }
    }
    forall i | 0 <= i < |ManagerCounts(docs)| ensures ManagerCounts(docs)[i].total == ManagerCount(docs, ManagerCounts(docs)[i].key) {
      ManagerItemsFacts(docs, ManagerCounts(docs)[i].key);
    }
  }

  /** One document unwinds to one pair per holding, in order, each with the whole document. */
  lemma UnwindDocMembership(d: Doc, u: Unwound)
    ensures |UnwindDoc(d)| == |Holdings(d)|
    ensures forall i :: 0 <= i < |UnwindDoc(d)| ==> UnwindDoc(d)[i] == Unwound(d, Holdings(d)[i])
    ensures u in UnwindDoc(d) <==> u.doc == d && u.holding in Holdings(d)
  {
    var hs := Holdings(d);
    if u.doc == d && u.holding in hs {
      var i :| 0 <= i < |hs| && hs[i] == u.holding;
      assert UnwindDoc(d)[i] == u;
    }
  }

  /** `$unwind` yields exactly the (client, holding) pairs of the input documents. */
  lemma {:induction false} UnwindMembership(docs: seq<Doc>, u: Unwound)
    ensures u in Unwind(docs) <==> u.doc in docs && u.holding in Holdings(u.doc)
  {
    if docs != [] {
      UnwindMembership(docs[1..], u);
      UnwindDocMembership(docs[0], u);
      assert u.doc in docs <==> u.doc == docs[0] || u.doc in docs[1..];
    }
  }

  /** The pipeline's matching pairs are exactly the pairs of a stored client and one of its holdings
      whose `type` contains the investment type; the first `$match` only matters for a holding that
      is itself an array. */
  lemma MatchingHoldingsMembership(docs: seq<Doc>, investmentType: string, u: Unwound)
    ensures u in MatchingHoldings(docs, investmentType) <==>
            u.doc in docs && u.holding in Holdings(u.doc) && TypeMatches(investmentType, u.holding) &&
            (u.holding.Arr? ==> OfType(investmentType)(u.doc))
  {
    var pre := Select(docs, OfType(investmentType));
    SelectMembership(Unwind(pre), HoldingOfType(investmentType), u);
    UnwindMembership(pre, u);
    SelectMembership(docs, OfType(investmentType), u.doc);
    if u.holding in Holdings(u.doc) && TypeMatches(investmentType, u.holding) && !u.holding.Arr? {
      var v := u.doc["portfolio_by_preference"];
      if v.Arr? {
        var i :| 0 <= i < |v.items| && v.items[i] == u.holding;
        assert v.items[i].Obj? && FieldSatisfies(v.items[i].fields, "type", s => ContainsIgnoringCase(s, investmentType));
      }
    }
  }

  /** An output row sorts as the pair it was projected from. */
  lemma RowRankIsHoldingRank(u: Unwound)
    ensures RowRank(HoldingRow(u)) == HoldingRank(u)
  {
    assert Get(HoldingRow(u), "holding_value_crores") == ProjectedField(u.holding, "value_crores");
  }

  /** `$limit` keeps `n` pairs, or all of them when fewer match. */
  lemma KeptHoldingsCount(docs: seq<Doc>, investmentType: string, n: nat)
    ensures var m := |MatchingHoldings(docs, investmentType)|;
            |KeptHoldings(docs, investmentType, n)| == if n < m then n else m
  {
    SortDescFacts(MatchingHoldings(docs, investmentType), HoldingRank, (u: Unwound) => 0);
  }

  /** The kept pairs are matching pairs, and none of the matching pairs left out ranks above a kept one. */
  lemma KeptHoldingsAreTop(docs: seq<Doc>, investmentType: string, n: nat)
    ensures var matching, kept := MatchingHoldings(docs, investmentType), KeptHoldings(docs, investmentType, n);
            && multiset(kept) <= multiset(matching)
            && forall x, y :: x in multiset(matching) - multiset(kept) && y in kept ==> RankLe(HoldingRank(x), HoldingRank(y))
  {
    TopKept(MatchingHoldings(docs, investmentType), HoldingRank, n);
  }

  /** The output rows come by holding value from the largest down. */
  lemma HoldingRowsOrdered(docs: seq<Doc>, investmentType: string, n: int)
    ensures HoldingsPipeline(docs, investmentType, n).Some? ==> NonIncreasing(HoldingsPipeline(docs, investmentType, n).value, RowRank)
  {
    if 0 < n < Int64Bound {
      var matching := MatchingHoldings(docs, investmentType);
      var sorted := SortDesc(matching, HoldingRank);
      var kept := KeptHoldings(docs, investmentType, n);
      var rows := HoldingsPipeline(docs, investmentType, n).value;
      SortDescFacts(matching, HoldingRank, (u: Unwound) => 0);
      forall i, j | 0 <= i < j < |rows| ensures RankLe(RowRank(rows[j]), RowRank(rows[i])) {
        RowRankIsHoldingRank(kept[i]);
        RowRankIsHoldingRank(kept[j]);
        assert kept[i] == sorted[i] && kept[j] == sorted[j];
      }
    }
  }

  /** The top-N pipeline: an error for a limit that is not positive or does not fit 64 bits;
      otherwise the projections of the kept pairs, one row per pair, in order. */
  lemma HoldingsPipelineFacts(docs: seq<Doc>, investmentType: string, n: int)
    ensures HoldingsPipeline(docs, investmentType, n).None? <==> n <= 0 || n >= Int64Bound
    ensures 0 < n < Int64Bound ==>
      var rows, kept := HoldingsPipeline(docs, investmentType, n).value, KeptHoldings(docs, investmentType, n);
      |rows| == |kept| && forall i :: 0 <= i < |rows| ==> rows[i] == HoldingRow(kept[i])
  {
  }

  // ---------------------------------------------------------------------------------------------
  // What every run promises

  /** With a usable store each tool answers with its query; the top-N tool's `$limit` refuses a
      limit that truncates to zero or below, and the driver one of 2^63 or more; both come back
      as the tool's failure message. */
  lemma MongoToolsAnswer(env: MongoEnv, clientName: string, profession: string, level: string, preference: string,
                         clientId: string, rmName: string, investmentType: string, limit: real)
    requires Usable(env)
    ensures ClientProfileByName(env, clientName).reply == Ok(ProfileByName(env.clients, clientName))
    ensures ClientsByProfession(env, profession).reply == Ok(ProfessionSummaries(env.clients, profession))
    ensures level in RiskLevels ==> ClientsByRiskAppetite(env, level).reply == Ok(RiskSummaries(env.clients, level))
    ensures ClientsByInvestmentPreference(env, preference).reply == Ok(PreferenceSummaries(env.clients, preference))
    ensures TopRelationshipManagers(env).reply == Ok(ManagerCounts(env.clients))
    ensures ClientProfileById(env, clientId).reply == Ok(ProfileById(env.clients, clientId))
    ensures ClientIdsByRelationshipManager(env, rmName).reply == Ok(ManagerClientIds(env.clients, rmName))
    ensures var n := TruncateTowardZero(limit);
            TopNClientsByInvestmentTypeValue(env, investmentType, limit).reply ==
              if n <= 0 || n >= Int64Bound then Err(QueryFailed(Mongo), Some(TopClientsFailure(investmentType)))
              else Ok(HoldingsPipeline(env.clients, investmentType, n).value)
  {
  }

  /** The tools called without `limit` use 5: a usable store gives the five largest holdings of the
      type, or all of them when fewer match. */
  lemma DefaultLimitKeepsFive(env: MongoEnv, investmentType: string)
    requires Usable(env)
    ensures var r, m := TopNClientsByInvestmentTypeValue(env, investmentType, DefaultLimit).reply, |MatchingHoldings(env.clients, investmentType)|;
            r.Ok? && |r.payload| == if m < 5 then m else 5
  {
    assert TruncateTowardZero(DefaultLimit) == 5;
    KeptHoldingsCount(env.clients, investmentType, 5);
  }

  /** Every run never touches MySQL and closes each client it receives; the one client left open is
      the one the helper made before raising. An unknown risk level is refused with no connection,
      and every listed level is accepted. */
  lemma MongoToolsCloseWhatTheyOpen(env: MongoEnv, clientName: string, profession: string, level: string, preference: string,
                                    clientId: string, rmName: string, investmentType: string, limit: real)
    ensures ClosesWhatItOpens(ClientProfileByName(env, clientName).log) <==> !LeavesClientOpen(env)
    ensures ClosesWhatItOpens(ClientsByProfession(env, profession).log) <==> !LeavesClientOpen(env)
    ensures ClosesWhatItOpens(ClientsByRiskAppetite(env, level).log) <==> level !in RiskLevels || !LeavesClientOpen(env)
    ensures ClosesWhatItOpens(ClientsByInvestmentPreference(env, preference).log) <==> !LeavesClientOpen(env)
    ensures ClosesWhatItOpens(TopRelationshipManagers(env).log) <==> !LeavesClientOpen(env)
    ensures ClosesWhatItOpens(ClientProfileById(env, clientId).log) <==> !LeavesClientOpen(env)
    ensures ClosesWhatItOpens(ClientIdsByRelationshipManager(env, rmName).log) <==> !LeavesClientOpen(env)
    ensures ClosesWhatItOpens(TopNClientsByInvestmentTypeValue(env, investmentType, limit).log) <==> !LeavesClientOpen(env)
    ensures ClientsByRiskAppetite(env, level) == Outcome(Err(InvalidRiskLevel, None), []) <==> level !in RiskLevels
  {
    SessionFacts(env, "Failed to retrieve client profile.", docs => Some(ProfileByName(docs, clientName)));
    SessionFacts(env, "Failed to retrieve clients by profession.", docs => Some(ProfessionSummaries(docs, profession)));
    SessionFacts(env, "Failed to retrieve clients by risk appetite.", docs => Some(RiskSummaries(docs, level)));
    SessionFacts(env, "Failed to retrieve clients by investment preference.", docs => Some(PreferenceSummaries(docs, preference)));
    SessionFacts(env, "Failed to retrieve top relationship managers.", docs => Some(ManagerCounts(docs)));
    SessionFacts(env, "Failed to retrieve client profile for ID " + clientId + ".", docs => Some(ProfileById(docs, clientId)));
    SessionFacts(env, "Failed to retrieve client IDs for RM " + rmName + ".", docs => Some(ManagerClientIds(docs, rmName)));
    SessionFacts(env, TopClientsFailure(investmentType), docs => HoldingsPipeline(docs, investmentType, TruncateTowardZero(limit)));
  }

  /** A missing MONGO_URI is reported with the tool's own failure message and no client made;
      a URI the driver rejects, or a missing or rejected database name, with the connection message. */
  lemma MongoConnectionFailuresReported(env: MongoEnv, clientName: string, rmName: string, investmentType: string, limit: real)
    ensures env.uri == "" ==>
      && ClientProfileByName(env, clientName) == Outcome(Err(MongoUriMissing, Some("Failed to retrieve client profile.")), [])
      && TopRelationshipManagers(env) == Outcome(Err(MongoUriMissing, Some("Failed to retrieve top relationship managers.")), [])
      && ClientIdsByRelationshipManager(env, rmName) == Outcome(Err(MongoUriMissing, Some("Failed to retrieve client IDs for RM " + rmName + ".")), [])
      && TopNClientsByInvestmentTypeValue(env, investmentType, limit) ==
           Outcome(Err(MongoUriMissing, Some(TopClientsFailure(investmentType))), [])
    ensures env.uri != "" && (!env.uriAccepted || !DbNameAccepted(env.dbName)) ==>
      && ClientProfileByName(env, clientName).reply == Err(MongoConnectFailed, Some(ConnectionFailedMessage))
      && TopRelationshipManagers(env).reply == Err(MongoConnectFailed, Some(ConnectionFailedMessage))
      && ClientIdsByRelationshipManager(env, rmName).reply == Err(MongoConnectFailed, Some(ConnectionFailedMessage))
      && TopNClientsByInvestmentTypeValue(env, investmentType, limit).reply == Err(MongoConnectFailed, Some(ConnectionFailedMessage))
  {
  }
}
