# NLCP-RAG-Agent query layer in Dafny

This project models the query layer of the NLCP-RAG-Agent wealth-management assistant.

- **Document-store tools.** Eight tools in `backend/mongodb_tools.py` read the `clients` collection:
  - profile by name;
  - clients by profession;
  - clients by risk appetite;
  - clients by investment preference;
  - the relationship-manager league table;
  - profile by id;
  - client ids by relationship manager;
  - the top-N holdings of one investment type.
- **Relational-store tools.** Four tools in `backend/mysql_tools.py` read the `client_portfolios` and `transactions` tables:
  - the top-N portfolios;
  - a relationship manager's total, which reads both stores;
  - a client's transactions;
  - the holders of a stock.
- **HTTP front.** The `/query` handler of `backend/api_server.py`, and the start-up and shut-down of the agent service.

## How the model is built

Each store is a snapshot value:
- `Stores.MongoEnv` holds the connection settings, whether the connection succeeds, and the documents.
- `Stores.MysqlEnv` holds the five settings, whether the port parses, whether the server answers, and the rows.

Every tool is a function from these snapshots and its arguments to an `Outcome`, which has two parts:
- the reply: the payload, or the `error`/`message` pair the tool's `except` clauses produce;
- a log of the connections the tool opened, queried and closed.

The log is what lets the model state which connections a tool leaves open and that a tool never touches the other store. As written, the one connection left open is a client that a Mongo helper made just before it raised: the tool never receives that client, so its `finally` cannot close it (see "## Findings").

Query operators each become a small definition:
- Regex filters are ASCII case-insensitive literal matches (`Text`).
- `$sort`/`ORDER BY ... DESC` is a stable insertion sort (`Ranking`).
- `$group`/`GROUP BY` is a fold into per-key totals (`Grouping`).
- `LIMIT`/`$limit` is `Seqs.Take`.
- Date bounds compare ISO-8601 text. `Dates.IsoOrderIsDateOrder` proves that this comparison agrees with calendar order.

Loops in the source are methods, each proved equal to the function that specifies it:
- the Decimal-to-float pass over the fetched portfolio rows;
- the date-rendering pass over fetched transactions;
- the Decimal summation;
- the chat-history conversion of the HTTP handler.

The query-string builder of the transactions tool, which appends to two lists step by step, is a method too.

The rendering passes work in place on an `array`, as the source mutates the fetched row dictionaries. The agent service is a class whose fields are the two module-level globals of the server, plus the list of tool clients it has closed.

Where the code's behaviour is not the obvious one, the model follows the code:
- MongoDB rejects a `$limit` of zero or less. The driver cannot encode one of 2^63 or more as a 64-bit integer and raises `OverflowError`. Either way the top-N holdings tool answers with its error object, not an empty list.
- A negative `LIMIT`, or one of 2^64 or more, is a MySQL syntax error. It reaches the top-N portfolios tool's database-error branch.
- A holding that is itself an array sorts by the largest `value_crores` among its sub-documents. Its projected `investment_type` and `holding_value_crores` are arrays of its sub-documents' values (`MongoTools.ArrayHoldingRanksByLargestValue`).
- A credential `ValueError` is not a `ConnectionError`, so each tool answers it with its generic failure message.
- Monetary totals leave the tools as floats: `float(...)` is applied before `json.dumps`. They are not decimal-precision numbers.
- A `client_id` may occur in several snapshot rows. The code does not enforce uniqueness, and neither does the model.
- The first `$match` of the holdings pipeline is not redundant. When a holding is itself an array, the second `$match` matches it element-wise, so such a holding survives only if its document passed the first stage (`MongoTools.MatchingHoldingsMembership`).

## Model

| member | source | states |
|---|---|---|
| Json.Project | backend/mongodb_tools.py:73 | an inclusion projection keeps exactly the requested fields the document has, with their values |
| Json.WithoutId | backend/mongodb_tools.py:168 | the `{"_id": 0}` projection drops `_id` and keeps every other field and value |
| Json.TruncateTowardZero | backend/mongodb_tools.py:215 | `int(limit)` truncates toward zero: the result is within one of the argument, on the side of zero |
| Text.WordMatchIsSubstringMatch | backend/mongodb_tools.py:69-72 | a `\b...\b` case-insensitive match is also a plain case-insensitive substring match |
| Text.WholeMatchIsSubstringMatch | backend/mysql_tools.py:107 | a `^...$` case-insensitive match is also a case-insensitive substring match |
| Text.ContainsIgnoresCase | backend/mongodb_tools.py:45 | the `$options: "i"` match is the same as matching the lower-cased texts |
| Ranking.SortDescFacts | backend/mongodb_tools.py:145 | the descending sort yields a non-increasing sequence that is a permutation of its input with the same total weight |
| Ranking.TopKept | backend/mysql_tools.py:72-73 | after sorting and truncating, the kept elements are drawn from the input, and every dropped element ranks no higher than every kept one |
| Grouping.GroupSumCorrect | backend/mysql_tools.py:204-207 | grouping gives one tally per key that occurs, none for a key that does not, and each tally's total is the sum of that key's quantities |
| Grouping.SortedGroupsStillGroups | backend/mysql_tools.py:207-208 | ordering the groups by total keeps them a correct grouping and makes them non-increasing |
| Dates.ParseIsoRoundTrip | backend/mysql_tools.py:181 | the ISO-8601 text that `isoformat()` renders for a valid date parses back to that date |
| Dates.IsoOrderIsDateOrder | backend/mysql_tools.py:164-172 | comparing two rendered dates as text agrees with calendar order |
| Stores.CollectionAttempt | backend/mongodb_tools.py:25-33 | the collection helper connects exactly when the URI is set and accepted and the database name is valid (non-empty without a forbidden character, or `$external`) |
| Stores.ExternalDbNameAccepted | backend/mongodb_tools.py:30 | the driver accepts the database name `$external` but rejects another name with a `$` |
| Stores.DatabaseAttempt | backend/mysql_tools.py:46-55 | the second Mongo helper checks both settings before making a client, and reports a missing one as missing credentials |
| Stores.MysqlAttempt | backend/mysql_tools.py:27-44 | the MySQL helper connects exactly when all five settings are set, the port is an integer and the server answers; the credential check comes first |
| Stores.RefusalLog | backend/mongodb_tools.py:25-33 | corrected helper: a client made before the helper raises is closed, so a refused attempt leaves nothing open |
| Stores.CollectionAttemptLeaksClient | backend/mongodb_tools.py:28-33 | as written, a set URI with an unset database name leaves an opened client that is never closed |
| Stores.QueryLogCloses | backend/mongodb_tools.py:54-56 | a session that connected and queried closes its connection |
| MongoTools.ClientIdsOfLaws | backend/mongodb_tools.py:194 | the id list comprehension is order-preserving and skips documents without `client_id` |
| MongoTools.SessionFacts | backend/mongodb_tools.py:25-56 | as written, a session closes what it opens exactly when the helper did not leave a client behind (URI set and accepted, database name unset or rejected); in that case its log is one open that is never closed. A session never touches MySQL. It succeeds exactly when the store is usable and the query succeeds, with the query's result. An unset URI gives the generic message and no client; a rejected URI or database name gives "MongoDB connection failed." |
| MongoTools.SessionCorrected | backend/mongodb_tools.py:25-33 | corrected helper: the same reply as the tool as written, and every run closes what it opens; only the leaking run's log changes, to an open followed by a close |
| MongoTools.ProfileByNameLeavesClientOpen | backend/mongodb_tools.py:28-56 | with MONGO_DB_NAME unset, get_client_profile_by_name answers with the connection message, and its log is one open that is never closed |
| MongoTools.ClientProfileByName | backend/mongodb_tools.py:36-56 | answers with a payload exactly when the store is usable, and never touches MySQL |
| MongoTools.ClientsByProfession | backend/mongodb_tools.py:60-83 | answers with a payload exactly when the store is usable, and never touches MySQL |
| MongoTools.ClientsByRiskAppetite | backend/mongodb_tools.py:87-110 | answers with a payload exactly when the level is High, Medium or Low and the store is usable, and never touches MySQL |
| MongoTools.ClientsByInvestmentPreference | backend/mongodb_tools.py:113-132 | answers with a payload exactly when the store is usable, and never touches MySQL |
| MongoTools.TopRelationshipManagers | backend/mongodb_tools.py:135-155 | answers with a payload exactly when the store is usable, and never touches MySQL |
| MongoTools.ClientProfileById | backend/mongodb_tools.py:159-180 | answers with a payload (a profile or the not-found message) exactly when the store is usable, and never touches MySQL |
| MongoTools.ClientIdsByRelationshipManager | backend/mongodb_tools.py:183-202 | answers with a payload exactly when the store is usable, and never touches MySQL |
| MongoTools.TopNClientsByInvestmentTypeValue | backend/mongodb_tools.py:206-259 | answers with a payload exactly when the store is usable and `int(limit)` is between 1 and 2^63 - 1, and never touches MySQL |
| MongoTools.ProfileByNameFirstMatch | backend/mongodb_tools.py:45-49 | the profile is `{}` exactly when no name matches, and otherwise is the first matching document without `_id` |
| MongoTools.ProfileByIdFirstMatch | backend/mongodb_tools.py:165-173 | "Client with ID ... not found." exactly when no document has the id, and otherwise the first such document without `_id` |
| MongoTools.ProfessionSummariesLaws | backend/mongodb_tools.py:69-75 | the result is, document by document in stored order, the projected summary of each whole-word name match |
| MongoTools.RiskSummariesLaws | backend/mongodb_tools.py:98-102 | the result is, document by document in stored order, the summary of each client with exactly that risk appetite |
| MongoTools.PreferenceSummariesLaws | backend/mongodb_tools.py:120-124 | the result is, document by document in stored order, the summary of each client with a matching preference |
| MongoTools.ManagerClientIdsLaws | backend/mongodb_tools.py:190-194 | the ids are those of the matching documents that have one, in stored order, and no more than the matching documents |
| MongoTools.ManagerClientIdsCons | backend/mongodb_tools.py:190-194 | one step of the id filter: the first document contributes its id when its manager matches and it has one |
| MongoTools.ManagerClientIdsMembership | backend/mongodb_tools.py:190-194 | an id is returned exactly when some client whose manager contains the name carries it |
| MongoTools.ProfessionMatchIsNameMatch | backend/mongodb_tools.py:45-72 | a name that holds the profession as a whole word also contains it as a substring |
| MongoTools.NoNameMatchNoProfession | backend/mongodb_tools.py:45-75 | when the profile search finds no name containing a word, the profession search finds nobody for that word |
| MongoTools.ManagerItemsFacts | backend/mongodb_tools.py:144 | the `$sum: 1` items of a manager add up to that manager's client count, and all of them to the number of clients |
| MongoTools.ManagerCountsCorrect | backend/mongodb_tools.py:143-147 | one row per manager that occurs and none for any other; each count is that manager's number of clients; counts sum to the collection size and are non-increasing |
| MongoTools.UnwindDocMembership | backend/mongodb_tools.py:224 | unwinding a document gives one pair per holding, in order, each pairing the whole document with that holding, and no other pair |
| MongoTools.UnwindMembership | backend/mongodb_tools.py:224 | unwinding the collection gives exactly the (document, holding) pairs of stored documents |
| MongoTools.MatchingHoldingsMembership | backend/mongodb_tools.py:217-230 | a holding survives both matches exactly when its type matches, and, for an array holding, when its document matched the first stage |
| MongoTools.ProjectedField | backend/mongodb_tools.py:243-244 | a `$holding.field` path gives a sub-document's field value exactly when it has the field; for an array holding, the array of the values collected from its elements, no longer than the holding; nothing for any other holding |
| MongoTools.FieldValues | backend/mongodb_tools.py:243-244 | the values collected from an array holding are no more than its elements, and each is the field of a sub-document element that has it |
| MongoTools.FieldValuesAppend | backend/mongodb_tools.py:243-244 | collecting over two runs of elements is collecting over each in turn, so the values keep their elements' order |
| MongoTools.FieldValuesComplete | backend/mongodb_tools.py:243-244 | every sub-document element that has the field contributes its value |
| MongoTools.MaxNumber | backend/mongodb_tools.py:232 | an array's descending sort key is at least each number in it, and when it is a number it is one of them |
| MongoTools.MaxKey | backend/mongodb_tools.py:232 | the key of an array of reached values is at least each value's key, and when it is a number it is the key of one of them |
| MongoTools.HoldingRow | backend/mongodb_tools.py:238-245 | a row has `client_id`, `name` and `risk_appetite` exactly when its document has them, with their values; `holding_value_crores` and `investment_type` exactly when their paths reach a value, which they hold; no other key, and never `_id` |
| MongoTools.ArrayHoldingRanksByLargestValue | backend/mongodb_tools.py:231-245 | an array holding `[{type: Equity, value_crores: 9}]` sorts at 9, above the holding worth 1, and its row's value is the array `[9]` |
| MongoTools.RowRankIsHoldingRank | backend/mongodb_tools.py:238-245 | the projected row carries the holding's value, so it ranks as the holding did |
| MongoTools.KeptHoldingsCount | backend/mongodb_tools.py:235 | `$limit n` keeps `n` holdings, or all when fewer match |
| MongoTools.KeptHoldingsAreTop | backend/mongodb_tools.py:231-236 | the kept holdings are drawn from the matching ones, and each dropped holding is worth no more than each kept one |
| MongoTools.HoldingRowsOrdered | backend/mongodb_tools.py:232 | whenever the pipeline runs, the returned rows are in non-increasing order of holding value |
| MongoTools.HoldingsPipelineFacts | backend/mongodb_tools.py:215-249 | the pipeline fails exactly when the truncated limit is not positive or is 2^63 or more; otherwise row `i` is the projection of the `i`-th kept holding |
| MongoTools.HoldingsPipeline | backend/mongodb_tools.py:215-249 | the pipeline runs exactly when the limit is between 1 and 2^63 - 1, and then returns at most that many rows |
| MongoTools.MongoToolsAnswer | backend/mongodb_tools.py:36-259 | with a usable store, each tool returns its query's result; the top-N tool returns its error object when the limit truncates to zero or less, or to 2^63 or more |
| MongoTools.DefaultLimitKeepsFive | backend/mongodb_tools.py:206-235 | called with the default limit 5.0 on a usable store, the top-N tool returns five rows, or every matching holding when fewer match |
| MongoTools.MongoToolsCloseWhatTheyOpen | backend/mongodb_tools.py:25-259 | as written, each document-store tool closes what it opens exactly when the helper did not leave a client behind (the risk tool also whenever it refuses the level); the risk tool rejects exactly the levels outside High, Medium and Low, before connecting |
| MongoTools.MongoConnectionFailuresReported | backend/mongodb_tools.py:25-33 | an unset URI gives the tool's generic failure message and no connection; a rejected URI or database name gives "MongoDB connection failed." |
| MysqlTools.ConvertDecimals | backend/mysql_tools.py:78-80 | the in-place pass turns every Decimal value into its float and leaves the other rows as they were |
| MysqlTools.TopNPortfolios | backend/mysql_tools.py:58-91 | answers with a payload exactly when MySQL connects and `int(limit)` is between 0 and 2^64 - 1, never with more rows than the table has, and never touches the document store |
| MysqlTools.GetTopNPortfolios | backend/mysql_tools.py:58-91 | the tool's code computes the top-N portfolios reply and its connection log |
| MysqlTools.AsFloatKeepsRow | backend/mysql_tools.py:79-80 | converting a value keeps the row's client and rank and leaves no Decimal |
| MysqlTools.TopPortfolioRowsAreTop | backend/mysql_tools.py:70-73 | the kept rows come from the table, and no dropped row is worth more than a kept one |
| MysqlTools.TopNPortfoliosFacts | backend/mysql_tools.py:64-88 | connected: an error exactly for a negative limit or one of 2^64 or more; otherwise `min(n, rows)` rows in non-increasing value order, each a kept row with its value converted |
| MysqlTools.DefaultLimitTopFive | backend/mysql_tools.py:58-82 | called with the default limit 5.0 and connected, the tool returns five rows, or every row when the table has fewer |
| MysqlTools.SumDecimals | backend/mysql_tools.py:132-135 | the accumulation loop adds exactly the Decimal values of the fetched rows |
| MysqlTools.PortfolioValuesByRelationshipManager | backend/mysql_tools.py:95-150 | answers with a payload exactly when Mongo connects and answers and either no client matches or MySQL connects; the payload names the requested manager; a refused Mongo attempt never touches MySQL |
| MysqlTools.GetPortfolioValuesByRelationshipManager | backend/mysql_tools.py:95-150 | the tool's code computes the relationship-manager total's reply and its connection log |
| MysqlTools.DecimalSumAppend | backend/mysql_tools.py:132-135 | the running total of two row batches is the sum of their totals |
| MysqlTools.DecimalSumLaws | backend/mysql_tools.py:133-135 | a row contributes its value when it is a Decimal, and nothing when it is NULL |
| MysqlTools.IdSetDecidesTotal | backend/mysql_tools.py:123-129 | the `IN (...)` total depends only on the set of candidate ids, not their order or repetition |
| MysqlTools.UnknownIdContributesNothing | backend/mysql_tools.py:123-130 | an id with no portfolio row adds nothing to the total |
| MysqlTools.CandidateIdsCons | backend/mysql_tools.py:106-110 | one step of the exact-name filter: the first document contributes its id when its manager matches the whole name and it has one |
| MysqlTools.CandidateIdsMembership | backend/mysql_tools.py:106-110 | an id is a candidate exactly when some document with a whole-name manager match carries it |
| MysqlTools.WholeManagerMatchIsSubstringMatch | backend/mysql_tools.py:107 | a manager equal to the name ignoring case also contains it |
| MysqlTools.CandidatesAreManagerIds | backend/mysql_tools.py:106-110 | every candidate id of this tool is also returned by get_client_ids_by_relationship_manager for the same name |
| MysqlTools.NoCandidatesShortCircuit | backend/mysql_tools.py:112-117 | when no client matches, the reply is total 0.0 with the "No clients found" message and MySQL is never contacted |
| MysqlTools.CandidatesAskMysql | backend/mysql_tools.py:120-140 | with candidates, a connected MySQL gives the Decimal total of the candidates' rows, and a refused one gives its fault |
| MysqlTools.RmClosesWhatItOpens | backend/mysql_tools.py:46-150 | as written, the two-store tool closes every connection it opens, MySQL before Mongo, exactly when `_get_mongodb_connection` did not make a client before raising; in that case its log is one open that is never closed |
| MysqlTools.RmCorrected | backend/mysql_tools.py:46-55 | corrected helper: the same reply as the tool as written, and every run closes what it opens |
| MysqlTools.RmLeavesClientOpenExample | backend/mysql_tools.py:50-55 | with MONGO_DB_NAME set to `a.b`, the tool answers with the connection message and its log is one open that is never closed |
| MysqlTools.RmMongoCredentialsChecked | backend/mysql_tools.py:48-49 | an unset Mongo URI or database name is reported as missing credentials before any connection |
| MysqlTools.BuildTxQuery | backend/mysql_tools.py:161-174 | the query builder emits the clauses and parameters of the specified transactions query |
| MysqlTools.TxQuery | backend/mysql_tools.py:161-174 | the query starts with the client condition and its id, and has one parameter per placeholder |
| MysqlTools.TxQueryMeaning | backend/mysql_tools.py:161-176 | there is one parameter per placeholder, and a row satisfies the `WHERE` exactly when it is the client's and within the given bounds |
| MysqlTools.BoundsAreDateOrder | backend/mysql_tools.py:164-172 | for ISO bounds, `BETWEEN`, `>=` and `<=` on a date column are calendar-order comparisons |
| MysqlTools.RenderedKeepsDate | backend/mysql_tools.py:180-181 | rendering a date keeps the row's client, the date it denotes and its rank, and leaves no date object |
| MysqlTools.RenderDates | backend/mysql_tools.py:179-181 | the in-place pass renders every date cell as ISO text and leaves the other rows as they were |
| MysqlTools.ClientTransactions | backend/mysql_tools.py:154-190 | answers with a payload exactly when MySQL connects, never with more rows than the table has, and never touches the document store |
| MysqlTools.GetClientTransactions | backend/mysql_tools.py:154-190 | the tool's code computes the transactions reply and its connection log |
| MysqlTools.FetchedTransactionsFacts | backend/mysql_tools.py:174-177 | the fetched rows are exactly the table's rows of that client within the bounds, each as many times as it is stored, in non-increasing date order |
| MysqlTools.ClientTransactionsFacts | backend/mysql_tools.py:176-183 | connected: every fetched row is returned, in order, with its date rendered, the right client and a date within the bounds |
| MysqlTools.HoldersCorrect | backend/mysql_tools.py:203-208 | the holders are the per-(client, symbol) totals of buy rows of that symbol, ignoring case, ordered by total descending |
| MysqlTools.StockHolders | backend/mysql_tools.py:198-219 | corrected tool: it answers with a payload exactly when MySQL connects |
| MysqlTools.StockHoldersAsWritten | backend/mysql_tools.py:193-219 | as written, any payload the tool gives is the empty list; it never touches the document store |
| MysqlTools.StockHoldersFacts | backend/mysql_tools.py:203-212 | corrected, a connected run returns the holders: a correct grouping of the matching buy rows, largest total first, each of the requested symbol |
| MysqlTools.StockHoldersAsWrittenFails | backend/mysql_tools.py:210-216 | as written, the tool succeeds only when there are no holders; otherwise it returns the Decimal serialisation error |
| MysqlTools.StockHoldersCounterexample | backend/mysql_tools.py:204-212 | one buy of 10 AAPL by C1: as written the tool answers with an error, corrected it answers C1 with 10 |
| MysqlTools.MysqlCredentialsMissingReported | backend/mysql_tools.py:29-30 | a missing MySQL setting is reported by every MySQL tool, the holders tool as written included, with its generic message and no MySQL connection |
| MysqlTools.MysqlToolsCloseWhatTheyOpen | backend/mysql_tools.py:89-91 | the single-store MySQL tools close what they open and never touch the document store |
| MysqlTools.AshaMatches | backend/mysql_tools.py:107 | "Asha", "ASHA" and "Asha Jr" all contain "asha", but only the first two match it as a whole name |
| MysqlTools.AshaSubstringIds | backend/mongodb_tools.py:190-194 | the substring match finds all three clients |
| MysqlTools.AshaCandidates | backend/mysql_tools.py:106-110 | the whole-name match finds only C1 and C2 |
| MysqlTools.AshaTotal | backend/mysql_tools.py:123-135 | C2 has no portfolio row, so the total for C1 and C2 is C1's 10.5 |
| MysqlTools.AshaScenario | backend/mysql_tools.py:106-135 | the two id tools disagree on "asha", and the total counts only the whole-name matches |
| ApiServer.FormatHistory | backend/api_server.py:104-111 | the loop builds exactly the specified messages, and fails exactly when some entry would make it raise |
| ApiServer.FormattedHistory | backend/api_server.py:104-111 | a history that converts yields at most one message per entry, and an empty history yields none |
| ApiServer.HistoryEntries | backend/api_server.py:94-105 | a list yields its items; an empty string or object yields no entries; iterating a non-empty string or object makes the loop raise, and null, a boolean or a number is not iterable |
| ApiServer.FormattedHistoryAppend | backend/api_server.py:104-111 | converting a history is compositional: both halves must convert, and their messages are concatenated in order |
| ApiServer.FormattedHistorySingle | backend/api_server.py:106-111 | a human or ai entry becomes one message of that role with its content or ""; another object is skipped; a non-object fails |
| ApiServer.FormattedHistoryRoles | backend/api_server.py:108-111 | one message per chat entry, each with the role and content of an entry of the history |
| ApiServer.QueryStatuses | backend/api_server.py:79-137 | every answer is 200, 400, 500 or 503, and 200 is exactly a `response` body |
| ApiServer.NotReadyRefusesEverything | backend/api_server.py:79-83 | without an executor every request gets the same 503, whatever its body and whatever the agent |
| ApiServer.BadRequestsRejected | backend/api_server.py:85-100 | an undecodable body, or an object without a truthy `message`, gets its 400 and never reaches the agent |
| ApiServer.AgentSeesMessageAndHistory | backend/api_server.py:113-116 | a request that passes the guards is answered from the agent's run on its message and converted history alone |
| ApiServer.MissingHistoryIsEmpty | backend/api_server.py:94 | a request without `chat_history` reaches the agent with an empty history |
| ApiServer.AgentReplyFallback | backend/api_server.py:118-137 | an agent failure or a non-string output is a 500; a string output is a 200, decoded if it is JSON and raw otherwise; a missing `output` falls back to the result's string form |
| ApiServer.AgentReply | backend/api_server.py:113-137 | after the agent ran the status is 200 or 500, 200 exactly with a `response` body; an agent failure is a 500 |
| ApiServer.QueryResponse | backend/api_server.py:75-137 | the answer is 503 exactly when the agent is not ready, and every 400 carries an error body |
| ApiServer.AgentService.constructor | backend/api_server.py:15-16 | the service starts with neither an executor nor a client |
| ApiServer.AgentService.Startup | backend/api_server.py:27-40 | start-up succeeds exactly when both objects are returned; on any failure both globals are reset to none and the lifespan re-raises, so the server serves no request |
| ApiServer.AgentService.Shutdown | backend/api_server.py:44-49 | shut-down closes the tool client when there is one, and only then |
| ApiServer.AgentService.HandleQuery | backend/api_server.py:75-137 | the handler answers as specified on the service's current readiness |
| ApiServer.StartedServiceClosesClient | backend/api_server.py:44-46 | a started service closes its client at shut-down |

## Left out

- MongoTools.MongoToolsAnswer: stored documents hold only JSON values (`Json.Value`). BSON datetimes, ObjectIds other than `_id` and Decimal128 values are not representable, so the `TypeError` that `json.dumps` raises on them (mongodb_tools.py:47, :171, :250), which ends in a tool's generic error branch, is not modelled. The promise of an `Ok` answer on a usable store holds for JSON-valued documents only.
- I/O is abstract. The environment variables, the database drivers, the network and the `json.dumps` formatting (indentation, key order) are not modelled. The stores are snapshot values and the replies are structured values.
- Regex metacharacters are not modelled. A user-supplied pattern is matched as a literal, ASCII case-insensitively. Unicode case folding is not modelled either.
- Collation is not modelled. `GROUP BY`, the `client_id` comparisons and `transaction_type = 'buy'` compare strings exactly. MySQL's default collation is case- and trailing-space-insensitive.
- The order among equal sort keys is not modelled. The model's stable sort is one admissible order; neither MongoDB nor MySQL promises one.
- Cross-type sort order is not modelled. BSON's ordering of non-numeric sort keys (strings, missing fields) is lumped together below every number.
- MongoTools.HoldingRank: array values are looked into two levels deep (an array holding, and an array `value_crores` inside it). Deeper nesting is not modelled, and an array nested in a projected array is dropped by `MongoTools.FieldValues` rather than kept.
- Callers that omit `limit` are modelled by passing `Stores.DefaultLimit` (5.0). The framework's filling of default arguments is not part of this model.
- An unclosed Mongo client is only recorded in the log. Its eventual collection by the Python runtime is not modelled.
- Driver error texts are not modelled. For a failure raised inside a driver, only the fixed parts of the reply are modelled (`QueryFailed` carries no text).
- MySQL's lenient parsing of non-ISO date bounds is not modelled. A bound is compared as text with the rendered date.
- Non-string ids inside `IN (...)` are not modelled: they never equal a string `client_id` in the model. A `NULL` quantity in the holders query is not representable.
- Floating point is not modelled. `float(...)` conversions are exact reals. A NaN or infinite `limit` (which makes `int(...)` raise) is not representable.
- `float(limit)` arguments of the two top-N tools are modelled only through `int(limit)`. The framework's argument coercion is not part of this model.
- `rag_agent.py`, the agent's reasoning loop, the tool registry and the frontend are not part of this model. The agent and the JSON decoder are parameters of the handler.
- FastAPI plumbing is not modelled beyond the status and body of each answer: CORS, the request body's UTF-8 decoding, the `__main__` block, and logging.
- Only the identity of the executor and the client is modelled. Their truthiness is taken to be "present".
- ApiServer.AgentReplyFallback: the 500 message is modelled by its fixed prefix only; the exception text that follows it is not.
- ApiServer.ValidContent: the message classes' content check is taken to accept a string or a list of strings and objects. That validation is library code, not part of this model.
- MongoTools.ProfessionSummariesLaws, MongoTools.RiskSummariesLaws, MongoTools.PreferenceSummariesLaws: these state the per-document behaviour and its order. They do not separately restate the projected key sets, which `Json.Project` states.
- MongoTools.ManagerCountsCorrect: the `_id` of a manager group with no `relationship_manager` field is modelled as `Null`, the way MongoDB groups missing fields.

## Findings

| source | as written | input that shows it | evidently intended | confidence | as-written member | corrected member |
|---|---|---|---|---|---|---|
| backend/mongodb_tools.py:25-33 | `MongoClient(uri)` succeeds, then `client[MONGO_DB_NAME]` raises for an unset or invalid name; the helper raises, the tool never receives the client, and its `finally` has nothing to close | `MONGO_URI="mongodb://db"`, `MONGO_DB_NAME` unset | a client the helper made is closed before it raises | not executed | MongoTools.ProfileByNameLeavesClientOpen | MongoTools.SessionCorrected |
| backend/mysql_tools.py:50-55 | the same in `_get_mongodb_connection`: `client[MONGO_DB_NAME]` raises after the client exists, and `mongo_client` is never assigned, so the `finally` does not close it | `MONGO_URI="mongodb://db"`, `MONGO_DB_NAME="a.b"` | a client the helper made is closed before it raises | not executed | MysqlTools.RmLeavesClientOpenExample | MysqlTools.RmCorrected |
| backend/mysql_tools.py:204-212 | `SUM(quantity)` over an integer column is a `DECIMAL` in MySQL, and the rows go to `json.dumps` without conversion, so any non-empty result raises "Object of type Decimal is not JSON serializable" and the tool answers with its error object | one `buy` row of 10 `AAPL` for client `C1` | the totals are converted, as `get_top_n_portfolios` does, and the holders are returned | not executed | MysqlTools.StockHoldersCounterexample | MysqlTools.StockHolders |
