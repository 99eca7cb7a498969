/** The HTTP front of the agent: the service object that the server's lifespan starts and stops,
    and the `/query` handler with its request guards, its chat-history conversion and its
    fallback for agent output that is not JSON. The agent itself and the JSON decoder are
    parameters: they are not part of this model. */
module ApiServer {
  import opened Json
  import opened Seqs

  /** An opaque object made by the agent initialiser (the executor or the tool client). */
  datatype Handle = Handle(id: nat)

  /** How `initialize_rag_agent_with_mcp()` ended: it raised, or it returned its pair, either
      half of which may be missing. */
  datatype Init = InitRaised | InitReturned(executor: Option<Handle>, client: Option<Handle>)

  datatype Role = Human | Ai

  /** A typed chat message (`HumanMessage` / `AIMessage`) with its content as sent. */
  datatype Message = Message(role: Role, content: Value)

  /** How `agent_executor.ainvoke(...)` ended: it raised, or it returned its result dictionary,
      of which only the `output` entry (when present) and the dictionary's `str(...)` matter. */
  datatype AgentRun = AgentRaised | AgentReturned(output: Option<Value>, repr: string)

  /** A response body: `{"error": ...}`, `{"response": ...}`, or the framework's own plain
      "Internal Server Error" page for an exception the handler does not catch. */
  datatype Body = ErrorBody(error: string) | ResponseBody(response: Value) | InternalServerError

  datatype HttpResponse = HttpResponse(status: int, body: Body)

  const NotInitialisedMessage := "NLCP_RAG_AGENT is not initialized. Please check server startup logs."
  const InvalidJsonMessage := "Invalid JSON format in request body."
  const NoMessageMessage := "No 'message' provided in the request body."
  /** The fixed head of `f"An internal server error occurred: {e}"`; the exception text is not modelled. */
  const InternalErrorPrefix := "An internal server error occurred: "

  // ---------------------------------------------------------------------------------------
  // Chat history

  function Field(v: Value, name: string): Value
    requires v.Obj?
  {
    if name in v.fields then v.fields[name] else Null
  }

  /** `msg_data.get("content", "")`: a missing content is the empty string. */
  function ContentOf(v: Value): Value
    requires v.Obj?
  {
    if "content" in v.fields then v.fields["content"] else Str("")
  }

  /** A history entry that becomes a message: an object whose `type` is "human" or "ai". */
  predicate IsChatEntry(v: Value)
  {
    v.Obj? && Field(v, "type") in {Str("human"), Str("ai")}
  }

  /** A content the message classes accept: a string, or a list of strings and objects. */
  predicate ValidContent(c: Value)
  {
    c.Str? || (c.Arr? && forall i :: 0 <= i < |c.items| ==> c.items[i].Str? || c.items[i].Obj?)
  }

  /** An entry the conversion loop gets past: it must be an object (it is asked `.get`), and a
      chat entry must carry a content its message class accepts. */
  predicate EntryOk(v: Value)
  {
    v.Obj? && (IsChatEntry(v) ==> ValidContent(ContentOf(v)))
  }

  function ToMessage(v: Value): Message
  {
    if v.Obj? && Field(v, "type") == Str("human") then Message(Human, ContentOf(v))
    else if v.Obj? then Message(Ai, ContentOf(v))
    else Message(Ai, Str(""))
  }

  /** The messages the loop builds: `None` when some entry makes it raise (the request then ends
      in an uncaught exception); otherwise the chat entries, converted, in their order. */
  function FormattedHistory(entries: seq<Value>): (r: Option<seq<Message>>)
    ensures r.Some? ==> |r.value| <= |entries|
    ensures entries == [] ==> r == Some([])
  {
    if forall i :: 0 <= i < |entries| ==> EntryOk(entries[i])
    then Some(Map(ToMessage, Select(entries, IsChatEntry)))
    else None
  }

  /** What `for msg_data in chat_history_data` iterates. A list gives its items; an empty string
      or object gives nothing; a non-empty string or object gives strings, whose `.get` raises;
      null, a boolean or a number is not iterable. `None` is "raises before any message is made". */
  function HistoryEntries(h: Value): (r: Option<seq<Value>>)
    ensures r.Some? && r.value != [] ==> h.Arr? && r.value == h.items
    ensures h.Arr? ==> r == Some(h.items)
    ensures h.Str? ==> r == (if h.s == "" then Some([]) else None)
    ensures h.Obj? ==> r == (if h.fields == map[] then Some([]) else None)
    ensures h.Null? || h.Bool? || h.Num? ==> r.None?
  {
    match h
    case Arr(items) => Some(items)
    case Str(s) => if s == "" then Some([]) else None
    case Obj(fields) => if fields == map[] then Some([]) else None
    case _ => None
  }

  /** The conversion loop of `handle_agent_query_fastapi`. */
  method FormatHistory(entries: seq<Value>) returns (r: Option<seq<Message>>)
    ensures r == FormattedHistory(entries)
  {
    var out: seq<Message> := [];
    for i := 0 to |entries|
      invariant forall j :: 0 <= j < i ==> EntryOk(entries[j])
      invariant out == Map(ToMessage, Select(entries[..i], IsChatEntry))
    {
      var e := entries[i];
      SelectAppend(entries[..i], [e], IsChatEntry);
      SelectSingleton(e, IsChatEntry);
      assert entries[..i + 1] == entries[..i] + [e];
      if !e.Obj? {
        return None;
      }
      var kind := if "type" in e.fields then e.fields["type"] else Null;
      var content := if "content" in e.fields then e.fields["content"] else Str("");
      if kind == Str("human") || kind == Str("ai") {
        if !ValidContent(content) {
          return None;
        }
        MapAppend(ToMessage, Select(entries[..i], IsChatEntry), [e]);
        var role := if kind == Str("human") then Human else Ai;
        out := out + [Message(role, content)];
      }
    }
    assert entries[..|entries|] == entries;
    return Some(out);
  }

  /** The conversion is compositional: a history converts when both of its parts do, to the
      messages of the first part followed by those of the second. */
  lemma FormattedHistoryAppend(a: seq<Value>, b: seq<Value>)
    ensures FormattedHistory(a + b) ==
      if FormattedHistory(a).Some? && FormattedHistory(b).Some?
      then Some(FormattedHistory(a).value + FormattedHistory(b).value)
      else None
  {
    SelectAppend(a, b, IsChatEntry);
    MapAppend(ToMessage, Select(a, IsChatEntry), Select(b, IsChatEntry));
    if forall i :: 0 <= i < |a + b| ==> EntryOk((a + b)[i]) {
      forall i | 0 <= i < |a|
        ensures EntryOk(a[i])
      {
        assert (a + b)[i] == a[i];
      }
      forall i | 0 <= i < |b|
        ensures EntryOk(b[i])
      {
        assert (a + b)[|a| + i] == b[i];
      }
    } else {
      var k :| 0 <= k < |a + b| && !EntryOk((a + b)[k]);
      if k < |a| {
        assert (a + b)[k] == a[k];
      } else {
        assert (a + b)[k] == b[k - |a|];
      }
    }
  }

  /** One entry: a human or ai object becomes one message whose content is the given content
      or "" (when the class accepts it), any other object is skipped, and anything else fails. */
  lemma FormattedHistorySingle(e: Value)
    ensures !e.Obj? ==> FormattedHistory([e]) == None
    ensures e.Obj? && !IsChatEntry(e) ==> FormattedHistory([e]) == Some([])
    ensures e.Obj? && IsChatEntry(e) ==>
      FormattedHistory([e]) ==
        if !ValidContent(ContentOf(e)) then None
        else Some([Message(if Field(e, "type") == Str("human") then Human else Ai,
                           if "content" in e.fields then e.fields["content"] else Str(""))])
  {
    SelectSingleton(e, IsChatEntry);
    assert Map(ToMessage, [e]) == [ToMessage(e)];
    assert (forall i :: 0 <= i < |[e]| ==> EntryOk([e][i])) <==> EntryOk(e);
  }

  /** A history that converts yields one message per chat entry, and each message's role is
      the role its entry names. */
  lemma FormattedHistoryRoles(entries: seq<Value>)
    requires FormattedHistory(entries).Some?
    ensures |FormattedHistory(entries).value| == |Select(entries, IsChatEntry)|
    ensures forall m :: m in FormattedHistory(entries).value ==>
      (exists e :: e in entries && IsChatEntry(e) &&
         m.content == ContentOf(e) && (m.role == Human <==> Field(e, "type") == Str("human")))
  {
    var chat := Select(entries, IsChatEntry);
    var ms := FormattedHistory(entries).value;
    forall m | m in ms
      ensures (exists e :: e in entries && IsChatEntry(e) &&
                 m.content == ContentOf(e) && (m.role == Human <==> Field(e, "type") == Str("human")))
    {
      var k :| 0 <= k < |ms| && ms[k] == m;
      SelectMembership(entries, IsChatEntry, chat[k]);
      assert ms[k] == ToMessage(chat[k]);
    }
  }

  // ---------------------------------------------------------------------------------------
  // The /query handler

  /** After the agent ran: its `output` entry, or the string form of its result when there is
      none; a string that decodes is answered decoded, any other string as it is; a value that is
      not a string makes `json.loads` raise, which the handler answers with its 500 message. */
  function AgentReply(run: AgentRun, parseJson: string -> Option<Value>): (resp: HttpResponse)
    ensures resp.status in {200, 500}
    ensures resp.status == 200 <==> resp.body.ResponseBody?
    ensures run.AgentRaised? ==> resp.status == 500
  {
    match run
    case AgentRaised => HttpResponse(500, ErrorBody(InternalErrorPrefix))
    case AgentReturned(output, repr) =>
      var out := if output.Some? then output.value else Str(repr);
      if !out.Str? then HttpResponse(500, ErrorBody(InternalErrorPrefix))
      else match parseJson(out.s)
        case Some(v) => HttpResponse(200, ResponseBody(v))
        case None => HttpResponse(200, ResponseBody(out))
  }

  /** `handle_agent_query_fastapi` on a request body, given whether the agent is ready, the JSON
      decoder and the agent. A decoded body that is not an object has no `.get`, and a history
      that does not convert makes the loop raise: both end in the framework's 500 page. */
  function QueryResponse(ready: bool, body: string, parseJson: string -> Option<Value>,
                         agent: (Value, seq<Message>) -> AgentRun): (resp: HttpResponse)
    ensures resp.status == 503 <==> !ready
    ensures resp.status == 400 ==> resp.body.ErrorBody?
  {
    if !ready then HttpResponse(503, ErrorBody(NotInitialisedMessage))
    else match parseJson(body)
      case None => HttpResponse(400, ErrorBody(InvalidJsonMessage))
      case Some(data) =>
        if !data.Obj? then HttpResponse(500, InternalServerError)
        else
          var message := Field(data, "message");
          if !Truthy(message) then HttpResponse(400, ErrorBody(NoMessageMessage))
          else
            var history := if "chat_history" in data.fields then data.fields["chat_history"] else Arr([]);
            match HistoryEntries(history)
            case None => HttpResponse(500, InternalServerError)
            case Some(entries) =>
              match FormattedHistory(entries)
              case None => HttpResponse(500, InternalServerError)
              case Some(ms) => AgentReply(agent(message, ms), parseJson)
  }

  /** The answer is always one of the four statuses the handler and the framework produce. */
  lemma QueryStatuses(ready: bool, body: string, parseJson: string -> Option<Value>,
                      agent: (Value, seq<Message>) -> AgentRun)
    ensures QueryResponse(ready, body, parseJson, agent).status in {200, 400, 500, 503}
    ensures QueryResponse(ready, body, parseJson, agent).status == 200 <==>
      QueryResponse(ready, body, parseJson, agent).body.ResponseBody?
  {
  }

  /** Before the agent is ready every request gets 503, whatever its body: the body is not read
      and the agent is not called. */
  lemma NotReadyRefusesEverything(body: string, body': string,
                                  parseJson: string -> Option<Value>, parseJson': string -> Option<Value>,
                                  agent: (Value, seq<Message>) -> AgentRun, agent': (Value, seq<Message>) -> AgentRun)
    ensures QueryResponse(false, body, parseJson, agent) == QueryResponse(false, body', parseJson', agent')
    ensures QueryResponse(false, body, parseJson, agent) == HttpResponse(503, ErrorBody(NotInitialisedMessage))
  {
  }

  /** The request guards: a body that does not decode, and a decoded object whose `message` is
      missing or falsy, are answered 400 without calling the agent, whatever the history. */
  lemma BadRequestsRejected(body: string, parseJson: string -> Option<Value>,
                            agent: (Value, seq<Message>) -> AgentRun, agent': (Value, seq<Message>) -> AgentRun)
    ensures parseJson(body).None? ==>
      QueryResponse(true, body, parseJson, agent) == HttpResponse(400, ErrorBody(InvalidJsonMessage))
    ensures parseJson(body).Some? && parseJson(body).value.Obj? && !Truthy(Field(parseJson(body).value, "message")) ==>
      QueryResponse(true, body, parseJson, agent) == HttpResponse(400, ErrorBody(NoMessageMessage))
    ensures QueryResponse(true, body, parseJson, agent).status == 400 ==>
      QueryResponse(true, body, parseJson, agent) == QueryResponse(true, body, parseJson, agent')
  {
  }

  /** A request that passes the guards and whose history converts reaches the agent with its
      message and the converted history, and nothing else about the agent matters. */
  lemma AgentSeesMessageAndHistory(body: string, parseJson: string -> Option<Value>,
                                   agent: (Value, seq<Message>) -> AgentRun, agent': (Value, seq<Message>) -> AgentRun,
                                   ms: seq<Message>)
    requires parseJson(body).Some? && parseJson(body).value.Obj?
    requires Truthy(Field(parseJson(body).value, "message"))
    requires var data := parseJson(body).value;
             HistoryEntries(if "chat_history" in data.fields then data.fields["chat_history"] else Arr([])).Some?
    requires var data := parseJson(body).value;
             var entries := HistoryEntries(if "chat_history" in data.fields then data.fields["chat_history"] else Arr([])).value;
             FormattedHistory(entries) == Some(ms)
    requires agent(Field(parseJson(body).value, "message"), ms) == agent'(Field(parseJson(body).value, "message"), ms)
    ensures QueryResponse(true, body, parseJson, agent) == QueryResponse(true, body, parseJson, agent')
    ensures QueryResponse(true, body, parseJson, agent) == AgentReply(agent(Field(parseJson(body).value, "message"), ms), parseJson)
  {
  }

  /** A request without `chat_history` reaches the agent with an empty history. */
  lemma MissingHistoryIsEmpty(body: string, parseJson: string -> Option<Value>,
                              agent: (Value, seq<Message>) -> AgentRun)
    requires parseJson(body).Some? && parseJson(body).value.Obj?
    requires Truthy(Field(parseJson(body).value, "message"))
    requires "chat_history" !in parseJson(body).value.fields
    ensures QueryResponse(true, body, parseJson, agent) == AgentReply(agent(Field(parseJson(body).value, "message"), []), parseJson)
  {
    assert FormattedHistory([]) == Some([]);
  }

  /** The output fallback: an agent failure, or an output that is not a string, is a 500 with
      the handler's message; a string output is answered 200, decoded when it is JSON and as
      the raw string otherwise; without an `output` entry the result's string form is used. */
  lemma AgentReplyFallback(run: AgentRun, parseJson: string -> Option<Value>)
    ensures run.AgentRaised? ==> AgentReply(run, parseJson) == HttpResponse(500, ErrorBody(InternalErrorPrefix))
    ensures run.AgentReturned? && run.output.Some? && !run.output.value.Str? ==>
      AgentReply(run, parseJson) == HttpResponse(500, ErrorBody(InternalErrorPrefix))
    ensures run.AgentReturned? && run.output.Some? && run.output.value.Str? ==>
      var s := run.output.value.s;
      AgentReply(run, parseJson) ==
        HttpResponse(200, ResponseBody(if parseJson(s).Some? then parseJson(s).value else Str(s)))
    ensures run.AgentReturned? && run.output.None? ==>
      AgentReply(run, parseJson) ==
        HttpResponse(200, ResponseBody(if parseJson(run.repr).Some? then parseJson(run.repr).value else Str(run.repr)))
  {
  }

  // ---------------------------------------------------------------------------------------
  // The service object: what the lifespan handler sets up and tears down

  class AgentService {
    var executor: Option<Handle>
    var client: Option<Handle>
    /** The tool clients closed so far, in order. */
    var closedClients: seq<Handle>

    /** The service holds both objects or neither. */
    predicate Valid()
      reads this
    {
      executor.Some? <==> client.Some?
    }

    /** Requests are served only once an executor is in place. */
    predicate Ready()
      reads this
    {
      executor.Some?
    }

    /** The module-level globals before startup. */
    constructor ()
      ensures Valid() && !Ready()
      ensures executor == None && client == None && closedClients == []
    {
      executor := None;
      client := None;
      closedClients := [];
    }

    /** Startup: the service starts exactly when the initialiser returned both objects; in every
        other case both are reset to none and the lifespan re-raises, so `started == false` means
        the server stops there: it serves no request and runs no shutdown. */
    method Startup(init: Init) returns (started: bool)
      modifies this
      ensures started <==> init.InitReturned? && init.executor.Some? && init.client.Some?
      ensures started ==> executor == init.executor && client == init.client
      ensures !started ==> executor == None && client == None
      ensures closedClients == old(closedClients)
      ensures Valid() && (Ready() <==> started)
    {
      match init {
        case InitRaised =>
          executor, client := None, None;
          started := false;
        case InitReturned(e, c) =>
          executor, client := e, c;
          if executor.Some? && client.Some? {
            started := true;
          } else {
            executor, client := None, None;
            started := false;
          }
      }
    }

    /** Shutdown: the tool client is closed when there is one, and only then. */
    method Shutdown()
      modifies this
      ensures closedClients == old(closedClients) + (if old(client).Some? then [old(client).value] else [])
      ensures executor == old(executor) && client == old(client)
      ensures Valid() <==> old(Valid())
    {
      if client.Some? {
        closedClients := closedClients + [client.value];
      }
    }

    /** The `/query` handler on this service's state. */
    method HandleQuery(body: string, parseJson: string -> Option<Value>,
                       agent: (Value, seq<Message>) -> AgentRun) returns (resp: HttpResponse)
      requires Valid()
      ensures resp == QueryResponse(Ready(), body, parseJson, agent)
    {
      if executor.None? {
        return HttpResponse(503, ErrorBody(NotInitialisedMessage));
      }
      var decoded := parseJson(body);
      if decoded.None? {
        return HttpResponse(400, ErrorBody(InvalidJsonMessage));
      }
      var data := decoded.value;
      if !data.Obj? {
        return HttpResponse(500, InternalServerError);
      }
      var message := if "message" in data.fields then data.fields["message"] else Null;
      var history := if "chat_history" in data.fields then data.fields["chat_history"] else Arr([]);
      if !Truthy(message) {
        return HttpResponse(400, ErrorBody(NoMessageMessage));
      }
      var entries := HistoryEntries(history);
      if entries.None? {
        return HttpResponse(500, InternalServerError);
      }
      var formatted := FormatHistory(entries.value);
      if formatted.None? {
        return HttpResponse(500, InternalServerError);
      }
      var run := agent(message, formatted.value);
      resp := AgentReply(run, parseJson);
    }
  }

  /** A started service closes exactly its tool client at shutdown. */
  method StartedServiceClosesClient(e: Handle, c: Handle) returns (closed: seq<Handle>)
    ensures closed == [c]
  {
    var service := new AgentService();
    var started := service.Startup(InitReturned(Some(e), Some(c)));
    assert started;
    service.Shutdown();
    closed := service.closedClients;
  }
}
