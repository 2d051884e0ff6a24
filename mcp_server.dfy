/**
 * The MCP dispatcher in front of the query agent: `tools/list` returns the
 * tool table built at start-up, `tools/call` runs `query_leads` (the
 * agent's answer as one text item) or `get_lead_stats` (four counts), and
 * anything else is answered with the JSON-RPC 2.0 "Method not found" error
 * code of section 5.1 of that specification.
 */
module McpServer {
  import opened Strings
  import opened Runtime
  import opened Json
  import opened QueryGate
  import opened Agent

  const MethodNotFound := -32601

  const ListMethod := "tools/list"
  const CallMethod := "tools/call"
  const QueryTool := "query_leads"
  const StatsTool := "get_lead_stats"

  const QuestionDescription :=
    "Natural language question" + " about leads (e.g., 'How many" + " warm leads today?', 'Show me"
    + " hot leads from Microsoft')"

  /** The `query_leads` entry of the tool table. */
  function QueryToolEntry(): Json {
    JObject([
      ("name", JString(QueryTool)),
      ("description", JString("Answer business questions" + " about leads using natural" + " language")),
      ("inputSchema", JObject([
        ("type", JString("object")),
        ("properties", JObject([
          ("question", JObject([
            ("type", JString("string")),
            ("description", JString(QuestionDescription))]))])),
        ("required", JArray([JString("question")]))]))])
  }

  /** The `get_lead_stats` entry of the tool table. */
  function StatsToolEntry(): Json {
    JObject([
      ("name", JString(StatsTool)),
      ("description", JString("Get current lead statistics" + " and metrics")),
      ("inputSchema", JObject([
        ("type", JString("object")),
        ("properties", JObject([])),
        ("required", JArray([]))]))])
  }

  /** `self.tools` as `__init__` builds it. */
  function ToolTable(): seq<Json> {
    [QueryToolEntry(), StatsToolEntry()]
  }

  /** The `name` of a tool entry. */
  function ToolName(tool: Json): Json {
    if tool.JObject? then LookupOr(tool.fields, "name", JNull) else JNull
  }

  /** `{"content": [{"type": "text", "text": text}]}` */
  function TextContent(text: string): Json {
    JObject([("content", JArray([JObject([("type", JString("text")), ("text", JString(text))])]))])
  }

  /** `{"error": {"code": -32601, "message": message}}` */
  function NotFound(message: string): Json {
    JObject([("error", JObject([("code", JInt(MethodNotFound)), ("message", JString(message))]))])
  }

  // ----- query_leads -----

  /**
   * `answer_question(arguments.get("question", ""))` for whatever JSON value
   * the question is: a falsy one is blank, a string is answered, and any
   * other value fails on `.strip()` inside the agent's `try`; `answer` is
   * the agent on text questions.
   */
  function QuestionReply(question: Json, answer: string -> string): string {
    if !IsTruthy(question) then BlankPrompt
    else if question.JString? then answer(question.s)
    else ErrorReply(MissingMethod(question, "strip"))
  }

  // ----- get_lead_stats -----

  const TotalQuery := "SELECT COUNT(*) as total" + " FROM leads"
  const CategoryQuery :=
    "\n                SELECT" + " ls.category, COUNT(*)" + " as count \n"
    + "                FROM" + " lead_scores ls \n"
    + "                GROUP BY" + " ls.category\n                "

  /** `total_results[0]['total'] if total_results else 0` */
  function TotalLeads(totalRows: seq<Row>): Result<Value> {
    if totalRows == [] then Success(Integer(0))
    else if "total" in totalRows[0] then Success(totalRows[0]["total"])
    else Failure(KeyError("total"))
  }

  /** `row['category'].lower() + "_leads"` */
  function StatKey(row: Row): Result<string> {
    if "category" !in row then Failure(KeyError("category"))
    else match row["category"]
      case Text(c) => Success(Lower(c) + "_leads")
      case v => Failure(AttributeError(NoAttribute(TypeName(v), "lower")))
  }

  /** The loop over the category rows, each setting its key to its `count`. */
  function Tally(stats: map<string, Value>, rows: seq<Row>): Result<map<string, Value>>
    decreases |rows|
  {
    if rows == [] then Success(stats)
    else
      match Tally(stats, rows[..|rows| - 1])
      case Failure(e) => Failure(e)
      case Success(m) =>
        var row := rows[|rows| - 1];
        match StatKey(row)
        case Failure(e) => Failure(e)
        case Success(key) =>
          if "count" in row then Success(m[key := row["count"]]) else Failure(KeyError("count"))
  }

  /** The `stats` dictionary. */
  function Stats(totalRows: seq<Row>, categoryRows: seq<Row>): Result<map<string, Value>> {
    match TotalLeads(totalRows)
    case Failure(e) => Failure(e)
    case Success(total) => Tally(map["total_leads" := total], categoryRows)
  }

  /** `stats.get(key, 0)` as the f-string shows it. */
  function StatText(stats: map<string, Value>, key: string, floats: Floats): string {
    Str(if key in stats then stats[key] else Integer(0), floats)
  }

  /** The four-line statistics text under its title. */
  function StatsText(stats: map<string, Value>, floats: Floats): string {
    "Lead Statistics:\n- Total Leads: " + StatText(stats, "total_leads", floats)
    + "\n- Hot Leads: " + StatText(stats, "hot_leads", floats)
    + "\n- Warm Leads: " + StatText(stats, "warm_leads", floats)
    + "\n- Cold Leads: " + StatText(stats, "cold_leads", floats)
  }

  /** `get_lead_stats`: two queries, then the text; any exception propagates. */
  function StatsReply(store: Store, floats: Floats): Result<Json> {
    match Execute(TotalQuery, store)
    case Failure(e) => Failure(e)
    case Success(totalRows) =>
      match Execute(CategoryQuery, store)
      case Failure(e) => Failure(e)
      case Success(categoryRows) =>
        match Stats(totalRows, categoryRows)
        case Failure(e) => Failure(e)
        case Success(stats) => Success(TextContent(StatsText(stats, floats)))
  }

  /** The stats loop: `stats[category] = row['count']` for each row in turn. */
  method CollectStats(totalRows: seq<Row>, categoryRows: seq<Row>) returns (r: Result<map<string, Value>>)
    ensures r == Stats(totalRows, categoryRows)
  {
    var totalLeads := Integer(0);
    if totalRows != [] {
      if "total" !in totalRows[0] {
        return Failure(KeyError("total"));
      }
      totalLeads := totalRows[0]["total"];
    }
    var stats := map["total_leads" := totalLeads];
    for i := 0 to |categoryRows|
      invariant Tally(map["total_leads" := totalLeads], categoryRows[..i]) == Success(stats)
    {
      var row := categoryRows[i];
      assert categoryRows[..i + 1][..i] == categoryRows[..i];
      var key := StatKey(row);
      if key.Failure? {
        TallyStopsAtFailure(map["total_leads" := totalLeads], categoryRows, i);
        return Failure(key.error);
      }
      if "count" !in row {
        TallyStopsAtFailure(map["total_leads" := totalLeads], categoryRows, i);
        return Failure(KeyError("count"));
      }
      stats := stats[key.value := row["count"]];
    }
    assert categoryRows[..|categoryRows|] == categoryRows;
    return Success(stats);
  }

  // ----- dispatch -----

  /**
   * `handle_request(request)`; an exception it lets escape is a `Failure`.
   * `agent` is the agent's reply to the `question` argument and `statsReply`
   * the outcome of the `get_lead_stats` branch.
   */
  function Handle(request: Json, tools: seq<Json>, agent: Json -> string, statsReply: Result<Json>,
                  floats: Floats, show: Json -> string): Result<Json> {
    if !request.JObject? then Failure(MissingMethod(request, "get"))
    else
      var rpcMethod := LookupOr(request.fields, "method", JNull);
      var params := LookupOr(request.fields, "params", JObject([]));
      if rpcMethod == JString(ListMethod) then Success(JObject([("tools", JArray(tools))]))
      else if rpcMethod != JString(CallMethod) then Success(NotFound("Unknown method: " + PyStr(rpcMethod, floats, show)))
      else if !params.JObject? then Failure(MissingMethod(params, "get"))
      else
        var toolName := LookupOr(params.fields, "name", JNull);
        var arguments := LookupOr(params.fields, "arguments", JObject([]));
        if toolName == JString(QueryTool) then
          if !arguments.JObject? then Failure(MissingMethod(arguments, "get"))
          else Success(TextContent(agent(LookupOr(arguments.fields, "question", JString("")))))
        else if toolName == JString(StatsTool) then statsReply
        else Success(NotFound("Unknown tool: " + PyStr(toolName, floats, show)))
  }

  /** The reply of the server whose agent queries `store`. */
  function Serve(request: Json, tools: seq<Json>, store: Store, floats: Floats, show: Json -> string): Result<Json> {
    Handle(request, tools, q => QuestionReply(q, s => Answer(s, store, floats)), StatsReply(store, floats), floats, show)
  }

  /** The server object: the agent is given with each request as its store and float rendering. */
  class LeadQueryServer {
    var tools: seq<Json>

    constructor()
      ensures tools == ToolTable()
    {
      tools := ToolTable();
    }

    /** `handle_request`; it has no `modifies` clause, so the tool table stays as it was. */
    method HandleRequest(request: Json, store: Store, floats: Floats, show: Json -> string) returns (r: Result<Json>)
      ensures r == Serve(request, tools, store, floats, show)
    {
      if !request.JObject? {
        return Failure(MissingMethod(request, "get"));
      }
      var rpcMethod := LookupOr(request.fields, "method", JNull);
      var params := LookupOr(request.fields, "params", JObject([]));
      if rpcMethod == JString(ListMethod) {
        return Success(JObject([("tools", JArray(tools))]));
      } else if rpcMethod == JString(CallMethod) {
        if !params.JObject? {
          return Failure(MissingMethod(params, "get"));
        }
        var toolName := LookupOr(params.fields, "name", JNull);
        var arguments := LookupOr(params.fields, "arguments", JObject([]));
        if toolName == JString(QueryTool) {
          if !arguments.JObject? {
            return Failure(MissingMethod(arguments, "get"));
          }
          var question := LookupOr(arguments.fields, "question", JString(""));
          var text: string;
          if !IsTruthy(question) {
            text := BlankPrompt;
          } else if question.JString? {
            text := AnswerQuestion(question.s, store, floats);
          } else {
            text := ErrorReply(MissingMethod(question, "strip"));
          }
          return Success(TextContent(text));
        } else if toolName == JString(StatsTool) {
          var totalResults := ExecuteQuery(TotalQuery, store);
          if totalResults.Failure? {
            return Failure(totalResults.error);
          }
          var categoryResults := ExecuteQuery(CategoryQuery, store);
          if categoryResults.Failure? {
            return Failure(categoryResults.error);
          }
          var stats := CollectStats(totalResults.value, categoryResults.value);
          if stats.Failure? {
            return Failure(stats.error);
          }
          return Success(TextContent(StatsText(stats.value, floats)));
        } else {
          return Success(NotFound("Unknown tool: " + PyStr(toolName, floats, show)));
        }
      } else {
        return Success(NotFound("Unknown method: " + PyStr(rpcMethod, floats, show)));
      }
    }
  }

  // ----- properties -----

  /** A failing category row at `i` after `i` good ones is the error of the whole loop. */
  lemma TallyStopsAtFailure(stats: map<string, Value>, rows: seq<Row>, i: nat)
    requires i < |rows| && Tally(stats, rows[..i]).Success?
    requires StatKey(rows[i]).Failure? || "count" !in rows[i]
    ensures Tally(stats, rows[..i + 1]) == (if StatKey(rows[i]).Failure? then Failure(StatKey(rows[i]).error) else Failure(KeyError("count")))
    ensures Tally(stats, rows) == Tally(stats, rows[..i + 1])
  {
    assert rows[..i + 1][..i] == rows[..i];
    TallyKeepsFailure(stats, rows, i + 1);
  }

  /** Once the loop has failed, later rows do not change the error. */
  lemma {:induction false} TallyKeepsFailure(stats: map<string, Value>, rows: seq<Row>, n: nat)
    requires n <= |rows| && Tally(stats, rows[..n]).Failure?
    ensures Tally(stats, rows) == Tally(stats, rows[..n])
    decreases |rows| - n
  {
    if n < |rows| {
      assert rows[..n + 1][..n] == rows[..n];
      TallyKeepsFailure(stats, rows, n + 1);
    } else {
      assert rows[..n] == rows;
    }
  }

  /** The tool table holds two tools, `query_leads` then `get_lead_stats`. */
  lemma ToolTableNames()
    ensures |ToolTable()| == 2
    ensures ToolName(ToolTable()[0]) == JString(QueryTool)
    ensures ToolName(ToolTable()[1]) == JString(StatsTool)
  {
    var q := QueryToolEntry().fields;
    assert q[..2] == [q[0], q[1]] && q[..2][..1] == [q[0]];
    assert q[2].0 != "name" && q[1].0 != "name";
    var t := StatsToolEntry().fields;
    assert t[..2] == [t[0], t[1]] && t[..2][..1] == [t[0]];
    assert t[2].0 != "name" && t[1].0 != "name";
  }

  /** `tools/list` returns the tool table as it is, whatever else the request holds. */
  lemma ListReply(request: Json, tools: seq<Json>, agent: Json -> string, statsReply: Result<Json>, floats: Floats, show: Json -> string)
    requires request.JObject? && LookupOr(request.fields, "method", JNull) == JString(ListMethod)
    ensures Handle(request, tools, agent, statsReply, floats, show) == Success(JObject([("tools", JArray(tools))]))
  {
  }

  /** A fresh server lists exactly its two tools, in order. */
  method ListFromFreshServer(store: Store, floats: Floats, show: Json -> string) returns (r: Result<Json>)
    ensures r == Success(JObject([("tools", JArray([QueryToolEntry(), StatsToolEntry()]))]))
  {
    var server := new LeadQueryServer();
    var request := JObject([("method", JString(ListMethod))]);
    r := server.HandleRequest(request, store, floats, show);
  }

  /** An unknown method gets the "Method not found" error naming it. */
  lemma UnknownMethodReply(request: Json, tools: seq<Json>, agent: Json -> string, statsReply: Result<Json>, floats: Floats, show: Json -> string)
    requires request.JObject?
    requires var rpcMethod := LookupOr(request.fields, "method", JNull);
      rpcMethod != JString(ListMethod) && rpcMethod != JString(CallMethod)
    ensures Handle(request, tools, agent, statsReply, floats, show) ==
      Success(NotFound("Unknown method: " + PyStr(LookupOr(request.fields, "method", JNull), floats, show)))
  {
  }

  /** A request without a method is answered "Unknown method: None". */
  lemma MissingMethodReply(tools: seq<Json>, agent: Json -> string, statsReply: Result<Json>, floats: Floats, show: Json -> string)
    ensures Handle(JObject([]), tools, agent, statsReply, floats, show) == Success(NotFound("Unknown method: None"))
  {
    assert LookupOr([], "method", JNull) == JNull;
    assert "Unknown method: " + PyStr(JNull, floats, show) == "Unknown method: None";
  }

  /** An unknown tool gets the "Method not found" error naming it. */
  lemma UnknownToolReply(request: Json, tools: seq<Json>, agent: Json -> string, statsReply: Result<Json>, floats: Floats, show: Json -> string)
    requires request.JObject? && LookupOr(request.fields, "method", JNull) == JString(CallMethod)
    requires var params := LookupOr(request.fields, "params", JObject([]));
      params.JObject? &&
      LookupOr(params.fields, "name", JNull) != JString(QueryTool) &&
      LookupOr(params.fields, "name", JNull) != JString(StatsTool)
    ensures Handle(request, tools, agent, statsReply, floats, show) == Success(NotFound("Unknown tool: " +
      PyStr(LookupOr(LookupOr(request.fields, "params", JObject([])).fields, "name", JNull), floats, show)))
  {
  }

  /** A call without `params` names no tool, so it is answered "Unknown tool: None". */
  lemma CallWithoutParams(tools: seq<Json>, agent: Json -> string, statsReply: Result<Json>, floats: Floats, show: Json -> string)
    ensures Handle(JObject([("method", JString(CallMethod))]), tools, agent, statsReply, floats, show) ==
      Success(NotFound("Unknown tool: None"))
  {
    var fields := [("method", JString(CallMethod))];
    assert fields[..0] == [];
    assert LookupOr(fields, "method", JNull) == JString(CallMethod);
    assert LookupOr(fields, "params", JObject([])) == JObject([]);
    assert LookupOr([], "name", JNull) == JNull;
    assert "Unknown tool: " + PyStr(JNull, floats, show) == "Unknown tool: None";
  }

  /** `query_leads` wraps the agent's answer to the question as one text item. */
  lemma QueryReply(request: Json, tools: seq<Json>, agent: Json -> string, statsReply: Result<Json>, floats: Floats, show: Json -> string)
    requires request.JObject? && LookupOr(request.fields, "method", JNull) == JString(CallMethod)
    requires var params := LookupOr(request.fields, "params", JObject([]));
      params.JObject? && LookupOr(params.fields, "name", JNull) == JString(QueryTool)
    requires LookupOr(LookupOr(request.fields, "params", JObject([])).fields, "arguments", JObject([])).JObject?
    ensures var arguments := LookupOr(LookupOr(request.fields, "params", JObject([])).fields, "arguments", JObject([]));
      Handle(request, tools, agent, statsReply, floats, show) ==
        Success(TextContent(agent(LookupOr(arguments.fields, "question", JString("")))))
  {
  }

  /** A text question is answered by `answer_question`; the empty one gets the prompt. */
  lemma TextQuestionReply(question: string, store: Store, floats: Floats)
    ensures QuestionReply(JString(question), s => Answer(s, store, floats)) == Answer(question, store, floats)
    ensures question == "" ==> QuestionReply(JString(question), s => Answer(s, store, floats)) == BlankPrompt
  {
    if question == "" {
      assert Strip(question) == [];
      assert IsBlank(question);
      assert Answer(question, store, floats) == BlankPrompt;
    } else {
      assert IsTruthy(JString(question));
    }
  }

  /** Calling `query_leads` without arguments asks the agent the empty question. */
  lemma QueryWithoutArguments(tools: seq<Json>, agent: Json -> string, statsReply: Result<Json>, floats: Floats, show: Json -> string)
    ensures var request := JObject([("method", JString(CallMethod)),
        ("params", JObject([("name", JString(QueryTool))]))]);
      Handle(request, tools, agent, statsReply, floats, show) == Success(TextContent(agent(JString(""))))
  {
    var params := [("name", JString(QueryTool))];
    var fields := [("method", JString(CallMethod)), ("params", JObject(params))];
    assert fields[..1] == [fields[0]] && fields[..1][..0] == [] && params[..0] == [];
    assert LookupOr(fields, "method", JNull) == JString(CallMethod);
    assert LookupOr(fields, "params", JObject([])) == JObject(params);
    assert LookupOr(params, "name", JNull) == JString(QueryTool);
    assert LookupOr(params, "arguments", JObject([])) == JObject([]);
    assert LookupOr([], "question", JString("")) == JString("");
  }

  /** So the server answers a call without arguments with the blank-question prompt. */
  lemma ServeQueryWithoutArguments(tools: seq<Json>, store: Store, floats: Floats, show: Json -> string)
    ensures var request := JObject([("method", JString(CallMethod)),
        ("params", JObject([("name", JString(QueryTool))]))]);
      Serve(request, tools, store, floats, show) == Success(TextContent(BlankPrompt))
  {
    var agent := q => QuestionReply(q, s => Answer(s, store, floats));
    QueryWithoutArguments(tools, agent, StatsReply(store, floats), floats, show);
    TextQuestionReply("", store, floats);
  }

  /** `get_lead_stats` replies with whatever the stats branch produces. */
  lemma StatsCall(request: Json, tools: seq<Json>, agent: Json -> string, statsReply: Result<Json>, floats: Floats, show: Json -> string)
    requires request.JObject? && LookupOr(request.fields, "method", JNull) == JString(CallMethod)
    requires var params := LookupOr(request.fields, "params", JObject([]));
      params.JObject? && LookupOr(params.fields, "name", JNull) == JString(StatsTool)
    ensures Handle(request, tools, agent, statsReply, floats, show) == statsReply
  {
  }

  /** The stats branch, when it succeeds, is one text item holding the statistics text. */
  lemma StatsReplyIsText(store: Store, floats: Floats)
    ensures StatsReply(store, floats).Success? ==> exists text :: StatsReply(store, floats).value == TextContent(text)
  {
  }

  /** A question that is a non-empty number or list fails on `.strip()` inside the agent. */
  lemma NonTextQuestion(question: Json, answer: string -> string)
    requires IsTruthy(question) && !question.JString?
    ensures QuestionReply(question, answer) ==
      NoDataPrefix + NoAttribute(TypeOf(question), "strip")
  {
    AttributeErrorReply(NoAttribute(TypeOf(question), "strip"));
  }

  lemma AttributeErrorReply(m: string)
    ensures ErrorReply(AttributeError(m)) == NoDataPrefix + m
  {
    assert AttributeError(m).Message() == m;
  }

  /**
   * Every reply is the tool list, a single text item, or a "Method not
   * found" error, given that the stats branch replies with a text item.
   */
  lemma ReplyShapes(request: Json, tools: seq<Json>, agent: Json -> string, statsReply: Result<Json>, floats: Floats, show: Json -> string)
    requires statsReply.Success? ==> exists text :: statsReply.value == TextContent(text)
    ensures var r := Handle(request, tools, agent, statsReply, floats, show);
      r.Success? ==>
        || r.value == JObject([("tools", JArray(tools))])
        || (exists text :: r.value == TextContent(text))
        || (exists message :: r.value == NotFound(message))
  {
    var r := Handle(request, tools, agent, statsReply, floats, show);
    if request.JObject? {
      var rpcMethod := LookupOr(request.fields, "method", JNull);
      var params := LookupOr(request.fields, "params", JObject([]));
      if rpcMethod == JString(ListMethod) {
      } else if rpcMethod != JString(CallMethod) {
        assert r.value == NotFound("Unknown method: " + PyStr(rpcMethod, floats, show));
      } else if params.JObject? {
        var toolName := LookupOr(params.fields, "name", JNull);
        var arguments := LookupOr(params.fields, "arguments", JObject([]));
        if toolName == JString(QueryTool) {
          if arguments.JObject? {
            assert r.value == TextContent(agent(LookupOr(arguments.fields, "question", JString(""))));
          }
        } else if toolName != JString(StatsTool) {
          assert r.value == NotFound("Unknown tool: " + PyStr(toolName, floats, show));
        }
      }
    }
  }

  // ----- stats properties -----

  /** The key a category row writes. */
  function RowKey(row: Row): string
    requires StatKey(row).Success?
  {
    StatKey(row).value
  }

  /**
   * The stats loop succeeds exactly when every row has a text `category`
   * and a `count`; its keys are the initial ones plus one per row.
   */
  lemma {:induction false} TallyKeys(stats: map<string, Value>, rows: seq<Row>)
    ensures Tally(stats, rows).Success? <==>
      forall k :: 0 <= k < |rows| ==> StatKey(rows[k]).Success? && "count" in rows[k]
    ensures Tally(stats, rows).Success? ==>
      Tally(stats, rows).value.Keys == stats.Keys + (set k | 0 <= k < |rows| :: RowKey(rows[k]))
    decreases |rows|
  {
    if rows != [] {
      var init := rows[..|rows| - 1];
      TallyKeys(stats, init);
      assert forall k :: 0 <= k < |init| ==> init[k] == rows[k];
      if Tally(stats, rows).Success? {
        var last := rows[|rows| - 1];
        assert (set k | 0 <= k < |rows| :: RowKey(rows[k])) ==
          (set k | 0 <= k < |init| :: RowKey(init[k])) + {RowKey(last)};
      }
    }
  }

  /** Every category row has a text `category` and a `count`. */
  predicate WellFormedRows(rows: seq<Row>) {
    forall k :: 0 <= k < |rows| ==> StatKey(rows[k]).Success? && "count" in rows[k]
  }

  /** A key holds the `count` of the last row that writes it. */
  lemma {:induction false} TallyLastWins(stats: map<string, Value>, rows: seq<Row>, k: nat)
    requires WellFormedRows(rows) && Tally(stats, rows).Success?
    requires k < |rows| && forall j :: k < j < |rows| ==> RowKey(rows[j]) != RowKey(rows[k])
    ensures RowKey(rows[k]) in Tally(stats, rows).value
    ensures Tally(stats, rows).value[RowKey(rows[k])] == rows[k]["count"]
    decreases |rows|
  {
    var init := rows[..|rows| - 1];
    assert forall j :: 0 <= j < |init| ==> init[j] == rows[j];
    if k < |rows| - 1 {
      TallyKeys(stats, init);
      TallyLastWins(stats, init, k);
    }
  }

  /** A key no row writes keeps its initial value, or stays absent. */
  lemma {:induction false} TallyUntouched(stats: map<string, Value>, rows: seq<Row>, key: string)
    requires WellFormedRows(rows) && Tally(stats, rows).Success?
    requires forall k :: 0 <= k < |rows| ==> RowKey(rows[k]) != key
    ensures key in Tally(stats, rows).value <==> key in stats
    ensures key in stats ==> Tally(stats, rows).value[key] == stats[key]
    decreases |rows|
  {
    if rows != [] {
      var init := rows[..|rows| - 1];
      assert forall j :: 0 <= j < |init| ==> init[j] == rows[j];
      TallyKeys(stats, init);
      TallyUntouched(stats, init, key);
    }
  }

  /**
   * Unless a category row writes `total_leads` itself, the total is the
   * first total row's `total`, or 0 when the total query returns no row.
   */
  lemma StatsTotalLeads(totalRows: seq<Row>, categoryRows: seq<Row>)
    requires WellFormedRows(categoryRows) && Stats(totalRows, categoryRows).Success?
    requires forall k :: 0 <= k < |categoryRows| ==> RowKey(categoryRows[k]) != "total_leads"
    ensures "total_leads" in Stats(totalRows, categoryRows).value
    ensures Stats(totalRows, categoryRows).value["total_leads"] ==
      if totalRows == [] then Integer(0) else totalRows[0]["total"]
  {
    var initial := map["total_leads" := TotalLeads(totalRows).value];
    TallyUntouched(initial, categoryRows, "total_leads");
  }

  /** A category no row names is shown as 0. */
  lemma AbsentCategoryShowsZero(totalRows: seq<Row>, categoryRows: seq<Row>, key: string, floats: Floats)
    requires WellFormedRows(categoryRows) && Stats(totalRows, categoryRows).Success?
    requires key != "total_leads"
    requires forall k :: 0 <= k < |categoryRows| ==> RowKey(categoryRows[k]) != key
    ensures StatText(Stats(totalRows, categoryRows).value, key, floats) == "0"
  {
    var initial := map["total_leads" := TotalLeads(totalRows).value];
    TallyUntouched(initial, categoryRows, key);
  }

  /** With no rows at all every count shows as 0. */
  lemma EmptyStats(floats: Floats)
    ensures Stats([], []) == Success(map["total_leads" := Integer(0)])
    ensures StatsText(Stats([], []).value, floats) ==
      "Lead Statistics:\n- Total Leads: " + "0" + "\n- Hot Leads: " + "0"
      + "\n- Warm Leads: " + "0" + "\n- Cold Leads: " + "0"
  {
    ZeroStatsText(Stats([], []).value, floats);
  }

  lemma ZeroStatsText(stats: map<string, Value>, floats: Floats)
    requires stats == map["total_leads" := Integer(0)]
    ensures StatsText(stats, floats) ==
      "Lead Statistics:\n- Total Leads: " + "0" + "\n- Hot Leads: " + "0"
      + "\n- Warm Leads: " + "0" + "\n- Cold Leads: " + "0"
  {
    assert Str(Integer(0), floats) == "0";
    assert "hot_leads" !in stats && "warm_leads" !in stats && "cold_leads" !in stats;
    var z := StatText(stats, "total_leads", floats);
    assert z == "0";
    assert StatText(stats, "hot_leads", floats) == z;
    assert StatText(stats, "warm_leads", floats) == z;
    assert StatText(stats, "cold_leads", floats) == z;
  }

  /** A category spelled `Total` in any case overwrites the total line. */
  lemma TotalCategoryOverwrites(totalRows: seq<Row>, c: string, count: Value)
    requires TotalLeads(totalRows).Success? && Lower(c) == "total"
    ensures Stats(totalRows, [map["category" := Text(c), "count" := count]]) ==
      Success(map["total_leads" := count])
  {
    var row := map["category" := Text(c), "count" := count];
    assert [row][..0] == [] && [row][0] == row;
    assert "total" + "_leads" == "total_leads";
    assert StatKey(row) == Success("total_leads");
    var initial := map["total_leads" := TotalLeads(totalRows).value];
    assert Tally(initial, [row]) == Success(initial["total_leads" := count]);
    assert initial["total_leads" := count] == map["total_leads" := count];
  }
}
