/** McpServerController of the weather MCP server: one JSON-RPC endpoint that
    dispatches on the method name, wraps every handler exception as an internal
    error, and issues a session id on initialize. */
module WeatherServer {
  import opened Wrappers
  import opened Strings
  import opened Json
  import opened WeatherTools
  import McpClient
  import McpTypes

  /** JsonRpcRequest after Jackson has bound it: the id and the method as strings
      (None for null or absent) and the params as a map's members (None for null). */
  datatype RpcRequest = RpcRequest(id: Option<string>, rpcMethod: Option<string>, params: Option<seq<Field>>)

  /** JsonRpcResponse.JsonRpcError. */
  datatype RpcError = RpcError(code: int, message: string)

  /** JsonRpcResponse: exactly one of result and error is set by the controller. */
  datatype RpcResponse = RpcResponse(jsonrpc: string, id: Option<string>, result: Option<Json>, error: Option<RpcError>)

  /** The ResponseEntity: the HTTP status, the Mcp-Session-Id header if any, the body. */
  datatype HttpReply = HttpReply(status: int, sessionHeader: Option<string>, body: RpcResponse)

  const JsonRpcVersion := "2.0"
  const Ok := 200
  const MethodNotFound := -32601
  const InternalError := -32603
  const MethodNotFoundPrefix := "Method not found: "
  const InternalErrorPrefix := "Internal error: "
  const ProtocolVersion := "2024-11-05"

  /** The exceptions the dispatch can throw. */
  datatype Thrown =
    | NullMethod                       // the switch on a null method name
    | MissingParams                    // tools/call without params
    | NameNotString(name: Json)        // (String) cast of a name that is not a string
    | ArgumentsNotMap(arguments: Json) // (Map) cast of arguments that are not an object
    | MissingToolName                  // tools/call without a name

  /** getMessage of a thrown exception: the controller's own texts, and for the
      exceptions the JVM raises the text `jvm` gives (None for a null message). */
  function ThrownMessage(t: Thrown, jvm: Thrown -> Option<string>): (r: Option<string>)
    ensures t == MissingParams ==> r == Some("Missing params")
    ensures t == MissingToolName ==> r == Some("Missing tool name")
  {
    match t
    case MissingParams => Some("Missing params")
    case MissingToolName => Some("Missing tool name")
    case _ => jvm(t)
  }

  // ---------------------------------------------------------------------------
  // The handlers

  /** handleInitialize: protocol version, capabilities and server info. The members
      are listed in the order they are put; a HashMap's iteration order is not modelled. */
  function InitializeResult(): (r: Json)
    ensures Get(r, "protocolVersion") == Some(JStr("2024-11-05"))
    ensures Get(r, "capabilities").Some?
            && Get(Get(r, "capabilities").value, "tools").Some?
            && Get(Get(Get(r, "capabilities").value, "tools").value, "listChanged") == Some(JBool(false))
    ensures Get(r, "serverInfo").Some?
            && Get(Get(r, "serverInfo").value, "name") == Some(JStr("weather-mcp-server"))
            && Get(Get(r, "serverInfo").value, "version") == Some(JStr("1.0.0"))
  {
    var serverInfo := [Field("name", JStr("weather-mcp-server")), Field("version", JStr("1.0.0"))];
    var fields := [Field("protocolVersion", JStr(ProtocolVersion)),
                   Field("capabilities", JObj([Field("tools", JObj([Field("listChanged", JBool(false))]))])),
                   Field("serverInfo", JObj(serverInfo))];
    LookupFirst(fields, 1, "capabilities");
    LookupFirst(fields, 2, "serverInfo");
    LookupFirst(serverInfo, 1, "version");
    JObj(fields)
  }

  /** The JSON Jackson writes for a list of tool definitions. */
  function DefinitionsJson(tools: seq<ToolDefinition>): (r: seq<Json>)
    ensures |r| == |tools| && forall i :: 0 <= i < |tools| ==> r[i] == DefinitionJson(tools[i])
  {
    seq(|tools|, i requires 0 <= i < |tools| => DefinitionJson(tools[i]))
  }

  /** handleToolsList: the catalogue under "tools", one definition per tool, in order. */
  function ToolsListResult(): (r: Json)
    ensures Get(r, "tools").Some?
    ensures var nodes := Elements(Get(r, "tools").value);
            |nodes| == |Catalog()| && forall i :: 0 <= i < |Catalog()| ==> nodes[i] == DefinitionJson(Catalog()[i])
  {
    JObj([Field("tools", JArr(DefinitionsJson(Catalog())))])
  }

  /** handlePing: a single member, status "ok". */
  function PingResult(): (r: Json)
    ensures r.JObj? && |r.fields| == 1
    ensures Get(r, "status") == Some(JStr("ok"))
  {
    JObj([Field("status", JStr("ok"))])
  }

  /** params.getOrDefault("arguments", new HashMap()) once the cast has succeeded:
      an empty map when absent, null for an explicit null. */
  function ArgumentsOf(arguments: Option<Json>): Arguments {
    match arguments
    case None => Some([])
    case Some(JObj(fields)) => Some(fields)
    case Some(_) => None
  }

  /** A name member that survives the (String) cast: absent, null or a string. */
  predicate CastsToString(name: Option<Json>) {
    name.None? || name.value.JNull? || name.value.JStr?
  }

  /** An arguments member that survives the (Map) cast: absent, null or an object. */
  predicate CastsToMap(arguments: Option<Json>) {
    arguments.None? || arguments.value.JNull? || arguments.value.JObj?
  }

  /** handleToolsCall, in the order of the source: the params check, the name cast,
      the arguments cast, the name check, then executeTool (which never throws). */
  function ToolsCall(params: Option<seq<Field>>, env: Environment): (r: Result<Json, Thrown>)
    ensures params.None? ==> r == Failure(MissingParams)
    ensures r.Success? <==> params.Some? && Lookup(params.value, "name").Some? && Lookup(params.value, "name").value.JStr?
                            && CastsToMap(Lookup(params.value, "arguments"))
    ensures r.Success? ==>
              r.value == ExecuteTool(Lookup(params.value, "name").value.s, ArgumentsOf(Lookup(params.value, "arguments")), env)
    ensures params.Some? && !CastsToString(Lookup(params.value, "name")) ==>
              r == Failure(NameNotString(Lookup(params.value, "name").value))
  {
    if params.None? then Failure(MissingParams)
    else
      var name := Lookup(params.value, "name");
      var arguments := Lookup(params.value, "arguments");
      if !CastsToString(name) then Failure(NameNotString(name.value))
      else if !CastsToMap(arguments) then Failure(ArgumentsNotMap(arguments.value))
      else if name.None? || name.value.JNull? then Failure(MissingToolName)
      else Success(ExecuteTool(name.value.s, ArgumentsOf(arguments), env))
  }

  /** The four methods the switch knows. */
  predicate IsKnownMethod(m: string) {
    m == "initialize" || m == "tools/list" || m == "tools/call" || m == "ping"
  }

  /** The switch: the handler's result, None for an unknown method (the default
      branch's null), or the exception thrown. */
  function Dispatch(request: RpcRequest, env: Environment): (r: Result<Option<Json>, Thrown>)
    ensures request.rpcMethod.None? ==> r == Failure(NullMethod)
    ensures r.Failure? ==> request.rpcMethod.None? || request.rpcMethod == Some("tools/call")
    ensures r == Success(None) <==> request.rpcMethod.Some? && !IsKnownMethod(request.rpcMethod.value)
    ensures request.rpcMethod == Some("initialize") ==> r == Success(Some(InitializeResult()))
    ensures request.rpcMethod == Some("tools/list") ==> r == Success(Some(ToolsListResult()))
    ensures request.rpcMethod == Some("ping") ==> r == Success(Some(PingResult()))
    ensures request.rpcMethod == Some("tools/call") ==>
              (r.Failure? <==> ToolsCall(request.params, env).Failure?)
              && (r.Failure? ==> r.error == ToolsCall(request.params, env).error)
              && (r.Success? ==> r.value == Some(ToolsCall(request.params, env).value))
  {
    match request.rpcMethod
    case None => Failure(NullMethod)
    case Some(m) =>
      if m == "initialize" then Success(Some(InitializeResult()))
      else if m == "tools/list" then Success(Some(ToolsListResult()))
      else if m == "ping" then Success(Some(PingResult()))
      else if m != "tools/call" then Success(None)
      else match ToolsCall(request.params, env)
        case Failure(t) => Failure(t)
        case Success(result) => Success(Some(result))
  }

  /** A response carrying an error, always with status 200. */
  function ErrorReply(id: Option<string>, code: int, message: string): HttpReply {
    HttpReply(Ok, None, RpcResponse(JsonRpcVersion, id, None, Some(RpcError(code, message))))
  }

  /** A response carrying a result, always with status 200. */
  function ResultReply(id: Option<string>, header: Option<string>, result: Json): HttpReply {
    HttpReply(Ok, header, RpcResponse(JsonRpcVersion, id, Some(result), None))
  }

  /** handleMcpRequest as a function of the request, the tool service's environment,
      the JVM's exception messages and the UUID an initialize draws. */
  function Reply(request: RpcRequest, env: Environment, jvm: Thrown -> Option<string>, newSessionId: string): (r: HttpReply)
    ensures r.body.result.Some? <==> Dispatch(request, env).Success? && Dispatch(request, env).value.Some?
    ensures r.body.result.Some? ==> r.body.result == Dispatch(request, env).value
  {
    Respond(request, Dispatch(request, env), jvm, newSessionId)
  }

  /** The reply the controller builds from the outcome of the switch. Whatever the
      outcome, it has status 200, says version 2.0, echoes the request id and carries
      exactly one of a result and an error: -32603 for an exception, -32601 for an
      unknown method, and a session header only on a successful initialize. */
  function Respond(request: RpcRequest, outcome: Result<Option<Json>, Thrown>, jvm: Thrown -> Option<string>,
                   newSessionId: string): (r: HttpReply)
    ensures r.status == 200 && r.body.jsonrpc == "2.0" && r.body.id == request.id
    ensures r.body.result.Some? <==> r.body.error.None?
    ensures r.body.error.Some? && r.body.error.value.code == -32603 <==> outcome.Failure?
    ensures r.body.error.Some? && r.body.error.value.code == -32601 <==> outcome == Success(None)
    ensures r.sessionHeader.Some? <==> outcome.Success? && outcome.value.Some? && request.rpcMethod == Some("initialize")
    ensures r.sessionHeader.Some? ==> r.sessionHeader.value == newSessionId
  {
    match outcome
    case Failure(t) => ErrorReply(request.id, InternalError, InternalErrorPrefix + Str(ThrownMessage(t, jvm)))
    case Success(None) => ErrorReply(request.id, MethodNotFound, MethodNotFoundPrefix + Str(request.rpcMethod))
    case Success(Some(result)) =>
      if request.rpcMethod == Some("initialize") then ResultReply(request.id, Some(newSessionId), result)
      else ResultReply(request.id, None, result)
  }

  /** The controller with its session table. The tool service is its environment;
      `jvm` gives the messages of the exceptions the JVM raises. */
  class McpServerController {
    var sessions: map<string, string>
    const env: Environment
    const jvm: Thrown -> Option<string>

    constructor(env: Environment, jvm: Thrown -> Option<string>)
      ensures this.env == env && this.jvm == jvm && sessions == map[]
    {
      this.env := env;
      this.jvm := jvm;
      sessions := map[];
    }

    /** handleMcpRequest: `newSessionId` is the UUID drawn for an initialize. Only an
        initialize enters a session, mapped to itself; every other request leaves the
        table as it was. */
    method HandleMcpRequest(request: RpcRequest, newSessionId: string) returns (reply: HttpReply)
      modifies this
      ensures reply == Reply(request, env, jvm, newSessionId)
      ensures sessions == if request.rpcMethod == Some("initialize")
                          then old(sessions)[newSessionId := newSessionId] else old(sessions)
    {
      var outcome := Dispatch(request, env);
      if outcome.Failure? {
        return ErrorReply(request.id, InternalError, InternalErrorPrefix + Str(ThrownMessage(outcome.error, jvm)));
      }
      var result := outcome.value;
      if result.None? {
        return ErrorReply(request.id, MethodNotFound, MethodNotFoundPrefix + Str(request.rpcMethod));
      }
      if request.rpcMethod == Some("initialize") {
        sessions := sessions[newSessionId := newSessionId];
        return ResultReply(request.id, Some(newSessionId), result.value);
      }
      reply := ResultReply(request.id, None, result.value);
    }
  }

  // ---------------------------------------------------------------------------
  // Properties

  /** Error -32601 exactly for a method the switch does not know, named in the message. */
  lemma MethodNotFoundExactly(request: RpcRequest, env: Environment, jvm: Thrown -> Option<string>, newSessionId: string)
    ensures var r := Reply(request, env, jvm, newSessionId);
            (r.body.error.Some? && r.body.error.value.code == -32601)
            <==> (request.rpcMethod.Some? && !IsKnownMethod(request.rpcMethod.value))
    ensures var r := Reply(request, env, jvm, newSessionId);
            request.rpcMethod.Some? && !IsKnownMethod(request.rpcMethod.value) ==>
              r.body.error.value.message == "Method not found: " + request.rpcMethod.value
  {
  }

  /** Error -32603 exactly when a handler throws, with the exception's message. */
  lemma InternalErrorExactly(request: RpcRequest, env: Environment, jvm: Thrown -> Option<string>, newSessionId: string)
    ensures var r := Reply(request, env, jvm, newSessionId);
            (r.body.error.Some? && r.body.error.value.code == -32603) <==> Dispatch(request, env).Failure?
    ensures var r := Reply(request, env, jvm, newSessionId);
            Dispatch(request, env).Failure? ==>
              r.body.error.value.message == "Internal error: " + Str(ThrownMessage(Dispatch(request, env).error, jvm))
  {
  }

  /** Only an initialize reply carries a session header, and it is the session entered. */
  lemma SessionHeaderOnInitialize(request: RpcRequest, env: Environment, jvm: Thrown -> Option<string>, newSessionId: string)
    ensures var r := Reply(request, env, jvm, newSessionId);
            r.sessionHeader.Some? <==> request.rpcMethod == Some("initialize")
    ensures var r := Reply(request, env, jvm, newSessionId);
            r.sessionHeader.Some? ==> r.sessionHeader.value == newSessionId && r.body.result == Some(InitializeResult())
  {
  }

  /** tools/call without params, or with arguments that cast but no name, is an
      internal error with the controller's message. */
  lemma ToolsCallRejects(params: Option<seq<Field>>, env: Environment)
    ensures params.None? ==> ToolsCall(params, env) == Failure(MissingParams)
    ensures params.Some? && Lookup(params.value, "name").None? && CastsToMap(Lookup(params.value, "arguments")) ==>
              ToolsCall(params, env) == Failure(MissingToolName)
    ensures params.Some? && !CastsToString(Lookup(params.value, "name")) ==>
              ToolsCall(params, env) == Failure(NameNotString(Lookup(params.value, "name").value))
  {
  }

  /** A tools/call whose name is a string runs the tool: with no arguments member on
      an empty map, with an object's members as given, and with a null one on a null
      map, which the tool service reports as a failed call, not as an exception. */
  lemma ToolsCallRuns(params: seq<Field>, name: string, env: Environment)
    requires Lookup(params, "name") == Some(JStr(name))
    ensures Lookup(params, "arguments").None? ==>
              ToolsCall(Some(params), env) == Success(ExecuteTool(name, Some([]), env))
    ensures Lookup(params, "arguments").Some? && Lookup(params, "arguments").value.JObj? ==>
              ToolsCall(Some(params), env) == Success(ExecuteTool(name, Some(Lookup(params, "arguments").value.fields), env))
    ensures Lookup(params, "arguments") == Some(JNull) ==>
              ToolsCall(Some(params), env) == Success(ExecuteTool(name, None, env))
  {
  }

  lemma {:induction false} DefinitionsReadBack(tools: seq<ToolDefinition>, serverId: string)
    requires forall i :: 0 <= i < |tools| ==> tools[i].inputSchema.JObj?
    ensures var read := McpClient.ToolsFromNodes(DefinitionsJson(tools), serverId);
            && read.Some?
            && |read.value| == |tools|
            && forall i :: 0 <= i < |tools| ==>
                 read.value[i] == McpTypes.McpTool(tools[i].name, tools[i].description, tools[i].inputSchema, serverId)
  {
    var nodes := DefinitionsJson(tools);
    forall i | 0 <= i < |nodes|
      ensures McpClient.ToolFromNode(nodes[i], serverId)
              == Some(McpTypes.McpTool(tools[i].name, tools[i].description, tools[i].inputSchema, serverId))
    {
      DefinitionReadBack(tools[i], serverId);
    }
  }

  /** What tools/list answers, the MCP client reads back as the catalogue, in order,
      each tool tagged with the server's id. */
  lemma ToolsListReadBack(serverId: string)
    ensures Get(ToolsListResult(), "tools").Some?
    ensures var nodes := Elements(Get(ToolsListResult(), "tools").value);
            var tools := McpClient.ToolsFromNodes(nodes, serverId);
            && tools.Some?
            && |tools.value| == |Catalog()|
            && forall i :: 0 <= i < |Catalog()| ==>
                 tools.value[i] == McpTypes.McpTool(Catalog()[i].name, Catalog()[i].description, Catalog()[i].inputSchema, serverId)
  {
    var tools := Catalog();
    assert Elements(Get(ToolsListResult(), "tools").value) == DefinitionsJson(tools);
    assert tools[0].inputSchema.JObj? && tools[1].inputSchema.JObj? && tools[2].inputSchema.JObj?;
    DefinitionsReadBack(tools, serverId);
  }

  /** The result envelope of a reply, as the controller's ResultReply fills it and
      Jackson writes it. The model assumes the null error member is left out of the
      JSON text; were it written as "error": null, the client's has("error") would
      hold for every successful reply. */
  function ResultEnvelope(id: string, result: Json): Json {
    JObj([Field("jsonrpc", JStr(JsonRpcVersion)), Field("id", JStr(id)), Field("result", result)])
  }

  /** The client reads a result envelope through its result's tools member. */
  lemma EnvelopeToolNodes(id: string, result: Json)
    requires Has(result, "tools")
    ensures McpClient.HasToolList(ResultEnvelope(id, result))
    ensures McpClient.ToolNodes(ResultEnvelope(id, result)) == Elements(Get(result, "tools").value)
  {
    var fields := ResultEnvelope(id, result).fields;
    LookupFirst(fields, 2, "result");
    LookupSpec(fields, "error");
    assert forall i :: 0 <= i < |fields| ==> fields[i].key != "error";
  }

  /** A JSON-RPC reply carrying the tools/list result, as the MCP client's listTools
      reads it: the whole catalogue, in order, each tool tagged with the server's id. */
  lemma ClientListsCatalog(id: string, serverId: string)
    ensures var tools := McpClient.ToolsFromReply(ResultEnvelope(id, ToolsListResult()), serverId);
            && |tools| == |Catalog()|
            && forall i :: 0 <= i < |Catalog()| ==>
                 tools[i] == McpTypes.McpTool(Catalog()[i].name, Catalog()[i].description, Catalog()[i].inputSchema, serverId)
  {
    ToolsListReadBack(serverId);
    EnvelopeToolNodes(id, ToolsListResult());
  }
}
