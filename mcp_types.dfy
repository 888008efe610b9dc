/** The records the MCP client side passes around: server configurations, tools,
    tool-call requests and their results. */
module McpTypes {
  import opened Wrappers
  import opened Json

  /** One HTTP header line. */
  datatype Header = Header(name: string, value: string)

  /** McpServerConfig. The source treats a null and an empty id, url or session id
      alike, so "" stands for both; `headers` lists the static headers in the map's
      iteration order ([] for a null map); `createdAt` is a timestamp supplied by the
      caller's clock. */
  datatype ServerConfig = ServerConfig(
    id: string,
    name: Option<string>,
    url: string,
    description: Option<string>,
    headers: seq<Header>,
    enabled: bool,
    createdAt: Option<int>,
    sessionId: string)

  /** McpTool: a tool as the client lists it, tagged with the id of its server.
      JNull stands for a null input schema. */
  datatype McpTool = McpTool(name: string, description: string, inputSchema: Json, serverId: string)

  /** McpToolExecutionRequest; None arguments is a null map. */
  datatype ExecutionRequest = ExecutionRequest(serverId: string, toolName: string, arguments: Option<Json>)

  /** McpToolExecutionResponse; JNull content is a null content. */
  datatype ExecutionResponse = ExecutionResponse(success: bool, content: Json, error: Option<string>)

  /** A tool call the language model asks for: its id, the function name and the
      arguments as JSON text. */
  datatype ToolCall = ToolCall(id: string, name: string, arguments: string)

  /** ToolCallInfo: the outcome of one requested tool call. */
  datatype ToolCallInfo = ToolCallInfo(
    toolCallId: string,
    toolName: string,
    arguments: Option<Json>,
    result: Json,
    success: bool,
    error: Option<string>)
}
