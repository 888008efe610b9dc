# ai-exploration: the MCP tool-calling pipeline, modelled in Dafny

This project models how the ai-exploration chat application lets a language model call
tools served over the Model Context Protocol (MCP, JSON-RPC 2.0 over HTTP), and how the
weather MCP server in the same repository answers those calls.

- **Client codec** (`mcp_client.dfy`). McpClientService builds the JSON-RPC envelope and
  the request headers, decodes `text/event-stream` replies line by line, and implements
  the `initialize` handshake (it keeps the `Mcp-Session-Id` header it receives),
  `tools/list` and `tools/call`.
- **Server registry** (`server_manager.dfy`). McpServerManager is a class over two maps:
  server configurations and cached tool lists.
- **Tool bridge** (`function_executor.dfy`). McpFunctionExecutor holds a registry from
  tool name to tool, offers the tools to the model as function schemas, and turns the
  model's tool calls into MCP executions.
- **Chat orchestration** (`orchestration.dfy`). DeepSeekService.chat builds the message
  list. It then runs the function-calling loop: call the model; while it answers
  `tool_calls`, execute the calls and append the assistant and tool messages; stop at
  the iteration limit. Finally it builds the response and extends the session history.
- **History summarisers** (`chat_summary.dfy`, `perplexity_summary.dfy`). These replace
  old conversation messages with one summary message: the chat one every four
  messages, the Perplexity one every ten.
- **Default server** (`mcp_config.dfy`). McpConfig builds the default server
  configuration from the application properties.
- **Weather MCP server** (`weather_code.dfy`, `weather_tools.dfy`, `weather_server.dfy`):
  - the WMO weather code table;
  - McpToolService: its three tools' catalogue, dispatch and text reports;
  - the JSON-RPC controller, with its error codes and sessions.

Some modules are shared:

- `wrappers.dfy`: Java's nullable references (`Option`) and thrown exceptions (`Result`).
- `json.dfy`: the Jackson tree.
- `java_int.dfy`: Java's 32-bit `int`.
- `strings.dfy`: the `java.lang.String` operations the code relies on.
- `mcp_types.dfy`: the client side's records.
- `chat_history.dfy`: the session's message list.

Collaborators that cannot be seen are parameters of the model:

- the HTTP transport;
- the JSON parser;
- the language model, a script from call number to completion;
- Open-Meteo;
- the formatting of floating-point numbers;
- the messages of JVM-generated exceptions.

These operations keep the source's shape:

- The stateful objects are classes with `modifies` clauses:
  - McpServerManager;
  - McpFunctionExecutor;
  - McpServerController and its session map;
  - the session's message list.
- The source's loops are `while` loops with invariants, each proved against a
  function that states its result:
  - the event-stream decoder;
  - the header builder;
  - the function-calling loop;
  - the transcript builder;
  - the history conversion;
  - the report builders.

## Model

| member | source | states |
|---|---|---|
| Strings.Trim | src/main/java/com/aiexploration/chat/service/McpClientService.java:249 | the result is the string with every character up to U+0020 cut from both ends: it starts after the leading blanks, only blanks follow it, and it neither starts nor ends with one |
| Strings.TrimOfStable | src/main/java/com/aiexploration/chat/service/McpClientService.java:249 | trimming a payload without blanks at its ends changes nothing |
| Strings.TrimUnique | src/main/java/com/aiexploration/chat/service/McpClientService.java:249 | any cut of blanks from both ends that leaves a string without a blank at either end is the trimmed string |
| Strings.SplitOn | src/main/java/com/aiexploration/chat/service/McpClientService.java:244 | splitting keeps every piece, and no piece holds the separator |
| Strings.DropTrailingEmpty | src/main/java/com/aiexploration/chat/service/McpClientService.java:244 | String.split drops only trailing empty pieces, and what it keeps is a prefix of all pieces |
| Strings.JavaSplit | src/main/java/com/aiexploration/chat/service/McpClientService.java:244 | String.split keeps a prefix of the pieces, drops only trailing empty ones, ends with a non-empty piece when any remain, and no piece holds the separator |
| Strings.JoinSplitOn | src/main/java/com/aiexploration/chat/service/McpClientService.java:244 | splitting at line breaks and joining again gives the body back |
| Strings.SplitOnJoin | src/main/java/com/aiexploration/chat/service/McpClientService.java:244 | joining separator-free lines and splitting again gives the lines back |
| Strings.IntToStringInjective | mcp-weather-server/src/main/java/com/aiexploration/mcp/weather/util/WeatherCodeUtil.java:45 | different codes print differently, so "Unknown (" + code + ")" names its code |
| Strings.Upper | src/main/java/com/aiexploration/chat/service/HistorySummarizationService.java:108 | ASCII upper-casing: each character on its own, ASCII letters to upper case and every other character kept, so the length is kept |
| Strings.RolesUpper | src/main/java/com/aiexploration/chat/service/HistorySummarizationService.java:108 | the transcript names the roles USER, ASSISTANT and SYSTEM |
| JavaInt.AddInt32 | src/main/java/com/aiexploration/chat/service/HistorySummarizationService.java:188 | int addition of the summary counter is exact in range and wraps modulo 2^32 otherwise |
| JavaInt.DoubleIntValue | mcp-weather-server/src/main/java/com/aiexploration/mcp/weather/service/McpToolService.java:124 | Number.intValue rounds toward zero and saturates at the ends of the int range |
| JavaInt.NumberIntValue | mcp-weather-server/src/main/java/com/aiexploration/mcp/weather/service/McpToolService.java:123-124 | an integer literal keeps its low 32 bits (Integer, Long or BigInteger); a literal with a fraction or an exponent is a Double, truncated and saturated |
| Json.Elements | src/main/java/com/aiexploration/chat/service/McpClientService.java:107 | iterating a node yields the array's elements or the object's member values, in order, and nothing for a scalar |
| Json.ValueOf | ai-exploration-app/src/main/java/com/aiexploration/chat/service/DeepSeekService.java:277 | String.valueOf of the converted node: "null", "true"/"false", a string as itself, a list in brackets and a map in braces |
| Json.LookupDistinct | src/main/java/com/aiexploration/chat/service/McpClientService.java:57 | among members with distinct names each member is the one its name finds, so first and last match agree |
| McpClient.DataParts | src/main/java/com/aiexploration/chat/service/McpClientService.java:247-252 | each line contributes its own data: the trimmed rest of a "data: " line, nothing for any other line |
| McpClient.SseDecode | src/main/java/com/aiexploration/chat/service/McpClientService.java:237-256 | the decoded body is never empty, and is "{}" for a null or empty body |
| McpClient.ParseSseResponse | src/main/java/com/aiexploration/chat/service/McpClientService.java:237-256 | the StringBuilder loop yields the in-order concatenation of the lines' data, or "{}" when there is none |
| McpClient.DataPayloadTrailingEmpty | src/main/java/com/aiexploration/chat/service/McpClientService.java:244 | the trailing empty lines String.split drops contribute nothing |
| McpClient.DataPayloadOfSplit | src/main/java/com/aiexploration/chat/service/McpClientService.java:244-252 | decoding after String.split gives the data of all lines of the body |
| McpClient.DataLines | src/main/java/com/aiexploration/chat/service/McpClientService.java:248 | framing puts "data: " before each fragment |
| McpClient.DataPayloadOfDataLines | src/main/java/com/aiexploration/chat/service/McpClientService.java:247-252 | the data of framed trim-stable fragments is their concatenation |
| McpClient.SseFramingRoundTrip | src/main/java/com/aiexploration/chat/service/McpClientService.java:244-255 | a body of data lines, one per newline-free trim-stable fragment, decodes to the fragments concatenated |
| McpClient.SseSingleLine | src/main/java/com/aiexploration/chat/service/McpClientService.java:248-255 | "data: " + j decodes to j for a non-empty, newline-free, trim-stable j |
| McpClient.SseIgnoresOtherLine | src/main/java/com/aiexploration/chat/service/McpClientService.java:247-252 | an "event:" or other non-data line adds nothing to the decoded body |
| McpClient.Envelope | src/main/java/com/aiexploration/chat/service/McpClientService.java:184-191 | the request has jsonrpc "2.0", the drawn id, the method and the params |
| McpClient.BuildHeaders | src/main/java/com/aiexploration/chat/service/McpClientService.java:211-228 | the header-building code yields the content type, the accept list, the session id when known, then the custom headers |
| McpClient.FirstHeader | src/main/java/com/aiexploration/chat/service/McpClientService.java:63 | getFirst finds a value exactly when a header of that name exists, and it is the first one |
| McpClient.RequestHeadersContent | src/main/java/com/aiexploration/chat/service/McpClientService.java:212-217 | every request declares JSON content and accepts both JSON and text/event-stream |
| McpClient.RequestHeadersSession | src/main/java/com/aiexploration/chat/service/McpClientService.java:219-223 | Mcp-Session-Id is sent exactly when the configuration's session id is non-empty, with that value |
| McpClient.RequestHeadersEndWithStatic | src/main/java/com/aiexploration/chat/service/McpClientService.java:225-228 | every custom header of the server is sent, in order, after the fixed ones |
| McpClient.Exchange | src/main/java/com/aiexploration/chat/service/McpClientService.java:193-209 | a transport failure gives its message; otherwise the body, decoded first when it is an event stream, is parsed, and a parse failure gives its message |
| McpClient.ExchangeSseMatchesRaw | src/main/java/com/aiexploration/chat/service/McpClientService.java:200-206 | an event-stream reply is read exactly like a JSON reply carrying its decoded text |
| McpClient.InitializeConnection | src/main/java/com/aiexploration/chat/service/McpClientService.java:29-78 | false on an exception or an error member; otherwise true, storing a non-empty Mcp-Session-Id header and changing nothing else in the configuration |
| McpClient.SessionReused | src/main/java/com/aiexploration/chat/service/McpClientService.java:62-66 | after a handshake that stored a session id, every later request sends it |
| McpClient.ToolFromNode | src/main/java/com/aiexploration/chat/service/McpClientService.java:107-117 | a tool carries the server's id; a missing name or description becomes "", a missing schema {}; a schema that is not an object or null makes the conversion fail |
| McpClient.ToolsFromNodes | src/main/java/com/aiexploration/chat/service/McpClientService.java:104-117 | one tool per element, in order, or failure as soon as one conversion fails |
| McpClient.ToolsFromReply | src/main/java/com/aiexploration/chat/service/McpClientService.java:92-117 | empty for an error member, a missing result or tools member, or a node whose schema cannot be converted; otherwise one tool per node of result.tools, in order |
| McpClient.ListTools | src/main/java/com/aiexploration/chat/service/McpClientService.java:80-126 | every tool is tagged with the server's id; an exception, an error member, a missing result.tools or a failed conversion gives the empty list; otherwise one tool per element of result.tools, in order |
| McpClient.ToolsCallParams | src/main/java/com/aiexploration/chat/service/McpClientService.java:134-137 | the tools/call params are the tool name and the arguments, {} when they are null |
| McpClient.ExecuteTool | src/main/java/com/aiexploration/chat/service/McpClientService.java:128-182 | success exactly for a reply without an error member, with the result as content; an error member gives its message or "Unknown error"; an exception gives its message |
| ServerManager.FlattenMembers | src/main/java/com/aiexploration/chat/service/McpServerManager.java:125-129 | a tool is in getAllTools exactly when it is in some server's cached list |
| ServerManager.Prepared | src/main/java/com/aiexploration/chat/service/McpServerManager.java:52-63 | addServer keeps a non-empty id or uses the fresh one, keeps a set creation time, and enables the server; nothing else changes |
| ServerManager.McpServerManager.constructor | src/main/java/com/aiexploration/chat/service/McpServerManager.java:29-31 | a new manager has no servers and no cached tools |
| ServerManager.McpServerManager.Initialize | src/main/java/com/aiexploration/chat/service/McpServerManager.java:33-44 | without a default server nothing changes; otherwise the outcome and the new maps are addServer's for the default server: refused with nothing changed without a URL, else registered, with its tools loaded only after a successful handshake |
| ServerManager.McpServerManager.AddServer | src/main/java/com/aiexploration/chat/service/McpServerManager.java:46-81 | an empty URL is refused with "Server URL is required" and nothing changes; otherwise the prepared server is registered whatever the handshake gives, and its tools are loaded only after a successful one; every cached list belongs to a registered server |
| ServerManager.McpServerManager.RemoveServer | src/main/java/com/aiexploration/chat/service/McpServerManager.java:83-92 | the id leaves both maps, and an unknown id changes nothing |
| ServerManager.McpServerManager.GetServer | src/main/java/com/aiexploration/chat/service/McpServerManager.java:94-96 | the registered configuration, or none |
| ServerManager.McpServerManager.RefreshServerTools | src/main/java/com/aiexploration/chat/service/McpServerManager.java:102-119 | an unknown or disabled server gives nothing and changes nothing; otherwise the cached list is replaced by listTools' answer, which is returned |
| ServerManager.McpServerManager.GetToolsForServer | src/main/java/com/aiexploration/chat/service/McpServerManager.java:121-123 | the cached list, empty when there is none |
| ServerManager.McpServerManager.GetAllTools | src/main/java/com/aiexploration/chat/service/McpServerManager.java:125-129 | the flattening of all cached lists in the map's order; each tool lies in the list of a cached server |
| ServerManager.McpServerManager.ExecuteTool | src/main/java/com/aiexploration/chat/service/McpServerManager.java:131-165 | the four guards in order, each with its message; only a request passing all four reaches the client |
| ServerManager.McpServerManager.TestConnection | src/main/java/com/aiexploration/chat/service/McpServerManager.java:167-175 | false for an unknown server; otherwise the handshake's outcome, keeping a new session id; the cached tools are unchanged |
| FunctionExecutor.PutAllKeys | ai-exploration-app/src/main/java/com/aiexploration/chat/service/McpFunctionExecutor.java:49-53 | loading files every tool under its own name, and the names in the registry are the old ones plus the loaded ones |
| FunctionExecutor.PutAllLastWins | ai-exploration-app/src/main/java/com/aiexploration/chat/service/McpFunctionExecutor.java:49-53 | with duplicate names the last tool loaded under a name wins |
| FunctionExecutor.PutAllUntouched | ai-exploration-app/src/main/java/com/aiexploration/chat/service/McpFunctionExecutor.java:49-53 | a name not loaded keeps its old entry |
| FunctionExecutor.PutAllFrom | ai-exploration-app/src/main/java/com/aiexploration/chat/service/McpFunctionExecutor.java:49-53 | every entry is a loaded tool or the old entry |
| FunctionExecutor.LoadIndependentOfOrder | ai-exploration-app/src/main/java/com/aiexploration/chat/service/McpFunctionExecutor.java:49-53 | when tool names are unique, the order of the manager's map does not change the registry |
| FunctionExecutor.ConvertToToolFunction | ai-exploration-app/src/main/java/com/aiexploration/chat/service/McpFunctionExecutor.java:77-89 | the function has the tool's name, description and input schema |
| FunctionExecutor.ArgumentsMap | ai-exploration-app/src/main/java/com/aiexploration/chat/service/McpFunctionExecutor.java:104-107 | readValue of the text "null" is a null map, and any other parsed value is the map itself |
| FunctionExecutor.ArgumentsSent | src/main/java/com/aiexploration/chat/service/McpClientService.java:134-137 | argument text that reads as null reaches the server as an empty arguments map; any other map is sent as parsed |
| FunctionExecutor.McpFunctionExecutor.LoadAllTools | ai-exploration-app/src/main/java/com/aiexploration/chat/service/McpFunctionExecutor.java:49-58 | the registry becomes the old one with every listed tool put under its name, in getAllTools order |
| FunctionExecutor.McpFunctionExecutor.GetToolFunctions | ai-exploration-app/src/main/java/com/aiexploration/chat/service/McpFunctionExecutor.java:63-72 | reloads only when the registry is empty; one function per registry entry, converted from that entry |
| FunctionExecutor.McpFunctionExecutor.ExecuteTool | ai-exploration-app/src/main/java/com/aiexploration/chat/service/McpFunctionExecutor.java:94-157 | the arguments are parsed first, then the tool and its server are looked up; each failure has its message and no transport call; a success sends the parsed map (null for the text "null") and copies success, error and content from the client; the id and name are always the call's |
| FunctionExecutor.McpFunctionExecutor.ExecuteAll | ai-exploration-app/src/main/java/com/aiexploration/chat/service/McpFunctionExecutor.java:162-173 | one result per call, in order, each the result of its own call |
| FunctionExecutor.McpFunctionExecutor.RefreshTools | ai-exploration-app/src/main/java/com/aiexploration/chat/service/McpFunctionExecutor.java:178-182 | the registry equals a fresh load of the manager's tools |
| FunctionExecutor.ExecuteAllSplits | ai-exploration-app/src/main/java/com/aiexploration/chat/service/McpFunctionExecutor.java:162-173 | running a batch is running its parts one after the other, so one call's outcome does not affect another |
| ChatHistory.Filter | src/main/java/com/aiexploration/chat/service/HistorySummarizationService.java:63-66 | filtering never lengthens a list |
| ChatHistory.FilterMembers | src/main/java/com/aiexploration/chat/service/HistorySummarizationService.java:172-174 | what a filter keeps is exactly the elements that satisfy it |
| ChatHistory.FilterIdempotent | src/main/java/com/aiexploration/chat/service/HistorySummarizationService.java:85-88 | filtering twice with one predicate is filtering once |
| ChatHistory.BuildTranscript | src/main/java/com/aiexploration/chat/service/HistorySummarizationService.java:106-112 | the StringBuilder loop writes ROLE: content and a blank line per message, in order |
| ChatHistory.TranscriptAppend | src/main/java/com/aiexploration/chat/service/HistorySummarizationService.java:106-112 | the transcript of two runs of messages is their transcripts one after the other |
| ChatSummary.NeedsSummarization | src/main/java/com/aiexploration/chat/service/HistorySummarizationService.java:58-69 | false for null; otherwise true exactly when at least four user or assistant messages are not summaries |
| ChatSummary.FirstSummary | src/main/java/com/aiexploration/chat/service/HistorySummarizationService.java:237-246 | what is found is a summary of the history, and nothing is found only when no message is a summary |
| ChatSummary.FirstSummaryAt | src/main/java/com/aiexploration/chat/service/HistorySummarizationService.java:242-245 | the summary found is the first one |
| ChatSummary.FindExistingSummary | src/main/java/com/aiexploration/chat/service/HistorySummarizationService.java:237-246 | null for a null history, otherwise the first summary |
| ChatSummary.ExtractSummaryContent | src/main/java/com/aiexploration/chat/service/HistorySummarizationService.java:252-265 | the prefix is stripped when present; other content is returned unchanged; null content gives null |
| ChatSummary.NextUpdateCount | src/main/java/com/aiexploration/chat/service/HistorySummarizationService.java:196-198 | 1 without an earlier summary or when it has no updateCount; its Integer count plus one (wrapping); a NullPointerException for null metadata or a null count; a ClassCastException for a count that is not an Integer |
| ChatSummary.ApplySummary | src/main/java/com/aiexploration/chat/service/HistorySummarizationService.java:162-220 | below four conversation messages it throws and leaves the history as it was; otherwise the history becomes the rebuilt one and four is returned |
| ChatSummary.CreateSummary | src/main/java/com/aiexploration/chat/service/HistorySummarizationService.java:76-155 | null below the threshold; otherwise the model's answer to the prompt for the last four counted messages |
| ChatSummary.ToSummarizeSpec | src/main/java/com/aiexploration/chat/service/HistorySummarizationService.java:85-103 | a summary is requested exactly when one is needed, and it covers the last four counted messages in order |
| ChatSummary.ExtractRoundTrip | src/main/java/com/aiexploration/chat/service/HistorySummarizationService.java:202 | reading back the content applySummary writes gives the summary |
| ChatSummary.RebuiltParts | src/main/java/com/aiexploration/chat/service/HistorySummarizationService.java:206-210 | the rebuilt history is the non-summary system messages, the new summary, then the conversation less its last four |
| ChatSummary.Rebuilt | src/main/java/com/aiexploration/chat/service/HistorySummarizationService.java:162-220 | fewer than four conversation messages throw before a bad updateCount does; otherwise it succeeds exactly when updateCount can be read, with length #kept system + 1 + (#conversation - 4) and the new summary (flagged isSummary) right after the kept system messages |
| ChatSummary.SummaryMessageFlags | src/main/java/com/aiexploration/chat/service/HistorySummarizationService.java:191-204 | the written summary is a system message flagged isSummary |
| ChatSummary.OneSummaryAfterApply | src/main/java/com/aiexploration/chat/service/HistorySummarizationService.java:167-210 | after applySummary exactly one message is a summary |
| ChatSummary.NewSummaryFirst | src/main/java/com/aiexploration/chat/service/HistorySummarizationService.java:206-210 | the new summary follows the kept system messages, and findExistingSummary finds it |
| ChatSummary.SummariesStaySystem | src/main/java/com/aiexploration/chat/service/HistorySummarizationService.java:167-210 | no conversation message is a summary after applySummary |
| ChatSummary.CountersAfterApply | src/main/java/com/aiexploration/chat/service/HistorySummarizationService.java:181-198 | totalMessagesSummarized is the earlier total (0 when it is not an Integer) plus four; updateCount is the earlier one plus one, or 1 |
| ChatSummary.CountAfterApply | src/main/java/com/aiexploration/chat/service/HistorySummarizationService.java:172-178 | applySummary takes exactly four messages off the count needsSummarization uses |
| ChatSummary.NextPromptUpdates | src/main/java/com/aiexploration/chat/service/HistorySummarizationService.java:114-123 | the next request after a non-empty summary updates that summary's text |
| PerplexitySummary.NeedsSummarization | src/main/java/com/aiexploration/perplexity/service/HistorySummarizationService.java:36-46 | false for null; otherwise true exactly when there are at least ten user or assistant messages, earlier summaries included |
| PerplexitySummary.ApplySummary | src/main/java/com/aiexploration/perplexity/service/HistorySummarizationService.java:113-143 | below ten conversation messages it throws and leaves the history as it was; otherwise the history becomes the rebuilt one |
| PerplexitySummary.CreateSummary | src/main/java/com/aiexploration/perplexity/service/HistorySummarizationService.java:51-108 | null below ten; otherwise the model's answer to the request for the last ten conversation messages |
| PerplexitySummary.ToSummarizeSpec | src/main/java/com/aiexploration/perplexity/service/HistorySummarizationService.java:60-71 | a summary is requested exactly when one is needed, for the last ten conversation messages in order |
| PerplexitySummary.RebuiltShape | src/main/java/com/aiexploration/perplexity/service/HistorySummarizationService.java:128-142 | the new length is #system + (#conversation - 10) + 1; the last message is the flagged assistant summary with messageCount 10 |
| PerplexitySummary.Rebuilt | src/main/java/com/aiexploration/perplexity/service/HistorySummarizationService.java:113-143 | fails exactly below ten conversation messages; otherwise the system messages, then the conversation without its last ten, then the summary |
| PerplexitySummary.CountAfterApply | src/main/java/com/aiexploration/perplexity/service/HistorySummarizationService.java:119-142 | the appended summary counts as conversation, so the count drops by nine |
| PerplexitySummary.RebuiltKeepsOrigin | src/main/java/com/aiexploration/perplexity/service/HistorySummarizationService.java:115-130 | every message but the new summary was already in the history |
| Orchestration.ContentTextsMembers | ai-exploration-app/src/main/java/com/aiexploration/chat/service/DeepSeekService.java:268-273 | the texts joined are exactly the non-null "text" values of the map elements |
| Orchestration.FormatToolResultCases | ai-exploration-app/src/main/java/com/aiexploration/chat/service/DeepSeekService.java:258-278 | formatToolResult gives "null" for null, the texts of a content list joined by newlines ("" when it holds none), and String.valueOf of anything else |
| Orchestration.ToolMessages | ai-exploration-app/src/main/java/com/aiexploration/chat/service/DeepSeekService.java:160-172 | one tool message per executed call, in order, each answering its call's id |
| Orchestration.AppendToolMessages | ai-exploration-app/src/main/java/com/aiexploration/chat/service/DeepSeekService.java:160-172 | the loop over the executed calls appends exactly their tool messages, in order |
| Orchestration.ToolMessagesAnswerCalls | ai-exploration-app/src/main/java/com/aiexploration/chat/service/DeepSeekService.java:156-172 | with executeAll as the bridge, the i-th tool message answers the i-th call |
| Orchestration.ConvertToChatMessages | ai-exploration-app/src/main/java/com/aiexploration/chat/service/DeepSeekService.java:280-291 | the loop keeps the user and assistant entries of the history |
| Orchestration.ChatMessagesOfAppend | ai-exploration-app/src/main/java/com/aiexploration/chat/service/DeepSeekService.java:280-291 | converting two runs of history is converting each |
| Orchestration.ChatMessagesOfSpec | ai-exploration-app/src/main/java/com/aiexploration/chat/service/DeepSeekService.java:280-291 | one message per user or assistant entry, in order, carrying its content |
| Orchestration.ChatMessagesOfKinds | ai-exploration-app/src/main/java/com/aiexploration/chat/service/DeepSeekService.java:280-291 | no system or tool message comes out of a history |
| Orchestration.RunLoop | ai-exploration-app/src/main/java/com/aiexploration/chat/service/DeepSeekService.java:106-180 | the while loop reaches the state of the loop function: conversation, last reply, all tool calls |
| Orchestration.LoopSteps | ai-exploration-app/src/main/java/com/aiexploration/chat/service/DeepSeekService.java:109-179 | every call but the last is a tool turn; one call per tool turn, plus the one that ended the loop before the limit |
| Orchestration.LoopGrowth | ai-exploration-app/src/main/java/com/aiexploration/chat/service/DeepSeekService.java:152-175 | the conversation gains exactly the tool turns made and allToolCalls exactly their results, in order |
| Orchestration.LoopRequests | ai-exploration-app/src/main/java/com/aiexploration/chat/service/DeepSeekService.java:113-135 | each request sends the conversation built so far |
| Orchestration.AtMostLimitCalls | ai-exploration-app/src/main/java/com/aiexploration/chat/service/DeepSeekService.java:109 | the model is called at most max(K, 0) times |
| Orchestration.AllToolTurns | ai-exploration-app/src/main/java/com/aiexploration/chat/service/DeepSeekService.java:109-176 | when every reply is a tool turn the model is called exactly K times and the last reply is kept |
| Orchestration.LastReply | ai-exploration-app/src/main/java/com/aiexploration/chat/service/DeepSeekService.java:135 | a run ends holding the reply of its last call |
| Orchestration.EmptyToolCallsStop | ai-exploration-app/src/main/java/com/aiexploration/chat/service/DeepSeekService.java:141-148 | tool_calls without calls stops the loop with nothing executed and the conversation unchanged |
| Orchestration.ToolsOnEveryCall | ai-exploration-app/src/main/java/com/aiexploration/chat/service/DeepSeekService.java:119-130 | every request offers the executor's tools, when it has any |
| Orchestration.ExecutedNonEmpty | ai-exploration-app/src/main/java/com/aiexploration/chat/service/DeepSeekService.java:156-157 | some call was executed exactly when a tool turn happened |
| Orchestration.UsageOf | ai-exploration-app/src/main/java/com/aiexploration/chat/service/DeepSeekService.java:209-213 | missing usage gives zeros |
| Orchestration.Response | ai-exploration-app/src/main/java/com/aiexploration/chat/service/DeepSeekService.java:186-252 | hadToolCalls and toolCalls report allToolCalls (null when empty); content and finish reason come from the last reply, or "" and "unknown" without one |
| Orchestration.NoIterationThrows | ai-exploration-app/src/main/java/com/aiexploration/chat/service/DeepSeekService.java:186-212 | with K <= 0 and function calling the response as written throws; the corrected one is the fallback |
| Orchestration.ResponsesAgree | ai-exploration-app/src/main/java/com/aiexploration/chat/service/DeepSeekService.java:186-252 | with a reply the corrected response is the one written |
| Orchestration.ResponseAsWritten | ai-exploration-app/src/main/java/com/aiexploration/chat/service/DeepSeekService.java:186-213 | as written it throws exactly when no reply exists; with one, content, finish reason and usage are the reply's and tool calls are reported exactly when some were made |
| Orchestration.ChatResult | ai-exploration-app/src/main/java/com/aiexploration/chat/service/DeepSeekService.java:103-213 | without function calling a single reply's content, finish reason and usage and no tool calls; with it and a limit of 0 or less the fallback response; with it, tool calls are reported exactly when the loop executed some |
| Orchestration.ChatResultToolCalls | ai-exploration-app/src/main/java/com/aiexploration/chat/service/DeepSeekService.java:156-251 | hadToolCalls exactly when a tool turn happened; when every reply is a tool turn the content and finish reason are the last reply's |
| Orchestration.BuildConversation | ai-exploration-app/src/main/java/com/aiexploration/chat/service/DeepSeekService.java:74-90 | the conversation starts with the custom prompt when the prompt type is "custom" and the prompt is not blank, then the converted history, then the user's message |
| Orchestration.InitialMessages | ai-exploration-app/src/main/java/com/aiexploration/chat/service/DeepSeekService.java:74-90 | the user's message comes last; the custom prompt is the first message when it applies; the only system message is that one, and no tool message is sent |
| Orchestration.Chat | ai-exploration-app/src/main/java/com/aiexploration/chat/service/DeepSeekService.java:56-253 | the response is that of the conversation built from the prompt, the history and the message; the history gains exactly the user message and the final content |
| WeatherCode.Description | mcp-weather-server/src/main/java/com/aiexploration/mcp/weather/util/WeatherCodeUtil.java:15-47 | a listed code has its text, any other int "Unknown (" + code + ")" |
| WeatherCode.ListedCodes | mcp-weather-server/src/main/java/com/aiexploration/mcp/weather/util/WeatherCodeUtil.java:16-44 | exactly the 28 codes of the table have a text of their own |
| WeatherCode.ListedNotUnknown | mcp-weather-server/src/main/java/com/aiexploration/mcp/weather/util/WeatherCodeUtil.java:16-45 | no listed text starts like the text of an unlisted code |
| WeatherCode.DescriptionInjective | mcp-weather-server/src/main/java/com/aiexploration/mcp/weather/util/WeatherCodeUtil.java:15-47 | different codes have different descriptions |
| WeatherCode.ListedTextsDistinct | mcp-weather-server/src/main/java/com/aiexploration/mcp/weather/util/WeatherCodeUtil.java:16-44 | the texts of the table are pairwise different |
| WeatherCode.IconRangesDisjoint | mcp-weather-server/src/main/java/com/aiexploration/mcp/weather/util/WeatherCodeUtil.java:55-66 | the icon ranges do not overlap |
| WeatherCode.IconOf | mcp-weather-server/src/main/java/com/aiexploration/mcp/weather/util/WeatherCodeUtil.java:55-66 | a code gets the icon of the range of the table holding it, and the thermometer exactly when no range holds it |
| WeatherCode.ListedHaveIcons | mcp-weather-server/src/main/java/com/aiexploration/mcp/weather/util/WeatherCodeUtil.java:16-64 | every listed code gets an icon other than the default |
| WeatherCode.IconWithoutDescription | mcp-weather-server/src/main/java/com/aiexploration/mcp/weather/util/WeatherCodeUtil.java:58 | the converse fails: 46 gets the fog icon but is unknown to the table |
| WeatherTools.GetTools | mcp-weather-server/src/main/java/com/aiexploration/mcp/weather/service/McpToolService.java:28-100 | the list is the catalogue |
| WeatherTools.CatalogShape | mcp-weather-server/src/main/java/com/aiexploration/mcp/weather/service/McpToolService.java:28-100 | three tools named search_location, get_current_weather and get_weather_forecast, in that order, with required ["name"], ["latitude","longitude"] and ["latitude","longitude"] |
| WeatherTools.DefinitionReadBack | mcp-weather-server/src/main/java/com/aiexploration/mcp/weather/service/McpToolService.java:28-100 | the MCP client reads a listed tool back with its name, description and schema, tagged with the server's id |
| WeatherTools.StringArg | mcp-weather-server/src/main/java/com/aiexploration/mcp/weather/service/McpToolService.java:122 | a null arguments map throws; an absent or null value is null; a string is read as itself; any other value fails the String cast |
| WeatherTools.NumberArg | mcp-weather-server/src/main/java/com/aiexploration/mcp/weather/service/McpToolService.java:139 | a null arguments map throws; an absent or null value fails the unboxing; a number is read as its value; any other value fails the Number cast |
| WeatherTools.IntArg | mcp-weather-server/src/main/java/com/aiexploration/mcp/weather/service/McpToolService.java:123-124 | a null arguments map throws; an absent key gives the default; a null value fails the unboxing; a number gives its intValue; any other value fails the Number cast |
| WeatherTools.FormatLocationsResponse | mcp-weather-server/src/main/java/com/aiexploration/mcp/weather/service/McpToolService.java:194-236 | the StringBuilder loop yields the locations report |
| WeatherTools.LocationEntriesNumbered | mcp-weather-server/src/main/java/com/aiexploration/mcp/weather/service/McpToolService.java:202-233 | the entries are the locations' entries in order, numbered from 1 |
| WeatherTools.LocationEntryStartsWithNumber | mcp-weather-server/src/main/java/com/aiexploration/mcp/weather/service/McpToolService.java:204 | each entry starts with its number, a dot and a space |
| WeatherTools.LocationsText | mcp-weather-server/src/main/java/com/aiexploration/mcp/weather/service/McpToolService.java:194-236 | "No locations found" exactly for a null or empty list; otherwise "Found N location(s):" for the N locations, then their entries in order, the i-th numbered i + 1 |
| WeatherTools.CurrentConditions | mcp-weather-server/src/main/java/com/aiexploration/mcp/weather/service/McpToolService.java:268-271 | the current report has a conditions line exactly when the weather code is present |
| WeatherTools.CurrentWeatherText | mcp-weather-server/src/main/java/com/aiexploration/mcp/weather/service/McpToolService.java:238-291 | the current report is its pieces in the order the builder appends them, opening with the title "Current Weather" and its rule |
| WeatherTools.CurrentReportText | mcp-weather-server/src/main/java/com/aiexploration/mcp/weather/service/McpToolService.java:238-291 | the report text is the opening lines, the conditions line exactly when the weather code is known, then the humidity, precipitation and wind lines |
| WeatherTools.DayBlocks | mcp-weather-server/src/main/java/com/aiexploration/mcp/weather/service/McpToolService.java:309-339 | one block per day, in order |
| WeatherTools.FormatForecastResponse | mcp-weather-server/src/main/java/com/aiexploration/mcp/weather/service/McpToolService.java:293-342 | the StringBuilder loop yields the forecast report, or the fault of the first day whose code is null |
| WeatherTools.FormatDay | mcp-weather-server/src/main/java/com/aiexploration/mcp/weather/service/McpToolService.java:310-338 | a day's block, or the fault when its code is null |
| WeatherTools.FirstNullCodeSpec | mcp-weather-server/src/main/java/com/aiexploration/mcp/weather/service/McpToolService.java:312-313 | a null code is found exactly when some day in range has one, and it is the first |
| WeatherTools.ForecastText | mcp-weather-server/src/main/java/com/aiexploration/mcp/weather/service/McpToolService.java:293-342 | the report fails exactly when a day in range has a null code, with the earliest such day; otherwise it is exactly the header followed by the day blocks in order (DayBlocks gives one block per day) |
| WeatherTools.ForecastDayStartsWithDate | mcp-weather-server/src/main/java/com/aiexploration/mcp/weather/service/McpToolService.java:310 | every block starts with its date and a colon |
| WeatherTools.DispatchMatchesCatalog | mcp-weather-server/src/main/java/com/aiexploration/mcp/weather/service/McpToolService.java:109-113 | the names executeTool knows are the catalogue's |
| WeatherTools.ExecuteTool | mcp-weather-server/src/main/java/com/aiexploration/mcp/weather/service/McpToolService.java:105-119 | never an exception: a content list or an error member; "Unknown tool: " + name exactly for an unknown name; a tool's exception becomes "Tool execution failed: " + its message; a tool's result is passed on |
| WeatherTools.SearchLocation | mcp-weather-server/src/main/java/com/aiexploration/mcp/weather/service/McpToolService.java:121-137 | the name is read before the count, each read's exception is the call's, the count defaults to 5, and the locations found for them are reported as one text content |
| WeatherTools.GetCurrentWeather | mcp-weather-server/src/main/java/com/aiexploration/mcp/weather/service/McpToolService.java:139-164 | the latitude is read before the longitude, each read's exception is the call's; with both it always succeeds: the no-data text for a null response or null current block, else the current report |
| WeatherTools.GetWeatherForecast | mcp-weather-server/src/main/java/com/aiexploration/mcp/weather/service/McpToolService.java:166-192 | the coordinates are read before the days (7 by default); a null response or daily block gives the no-data text; otherwise the forecast report, whose null-code exception is the call's |
| WeatherTools.ArgumentDefaults | mcp-weather-server/src/main/java/com/aiexploration/mcp/weather/service/McpToolService.java:123-169 | count defaults to 5 and days to 7 |
| WeatherTools.MissingLatitude | mcp-weather-server/src/main/java/com/aiexploration/mcp/weather/service/McpToolService.java:139-166 | a weather call without a latitude fails with the exception's message |
| WeatherTools.ToolTextReachesModel | mcp-weather-server/src/main/java/com/aiexploration/mcp/weather/service/McpToolService.java:128-135 | the chat application's formatToolResult reads a tool's text back unchanged |
| WeatherTools.ToolErrorReachesModel | mcp-weather-server/src/main/java/com/aiexploration/mcp/weather/service/McpToolService.java:113-117 | an error result reaches the model as "{error=" + message + "}" |
| WeatherServer.ThrownMessage | mcp-weather-server/src/main/java/com/aiexploration/mcp/weather/controller/McpServerController.java:128-140 | the controller's own exceptions say "Missing params" and "Missing tool name" |
| WeatherServer.DefinitionsJson | mcp-weather-server/src/main/java/com/aiexploration/mcp/weather/controller/McpServerController.java:115-124 | one JSON definition per tool, in order |
| WeatherServer.McpServerController.constructor | mcp-weather-server/src/main/java/com/aiexploration/mcp/weather/controller/McpServerController.java:26-27 | a new controller has no sessions |
| WeatherServer.McpServerController.HandleMcpRequest | mcp-weather-server/src/main/java/com/aiexploration/mcp/weather/controller/McpServerController.java:34-95 | the reply is the function's; only an initialize enters its new session id, mapped to itself |
| WeatherServer.Respond | mcp-weather-server/src/main/java/com/aiexploration/mcp/weather/controller/McpServerController.java:50-94 | status 200, jsonrpc "2.0", the request's id and exactly one of a result and an error; -32603 exactly for an exception, -32601 exactly for an unknown method; a session header, the new id, only on a successful initialize |
| WeatherServer.MethodNotFoundExactly | mcp-weather-server/src/main/java/com/aiexploration/mcp/weather/controller/McpServerController.java:42-59 | -32601 exactly for a method other than the four, with "Method not found: " + method |
| WeatherServer.InternalErrorExactly | mcp-weather-server/src/main/java/com/aiexploration/mcp/weather/controller/McpServerController.java:84-94 | -32603 exactly when a handler throws, with "Internal error: " + the message |
| WeatherServer.Dispatch | mcp-weather-server/src/main/java/com/aiexploration/mcp/weather/controller/McpServerController.java:42-48 | a null method throws; only a null method and tools/call can throw; no result exactly for a method outside the four; initialize, tools/list and ping give their handler's result, tools/call the outcome of handleToolsCall |
| WeatherServer.Reply | mcp-weather-server/src/main/java/com/aiexploration/mcp/weather/controller/McpServerController.java:34-95 | the reply carries a result exactly when the switch produced one, and it is that result |
| WeatherServer.SessionHeaderOnInitialize | mcp-weather-server/src/main/java/com/aiexploration/mcp/weather/controller/McpServerController.java:62-76 | only an initialize reply has Mcp-Session-Id, and it is the session entered |
| WeatherServer.ToolsCallRejects | mcp-weather-server/src/main/java/com/aiexploration/mcp/weather/controller/McpServerController.java:129-140 | null params, a missing name or a name that is not a string make tools/call throw |
| WeatherServer.ToolsCallRuns | mcp-weather-server/src/main/java/com/aiexploration/mcp/weather/controller/McpServerController.java:134-142 | a string name runs the tool on the arguments, {} when absent and null when null |
| WeatherServer.ToolsCall | mcp-weather-server/src/main/java/com/aiexploration/mcp/weather/controller/McpServerController.java:126-143 | missing params throw; it succeeds exactly when the name is a string and the arguments are absent, null or an object, and then it is executeTool on that name and those arguments; a name of another type throws the cast exception |
| WeatherServer.InitializeResult | mcp-weather-server/src/main/java/com/aiexploration/mcp/weather/controller/McpServerController.java:97-113 | protocolVersion "2024-11-05", capabilities.tools.listChanged false, serverInfo weather-mcp-server 1.0.0 |
| WeatherServer.PingResult | mcp-weather-server/src/main/java/com/aiexploration/mcp/weather/controller/McpServerController.java:145-148 | ping answers an object with the single member status "ok" |
| WeatherServer.ToolsListResult | mcp-weather-server/src/main/java/com/aiexploration/mcp/weather/controller/McpServerController.java:115-124 | the tools member lists one definition per catalogue tool, in catalogue order |
| WeatherServer.DefinitionsReadBack | mcp-weather-server/src/main/java/com/aiexploration/mcp/weather/controller/McpServerController.java:115-124 | the client reads listed definitions back one for one, in order |
| WeatherServer.ToolsListReadBack | mcp-weather-server/src/main/java/com/aiexploration/mcp/weather/controller/McpServerController.java:115-124 | the client reads the tools/list result back as the catalogue, in order |
| WeatherServer.EnvelopeToolNodes | mcp-weather-server/src/main/java/com/aiexploration/mcp/weather/controller/McpServerController.java:78-82 | a result reply without an error member is read by the client through its result's tools member |
| WeatherServer.ClientListsCatalog | mcp-weather-server/src/main/java/com/aiexploration/mcp/weather/controller/McpServerController.java:115-124 | the MCP client's listTools reads a reply carrying the tools/list result as the whole catalogue, in order, tagged with the server's id |
| McpConfig.AuthHeaders | src/main/java/com/aiexploration/chat/config/McpConfig.java:42-45 | an Authorization bearer header exactly when an API key is set |
| McpConfig.DefaultMcpServer | src/main/java/com/aiexploration/chat/config/McpConfig.java:36-56 | null unless enabled with a non-empty URL; otherwise id "default", enabled, the URL, the name or "Default MCP Server", the headers, created now |
| McpConfig.DefaultServerPrepared | src/main/java/com/aiexploration/chat/config/McpConfig.java:47-55 | addServer accepts the default server as it is |
| McpConfig.DefaultServerAuthorization | src/main/java/com/aiexploration/chat/config/McpConfig.java:42-45 | every request to the default server carries the bearer token exactly when a key is set |
| FunctionExecutor.McpFunctionExecutor.constructor | ai-exploration-app/src/main/java/com/aiexploration/chat/service/McpFunctionExecutor.java:32-42 | a new executor has an empty registry and keeps the manager it is given |

## Left out

- HTTP transport: RestTemplate is a function from request to outcome (status line, headers and body text, or an exception message). Timeouts, retries and connection reuse are not modelled.
- JSON-RPC ids: the random UUID of each client request is a parameter. The client never reads the id of a reply.
- Jackson parsing: readTree and readValue are a parser parameter that returns a tree or an exception message.
- Jackson binding of the server's JsonRpcRequest: an id or method that is not a string is not modelled. The id is kept as a string.
- Jackson serialisation: the model assumes that the null members of JsonRpcResponse are left out of the JSON text (WeatherServer.ResultEnvelope has no error member). This is the configuration the client relies on: were a null error written as "error": null, has("error") at McpClientService.java:57, 92 and 147 would be true for every successful reply. The member order of the results built with HashMap, and of the maps built with Map.of (the input schemas and content maps of McpToolService, the request params of McpClientService), is not modelled either: both orders are unspecified in Java, and the model orders members as the code lists them.
- Jackson parsing of repeated member names: Jackson keeps the last, Json.Lookup the first. The parser parameter is assumed to yield objects with distinct names (Json.DistinctKeys), for which the two agree (Json.LookupDistinct).
- JVM exception messages: the messages of NullPointerException and ClassCastException are oracle functions.
- Floating-point text: JSON numbers are real numbers. Their decimal text (String.format and Double.toString) is the `NumberText` parameter, so `%.1f` rounding is not modelled.
- OpenMeteoClient: a parameter giving a response or an error for each query. Its argument clamps happen inside it.
- The language model: the DeepSeek client is a script from call number to completion. The model name, temperature and token limit sent with each request are not modelled.
- Orchestration.RunLoop: the tools offered on each iteration are one fixed list per run. A failure of getToolFunctions inside the loop is not modelled.
- Orchestration.Chat: the auto-summarisation step at lines 222-239 of DeepSeekService.java is not modelled. It calls the chat application's own HistorySummarizationService, and ai-exploration-app/src/main/java/com/aiexploration/chat/service/HistorySummarizationService.java is not part of this model. The chat stops once the user message and the answer are appended to the history.
- Orchestration.Chat: with function calling and a limit of zero or less it returns the corrected fallback response and appends both messages to the history. The source instead throws at line 210 of DeepSeekService.java, before lines 215-218 touch the history. That as-written outcome is stated by Orchestration.NoIterationThrows (see Findings).
- Strings.Upper and Strings.EqualsIgnoreCase: case mapping is ASCII only. Java's locale-sensitive Unicode mapping is not modelled: "ß".toUpperCase() is "SS", and equalsIgnoreCase matches 'ſ' with 's'. The roles, header names and the "custom" prompt type the code compares are ASCII.
- Clock values and generated session ids are parameters. Execution timings (executionTimeMs) are not modelled.
- Concurrency: the ConcurrentHashMap fields are plain maps, and every method runs alone.
- Logging is not modelled.
- Prompt texts are not modelled: the summarisers' prompts are constructors carrying the transcript and the existing summary.
- WeatherCode icons: the emoji strings of getIcon are the constructors of `Icon`.
- The weather server's GET /mcp/health endpoint is not modelled, and neither is the incoming Mcp-Session-Id header, which the controller only logs.
- McpServerManager.getAllServers is a read of the configuration map and has no member of its own.
- McpFunctionExecutor.initialize: the @PostConstruct hook only calls loadAllTools, which is modelled.
- WeatherTools.StringArg, WeatherTools.NumberArg and WeatherTools.IntArg: a cast of a value of another JSON type is an exception whose message is the oracle's.

## Findings

| source | as written | input that shows it | evidently intended | confidence | as-written member | corrected member |
|---|---|---|---|---|---|---|
| ai-exploration-app/src/main/java/com/aiexploration/chat/service/DeepSeekService.java:186-212 | when the loop makes no call, finalResult stays null; lines 187-188 fall back for content and finish reason, but line 210 reads finalResult.getUsage() and throws a NullPointerException | enableFunctionCalling true with maxFunctionCallingIterations 0 | the fallback response: empty content, finish reason "unknown", zero token counts | not executed | Orchestration.NoIterationThrows | Orchestration.Response |
