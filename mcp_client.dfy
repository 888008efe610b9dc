/** McpClientService: the client side of the MCP wire protocol. It builds JSON-RPC
    envelopes and the outgoing headers, sends them through a transport, decodes
    event-stream bodies, and maps each JSON-RPC reply to a result. HTTP and JSON
    parsing are oracles passed in by the caller. */
module McpClient {
  import opened Wrappers
  import opened Strings
  import opened Json
  import opened McpTypes

  const SessionHeaderName := "Mcp-Session-Id"
  const ProtocolVersion := "2024-11-05"
  const DataPrefix := "data: "
  const JsonMediaType := "application/json"
  const AcceptList := "application/json, text/event-stream"

  /** A parsed media type, type and subtype in lower case (parameters dropped). */
  datatype MediaType = MediaType(mtype: string, subtype: string)

  const EventStream := MediaType("text", "event-stream")

  /** MimeType.includes, for an argument without a structured-syntax suffix: the
      wildcard type includes everything, a wildcard subtype every subtype of its type. */
  predicate Includes(t: MediaType, other: MediaType) {
    t.mtype == "*" || (t.mtype == other.mtype && (t.subtype == "*" || t.subtype == other.subtype))
  }

  /** What the transport is asked to send: the server URL, the header lines and the
      JSON-RPC method with its params. The random request id is not part of it (see
      Envelope): the client never reads the id of a reply. */
  datatype HttpRequest = HttpRequest(url: string, headers: seq<Header>, rpcMethod: string, params: Json)

  /** What RestTemplate.postForEntity yields: a 2xx response, or the message of the
      exception it throws (I/O failure, timeout, non-2xx status). */
  datatype HttpOutcome =
    | HttpResponse(contentType: Option<MediaType>, headers: seq<Header>, body: Option<string>)
    | HttpError(message: Option<string>)

  /** RestTemplate: the network, as an oracle. */
  type Transport = HttpRequest -> HttpOutcome

  /** ObjectMapper.readTree on a body that may be null: the tree or the exception's message. */
  type Parser = Option<string> -> Result<Json, Option<string>>

  // ---------------------------------------------------------------------------
  // Event-stream bodies (parseSseResponse)

  /** What one line of an event-stream body contributes: the trimmed rest of a
      line that starts with "data: ", nothing for any other line. */
  function DataOf(line: string): string {
    if StartsWith(line, DataPrefix) then Trim(line[|DataPrefix|..]) else ""
  }

  /** What each line contributes, line by line. */
  function DataParts(lines: seq<string>): (r: seq<string>)
    ensures |r| == |lines| && forall i :: 0 <= i < |lines| ==> r[i] == DataOf(lines[i])
  {
    seq(|lines|, i requires 0 <= i < |lines| => DataOf(lines[i]))
  }

  /** The in-order concatenation of what the lines contribute. */
  function DataPayload(lines: seq<string>): string {
    Concat(DataParts(lines))
  }

  /** The JSON text parseSseResponse extracts from an event-stream body; "{}" when
      the body is null or empty or carries no data. */
  function SseDecode(sse: Option<string>): (r: string)
    ensures r != ""
    ensures sse.None? || sse == Some("") ==> r == "{}"
  {
    if sse.None? || sse.value == "" then "{}"
    else
      var d := DataPayload(JavaSplit(sse.value, '\n'));
      if d == "" then "{}" else d
  }

  /** The data of two runs of lines, one after the other. */
  lemma DataPayloadAppend(a: seq<string>, b: seq<string>)
    ensures DataPayload(a + b) == DataPayload(a) + DataPayload(b)
  {
    assert DataParts(a + b) == DataParts(a) + DataParts(b);
    ConcatAppend(DataParts(a), DataParts(b));
  }

  /** A single line contributes its data. */
  lemma DataPayloadSingle(line: string)
    ensures DataPayload([line]) == DataOf(line)
  {
    var d := DataOf(line);
    assert DataParts([line]) == [d];
    assert Concat([d]) == Concat([]) + d;
  }

  lemma DataPayloadStep(lines: seq<string>, i: nat)
    requires i < |lines|
    ensures DataPayload(lines[..i + 1]) == DataPayload(lines[..i]) + DataOf(lines[i])
  {
    var line := lines[i];
    assert lines[..i + 1] == lines[..i] + [line];
    DataPayloadAppend(lines[..i], [line]);
    DataPayloadSingle(line);
  }

  /** parseSseResponse: loops over the lines of the body, appending the data of every data line. */
  method ParseSseResponse(sse: Option<string>) returns (r: string)
    ensures r == SseDecode(sse)
  {
    if sse.None? || sse.value == "" {
      return "{}";
    }
    var lines := JavaSplit(sse.value, '\n');
    var jsonData := "";
    var i := 0;
    while i < |lines|
      invariant 0 <= i <= |lines|
      invariant jsonData == DataPayload(lines[..i])
    {
      var line := lines[i];
      DataPayloadStep(lines, i);
      if StartsWith(line, DataPrefix) {
        var data := Trim(line[|DataPrefix|..]);
        jsonData := jsonData + data;
      }
      i := i + 1;
    }
    assert lines[..i] == lines;
    r := if jsonData == "" then "{}" else jsonData;
  }

  /** Empty lines contribute nothing, so the trailing empty lines String.split drops do not matter. */
  lemma DataPayloadTrailingEmpty(lines: seq<string>, k: nat)
    requires k <= |lines|
    requires forall i :: k <= i < |lines| ==> lines[i] == ""
    ensures DataPayload(lines[..k]) == DataPayload(lines)
  {
    assert lines == lines[..k] + lines[k..];
    DataPayloadAppend(lines[..k], lines[k..]);
    ConcatOfEmpty(DataParts(lines[k..]));
  }

  /** The data of an event-stream body is that of all its lines, trailing empty ones included. */
  lemma DataPayloadOfSplit(s: string)
    ensures DataPayload(JavaSplit(s, '\n')) == DataPayload(SplitOn(s, '\n'))
  {
    var all := SplitOn(s, '\n');
    DataPayloadTrailingEmpty(all, |JavaSplit(s, '\n')|);
  }

  /** Frames each fragment as a data line. */
  function DataLines(fragments: seq<string>): (r: seq<string>)
    ensures |r| == |fragments|
    ensures forall i :: 0 <= i < |r| ==> r[i] == DataPrefix + fragments[i]
  {
    if fragments == [] then [] else DataLines(fragments[..|fragments| - 1]) + [DataPrefix + fragments[|fragments| - 1]]
  }

  /** The data of framed fragments is their concatenation, when no fragment has
      whitespace at either end. */
  lemma DataPayloadOfDataLines(fragments: seq<string>)
    requires forall i :: 0 <= i < |fragments| ==> TrimStable(fragments[i])
    ensures DataPayload(DataLines(fragments)) == Concat(fragments)
  {
    var lines := DataLines(fragments);
    forall i | 0 <= i < |fragments| ensures DataOf(lines[i]) == fragments[i] {
      assert StartsWith(lines[i], DataPrefix);
      assert lines[i][|DataPrefix|..] == fragments[i];
      TrimOfStable(fragments[i]);
    }
    assert DataParts(lines) == fragments;
  }

  /** A body made of data lines, one per fragment, decodes to the concatenation of
      the fragments: the document is the same as if it had been sent raw. */
  lemma SseFramingRoundTrip(fragments: seq<string>)
    requires |fragments| >= 1
    requires forall i :: 0 <= i < |fragments| ==> '\n' !in fragments[i] && TrimStable(fragments[i])
    requires Concat(fragments) != ""
    ensures SseDecode(Some(Join(DataLines(fragments), '\n'))) == Concat(fragments)
  {
    var body := Join(DataLines(fragments), '\n');
    assert body != "" by {
      assert DataLines(fragments)[0] == DataPrefix + fragments[0];
      JoinNonEmpty(DataLines(fragments), '\n');
    }
    assert DataPayload(JavaSplit(body, '\n')) == Concat(fragments) by {
      FramedPayload(fragments);
    }
    SseDecodeOfData(body);
  }

  /** A non-empty body decodes to its data when it has some. */
  lemma SseDecodeOfData(body: string)
    requires body != ""
    ensures DataPayload(JavaSplit(body, '\n')) != "" ==> SseDecode(Some(body)) == DataPayload(JavaSplit(body, '\n'))
  {
  }

  /** Joining runs whose first is not empty gives a text that is not empty. */
  lemma JoinNonEmpty(pieces: seq<string>, sep: char)
    requires |pieces| > 0 && pieces[0] != ""
    ensures Join(pieces, sep) != ""
  {
    if |pieces| > 1 {
      assert Join(pieces, sep) == pieces[0] + [sep] + Join(pieces[1..], sep);
    }
  }

  /** The data of a body of framed fragments is their concatenation. */
  lemma FramedPayload(fragments: seq<string>)
    requires |fragments| >= 1
    requires forall i :: 0 <= i < |fragments| ==> '\n' !in fragments[i] && TrimStable(fragments[i])
    ensures DataPayload(JavaSplit(Join(DataLines(fragments), '\n'), '\n')) == Concat(fragments)
  {
    var lines := DataLines(fragments);
    var body := Join(lines, '\n');
    assert SplitOn(body, '\n') == lines by {
      DataLinesWithoutNewline(fragments);
      SplitOnJoin(lines, '\n');
    }
    DataPayloadOfSplit(body);
    DataPayloadOfDataLines(fragments);
  }

  /** Framing keeps fragments without line breaks free of line breaks. */
  lemma DataLinesWithoutNewline(fragments: seq<string>)
    requires forall i :: 0 <= i < |fragments| ==> '\n' !in fragments[i]
    ensures forall i :: 0 <= i < |fragments| ==> '\n' !in DataLines(fragments)[i]
  {
    var lines := DataLines(fragments);
    forall i | 0 <= i < |lines| ensures '\n' !in lines[i] {
      assert lines[i] == DataPrefix + fragments[i];
    }
  }

  /** A single data line carrying a non-empty payload without whitespace at its ends
      decodes to that payload. */
  lemma SseSingleLine(payload: string)
    requires payload != "" && '\n' !in payload && TrimStable(payload)
    ensures SseDecode(Some(DataPrefix + payload)) == payload
  {
    assert DataLines([payload]) == [DataPrefix + payload];
    assert Concat([payload]) == payload;
    SseFramingRoundTrip([payload]);
  }

  /** A line that is not a data line (an "event:" line, a comment, "data:" without the
      space) adds nothing to what the rest of the body decodes to. */
  lemma SseIgnoresOtherLine(line: string, rest: string)
    requires '\n' !in line && !StartsWith(line, DataPrefix)
    ensures SseDecode(Some(line + "\n" + rest)) == SseDecode(Some(rest))
  {
    var body := line + "\n" + rest;
    var tail := SplitOn(rest, '\n');
    assert DataPayload(JavaSplit(body, '\n')) == DataPayload(JavaSplit(rest, '\n')) by {
      assert body == line + ['\n'] + rest;
      SplitOnPrefix(line, '\n', rest);
      DataPayloadOfSplit(body);
      DataPayloadOfSplit(rest);
      DataPayloadAppend([line], tail);
      DataPayloadSingle(line);
    }
    if rest == "" {
      assert DataPayload(JavaSplit(rest, '\n')) == "" by {
        DataPayloadOfSplit(rest);
        assert tail == [""];
        DataPayloadSingle("");
      }
    }
  }

  // ---------------------------------------------------------------------------
  // Outgoing requests (buildJsonRpcRequest, sendJsonRpcRequestWithResponse)

  /** The JSON-RPC 2.0 envelope sent for a method, with the caller's random id. */
  function Envelope(id: string, rpcMethod: string, params: Json): (r: Json)
    ensures Get(r, "jsonrpc") == Some(JStr("2.0"))
    ensures Get(r, "id") == Some(JStr(id))
    ensures Get(r, "method") == Some(JStr(rpcMethod))
    ensures Get(r, "params") == Some(params)
  {
    var fields := [Field("jsonrpc", JStr("2.0")), Field("id", JStr(id)), Field("method", JStr(rpcMethod)), Field("params", params)];
    assert Lookup(fields, "jsonrpc") == Some(JStr("2.0")) by { LookupFirst(fields, 0, "jsonrpc"); }
    assert Lookup(fields, "id") == Some(JStr(id)) by { LookupFirst(fields, 1, "id"); }
    assert Lookup(fields, "method") == Some(JStr(rpcMethod)) by { LookupFirst(fields, 2, "method"); }
    assert Lookup(fields, "params") == Some(params) by {
      assert "method" != "params" by { assert "method"[0] != "params"[0]; }
      LookupFirst(fields, 3, "params");
    }
    JObj(fields)
  }

  /** The envelope that goes on the wire for a request given to the transport. */
  function WireBody(request: HttpRequest, id: string): Json {
    Envelope(id, request.rpcMethod, request.params)
  }

  /** The header lines of every request, in the order HttpHeaders holds them. */
  function RequestHeaders(config: ServerConfig): seq<Header> {
    FixedHeaders()
    + (if config.sessionId != "" then [Header(SessionHeaderName, config.sessionId)] else [])
    + config.headers
  }

  /** Header building in sendJsonRpcRequestWithResponse: content type and accept list,
      the session header when a session id is known, then every static header. */
  method BuildHeaders(config: ServerConfig) returns (headers: seq<Header>)
    ensures headers == RequestHeaders(config)
  {
    headers := [Header("Content-Type", JsonMediaType)];
    headers := headers + [Header("Accept", AcceptList)];
    if config.sessionId != "" {
      headers := headers + [Header(SessionHeaderName, config.sessionId)];
    }
    var fixed := headers;
    var i := 0;
    while i < |config.headers|
      invariant 0 <= i <= |config.headers|
      invariant headers == fixed + config.headers[..i]
    {
      headers := headers + [config.headers[i]];
      assert config.headers[..i + 1] == config.headers[..i] + [config.headers[i]];
      i := i + 1;
    }
    assert config.headers[..i] == config.headers;
  }

  /** The values of the header lines with the given name, compared without case as HttpHeaders does. */
  function HeaderValues(headers: seq<Header>, name: string): seq<string> {
    if headers == [] then []
    else (if EqualsIgnoreCase(headers[0].name, name) then [headers[0].value] else []) + HeaderValues(headers[1..], name)
  }

  /** HttpHeaders.getFirst. */
  function FirstHeader(headers: seq<Header>, name: string): (r: Option<string>)
    ensures r.Some? <==> HeaderValues(headers, name) != []
    ensures r.Some? ==> r.value == HeaderValues(headers, name)[0]
  {
    if headers == [] then None
    else if EqualsIgnoreCase(headers[0].name, name) then Some(headers[0].value)
    else FirstHeader(headers[1..], name)
  }

  lemma {:induction false} HeaderValuesAppend(a: seq<Header>, b: seq<Header>, name: string)
    ensures HeaderValues(a + b, name) == HeaderValues(a, name) + HeaderValues(b, name)
    decreases |a|
  {
    if a != [] {
      assert (a + b)[1..] == a[1..] + b;
      HeaderValuesAppend(a[1..], b, name);
    } else {
      assert a + b == b;
    }
  }

  /** Every request says it sends JSON and accepts JSON and event streams. */
  lemma RequestHeadersContent(config: ServerConfig)
    ensures FirstHeader(RequestHeaders(config), "Content-Type") == Some(JsonMediaType)
    ensures FirstHeader(RequestHeaders(config), "Accept") == Some(AcceptList)
  {
    var hs := RequestHeaders(config);
    assert hs[0] == Header("Content-Type", JsonMediaType);
    assert hs[1..][0] == Header("Accept", AcceptList);
  }

  /** The two fixed header lines leading every request. */
  function FixedHeaders(): seq<Header> {
    [Header("Content-Type", JsonMediaType), Header("Accept", AcceptList)]
  }

  lemma FixedHeadersCarryNoSession()
    ensures HeaderValues(FixedHeaders(), SessionHeaderName) == []
  {
    var fixed := FixedHeaders();
    assert fixed[1..][1..] == [];
  }

  /** A request carries the session id exactly when one is known, ahead of any
      static header of the same name. */
  lemma RequestHeadersSession(config: ServerConfig)
    ensures HeaderValues(RequestHeaders(config), SessionHeaderName)
            == (if config.sessionId != "" then [config.sessionId] else []) + HeaderValues(config.headers, SessionHeaderName)
    ensures config.sessionId != "" ==> FirstHeader(RequestHeaders(config), SessionHeaderName) == Some(config.sessionId)
  {
    var fixed := FixedHeaders();
    var session := if config.sessionId != "" then [Header(SessionHeaderName, config.sessionId)] else [];
    var rest := session + config.headers;
    assert RequestHeaders(config) == fixed + rest;
    FixedHeadersCarryNoSession();
    HeaderValuesAppend(fixed, rest, SessionHeaderName);
    HeaderValuesAppend(session, config.headers, SessionHeaderName);
    if config.sessionId != "" {
      assert session[1..] == [];
    }
  }

  /** A request ends with all the static headers of the server, in order. */
  lemma RequestHeadersEndWithStatic(config: ServerConfig)
    ensures var hs := RequestHeaders(config); |hs| >= |config.headers| && hs[|hs| - |config.headers|..] == config.headers
  {
  }


  /** The request handed to the transport for a method. */
  function OutgoingRequest(config: ServerConfig, rpcMethod: string, params: Json): HttpRequest {
    HttpRequest(config.url, RequestHeaders(config), rpcMethod, params)
  }

  /** A parsed reply: the JSON body and the response headers. */
  datatype Reply = Reply(json: Json, headers: seq<Header>)

  /** The text handed to the JSON parser: the decoded event stream when the content
      type includes text/event-stream, the raw body otherwise. */
  function BodyText(contentType: Option<MediaType>, body: Option<string>): Option<string> {
    if contentType.Some? && Includes(contentType.value, EventStream) then Some(SseDecode(body)) else body
  }

  /** sendJsonRpcRequest followed by readTree: the body is decoded from event-stream
      framing when the content type includes text/event-stream and parsed; an
      exception anywhere gives its message. */
  function Exchange(config: ServerConfig, rpcMethod: string, params: Json, transport: Transport, parse: Parser): (r: Result<Reply, Option<string>>)
    ensures transport(OutgoingRequest(config, rpcMethod, params)).HttpError? ==>
              r == Failure(transport(OutgoingRequest(config, rpcMethod, params)).message)
    ensures transport(OutgoingRequest(config, rpcMethod, params)).HttpResponse? ==>
              var response := transport(OutgoingRequest(config, rpcMethod, params));
              match parse(BodyText(response.contentType, response.body))
              case Success(j) => r == Success(Reply(j, response.headers))
              case Failure(m) => r == Failure(m)
  {
    match transport(OutgoingRequest(config, rpcMethod, params))
    case HttpError(m) => Failure(m)
    case HttpResponse(contentType, headers, body) =>
      match parse(BodyText(contentType, body))
      case Success(j) => Success(Reply(j, headers))
      case Failure(m) => Failure(m)
  }

  /** A reply whose body is an event stream is read exactly like a raw JSON reply
      carrying the text the stream decodes to (with SseFramingRoundTrip: carrying
      the concatenated fragments the stream frames). */
  lemma ExchangeSseMatchesRaw(config: ServerConfig, rpcMethod: string, params: Json,
                              sseTransport: Transport, rawTransport: Transport, parse: Parser,
                              sse: string, headers: seq<Header>)
    requires sseTransport(OutgoingRequest(config, rpcMethod, params)) == HttpResponse(Some(EventStream), headers, Some(sse))
    requires rawTransport(OutgoingRequest(config, rpcMethod, params))
             == HttpResponse(Some(MediaType("application", "json")), headers, Some(SseDecode(Some(sse))))
    ensures Exchange(config, rpcMethod, params, sseTransport, parse) == Exchange(config, rpcMethod, params, rawTransport, parse)
  {
    BodyTextOfEventStream(Some(sse));
    BodyTextOfJson(Some(SseDecode(Some(sse))));
  }

  lemma BodyTextOfEventStream(body: Option<string>)
    ensures BodyText(Some(EventStream), body) == Some(SseDecode(body))
  {
  }

  lemma BodyTextOfJson(body: Option<string>)
    ensures BodyText(Some(MediaType("application", "json")), body) == body
  {
    assert |"application"| != |"text"|;
  }

  // ---------------------------------------------------------------------------
  // initializeConnection

  /** The params of the initialize request. */
  function InitializeParams(): Json {
    JObj([Field("protocolVersion", JStr(ProtocolVersion)),
          Field("capabilities", JObj([])),
          Field("clientInfo", JObj([Field("name", JStr("ai-exploration")), Field("version", JStr("1.0.0"))]))])
  }

  /** The result of the handshake and the configuration with the session id it stored. */
  datatype InitOutcome = InitOutcome(connected: bool, config: ServerConfig)

  /** True when the exchange produced a JSON reply without an error member. */
  predicate Accepted(reply: Result<Reply, Option<string>>) {
    reply.Success? && !Has(reply.value.json, "error")
  }

  /** initializeConnection: false on an exception or a JSON-RPC error; otherwise true,
      storing the Mcp-Session-Id response header when it is present and non-empty. */
  function InitializeConnection(config: ServerConfig, transport: Transport, parse: Parser): (r: InitOutcome)
    ensures r.config == config.(sessionId := r.config.sessionId)
    ensures r.connected <==> Accepted(Exchange(config, "initialize", InitializeParams(), transport, parse))
    ensures r.config.sessionId != config.sessionId ==> r.connected && r.config.sessionId != ""
    ensures r.connected ==>
              var sid := FirstHeader(Exchange(config, "initialize", InitializeParams(), transport, parse).value.headers, SessionHeaderName);
              r.config.sessionId == (if sid.Some? && sid.value != "" then sid.value else config.sessionId)
  {
    var reply := Exchange(config, "initialize", InitializeParams(), transport, parse);
    if !Accepted(reply) then InitOutcome(false, config)
    else
      var sid := FirstHeader(reply.value.headers, SessionHeaderName);
      if sid.Some? && sid.value != "" then InitOutcome(true, config.(sessionId := sid.value))
      else InitOutcome(true, config)
  }

  /** After a handshake that stored a session id, every later request to that server
      carries it as its first Mcp-Session-Id header. */
  lemma SessionReused(config: ServerConfig, transport: Transport, parse: Parser, rpcMethod: string, params: Json)
    requires InitializeConnection(config, transport, parse).config.sessionId != ""
    ensures var after := InitializeConnection(config, transport, parse).config;
            FirstHeader(OutgoingRequest(after, rpcMethod, params).headers, SessionHeaderName) == Some(after.sessionId)
  {
    RequestHeadersSession(InitializeConnection(config, transport, parse).config);
  }

  // ---------------------------------------------------------------------------
  // listTools

  /** One element of the tools array: missing name and description become "", a
      missing input schema an empty map. A schema that is neither an object nor null
      makes convertValue throw (None). */
  function ToolFromNode(node: Json, serverId: string): (r: Option<McpTool>)
    ensures r.Some? ==> r.value.serverId == serverId
    ensures r.Some? ==> r.value.name == (if Has(node, "name") then AsText(Get(node, "name").value) else "")
    ensures r.Some? ==> r.value.description == (if Has(node, "description") then AsText(Get(node, "description").value) else "")
    ensures r.Some? <==> !Has(node, "inputSchema") || Get(node, "inputSchema").value.JObj? || Get(node, "inputSchema").value.JNull?
    ensures r.Some? ==> r.value.inputSchema == (if Has(node, "inputSchema") then Get(node, "inputSchema").value else JObj([]))
  {
    var name := if Has(node, "name") then AsText(Get(node, "name").value) else "";
    var description := if Has(node, "description") then AsText(Get(node, "description").value) else "";
    if !Has(node, "inputSchema") then Some(McpTool(name, description, JObj([]), serverId))
    else
      var schema := Get(node, "inputSchema").value;
      if schema.JObj? || schema.JNull? then Some(McpTool(name, description, schema, serverId)) else None
  }

  /** Converts the nodes in order; None as soon as one conversion throws. */
  function ToolsFromNodes(nodes: seq<Json>, serverId: string): (r: Option<seq<McpTool>>)
    ensures r.Some? <==> forall i :: 0 <= i < |nodes| ==> ToolFromNode(nodes[i], serverId).Some?
    ensures r.Some? ==> |r.value| == |nodes| && forall i :: 0 <= i < |nodes| ==> r.value[i] == ToolFromNode(nodes[i], serverId).value
  {
    if nodes == [] then Some([])
    else
      var init := ToolsFromNodes(nodes[..|nodes| - 1], serverId);
      var last := ToolFromNode(nodes[|nodes| - 1], serverId);
      if init.Some? && last.Some? then Some(init.value + [last.value])
      else
        assert forall i :: 0 <= i < |nodes| - 1 ==> nodes[..|nodes| - 1][i] == nodes[i];
        None
  }

  /** A tools/list reply that lists tools: no error member, and a result with a tools member. */
  predicate HasToolList(json: Json) {
    !Has(json, "error") && Has(json, "result") && Has(Get(json, "result").value, "tools")
  }

  /** The nodes of result.tools, in iteration order. */
  function ToolNodes(json: Json): seq<Json>
    requires HasToolList(json)
  {
    Elements(Get(Get(json, "result").value, "tools").value)
  }

  /** The tool list a tools/list reply yields: empty for an error member, a missing
      result or a result without tools, or a failed conversion; otherwise one tool
      per node of result.tools, in order. */
  function ToolsFromReply(json: Json, serverId: string): (r: seq<McpTool>)
    ensures HasToolList(json) && ToolsFromNodes(ToolNodes(json), serverId).Some? ==>
              && |r| == |ToolNodes(json)|
              && forall i :: 0 <= i < |r| ==> ToolFromNode(ToolNodes(json)[i], serverId) == Some(r[i])
    ensures !HasToolList(json) ==> r == []
    ensures HasToolList(json) && ToolsFromNodes(ToolNodes(json), serverId).None? ==> r == []
  {
    if Has(json, "error") then []
    else if !Has(json, "result") || !Has(Get(json, "result").value, "tools") then []
    else
      match ToolsFromNodes(Elements(Get(Get(json, "result").value, "tools").value), serverId)
      case Some(tools) => tools
      case None => []
  }

  /** listTools: every tool is tagged with the server's id. An exception, an error
      member, a missing result.tools or a node whose schema cannot be converted gives
      the empty list; otherwise there is one tool per element of result.tools, in order. */
  function ListTools(config: ServerConfig, transport: Transport, parse: Parser): (r: seq<McpTool>)
    ensures forall i :: 0 <= i < |r| ==> r[i].serverId == config.id
    ensures Exchange(config, "tools/list", JObj([]), transport, parse).Failure? ==> r == []
    ensures Exchange(config, "tools/list", JObj([]), transport, parse).Success? ==>
              var json := Exchange(config, "tools/list", JObj([]), transport, parse).value.json;
              if HasToolList(json) && ToolsFromNodes(ToolNodes(json), config.id).Some? then
                && |r| == |ToolNodes(json)|
                && forall i :: 0 <= i < |r| ==> ToolFromNode(ToolNodes(json)[i], config.id) == Some(r[i])
              else r == []
  {
    match Exchange(config, "tools/list", JObj([]), transport, parse)
    case Failure(_) => []
    case Success(reply) => ToolsFromReply(reply.json, config.id)
  }

  // ---------------------------------------------------------------------------
  // executeTool

  /** The params of a tools/call request: the tool name and its arguments, an empty
      map when the request has none. */
  function ToolsCallParams(request: ExecutionRequest): (r: Json)
    ensures Get(r, "name") == Some(JStr(request.toolName))
    ensures Get(r, "arguments") == Some(if request.arguments.Some? then request.arguments.value else JObj([]))
  {
    var fields := [Field("name", JStr(request.toolName)),
                   Field("arguments", if request.arguments.Some? then request.arguments.value else JObj([]))];
    LookupFirst(fields, 0, "name");
    LookupFirst(fields, 1, "arguments");
    JObj(fields)
  }

  /** The message of a JSON-RPC error member. */
  function ErrorMessage(error: Json): string {
    if Has(error, "message") then AsText(Get(error, "message").value) else "Unknown error"
  }

  /** executeTool: never throws. An exception gives its message, a JSON-RPC error its
      message (or "Unknown error"); otherwise the call succeeds with the result member
      as content (null when absent). */
  function ExecuteTool(config: ServerConfig, request: ExecutionRequest, transport: Transport, parse: Parser): (r: ExecutionResponse)
    ensures var reply := Exchange(config, "tools/call", ToolsCallParams(request), transport, parse);
            r.success <==> Accepted(reply)
    ensures r.success ==> r.error.None?
    ensures !r.success ==> r.content == JNull
    ensures var reply := Exchange(config, "tools/call", ToolsCallParams(request), transport, parse);
            && (reply.Failure? ==> r.error == reply.error)
            && (reply.Success? && Has(reply.value.json, "error") ==> r.error == Some(ErrorMessage(Get(reply.value.json, "error").value)))
            && (r.success ==> r.content == Get(reply.value.json, "result").GetOr(JNull))
  {
    match Exchange(config, "tools/call", ToolsCallParams(request), transport, parse)
    case Failure(m) => ExecutionResponse(false, JNull, m)
    case Success(reply) =>
      if Has(reply.json, "error") then ExecutionResponse(false, JNull, Some(ErrorMessage(Get(reply.json, "error").value)))
      else ExecutionResponse(true, Get(reply.json, "result").GetOr(JNull), None)
  }
}
