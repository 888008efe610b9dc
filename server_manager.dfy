/** McpServerManager: the registry of MCP servers and of the tool catalogue
    cached for each of them. */
module ServerManager {
  import opened Wrappers
  import opened Strings
  import opened Json
  import opened McpTypes
  import McpClient

  /** The catalogues concatenated in the given order of server ids. */
  function Flatten(catalogues: map<string, seq<McpTool>>, order: seq<string>): seq<McpTool>
    requires forall i :: 0 <= i < |order| ==> order[i] in catalogues
  {
    if order == [] then []
    else Flatten(catalogues, order[..|order| - 1]) + catalogues[order[|order| - 1]]
  }

  /** A tool is in the flattening exactly when it is in the catalogue of one of the ids. */
  lemma {:induction false} FlattenMembers(catalogues: map<string, seq<McpTool>>, order: seq<string>, t: McpTool)
    requires forall i :: 0 <= i < |order| ==> order[i] in catalogues
    ensures t in Flatten(catalogues, order) <==> exists i :: 0 <= i < |order| && t in catalogues[order[i]]
    decreases |order|
  {
    if order != [] {
      var init := order[..|order| - 1];
      FlattenMembers(catalogues, init, t);
      assert forall i :: 0 <= i < |init| ==> init[i] == order[i];
      if t in catalogues[order[|order| - 1]] {
        assert t in Flatten(catalogues, order);
      }
    }
  }

  /** A sequence that lists every element of a set exactly once. */
  predicate Enumerates(order: seq<string>, keys: set<string>) {
    && (forall i :: 0 <= i < |order| ==> order[i] in keys)
    && (forall k :: k in keys ==> k in order)
    && (forall i, j :: 0 <= i < j < |order| ==> order[i] != order[j])
  }

  /** The configuration addServer registers, before the handshake: the given id or
      the fresh one, the given creation time or now, and enabled. */
  function Prepared(config: ServerConfig, freshId: string, now: int): (c: ServerConfig)
    ensures c.id == (if config.id == "" then freshId else config.id)
    ensures c.createdAt.Some?
    ensures config.createdAt.Some? ==> c.createdAt == config.createdAt
    ensures c.enabled
    ensures c.url == config.url && c.headers == config.headers && c.name == config.name
    ensures c.sessionId == config.sessionId && c.description == config.description
  {
    config.(id := if config.id == "" then freshId else config.id,
            createdAt := if config.createdAt.None? then Some(now) else config.createdAt,
            enabled := true)
  }

  class McpServerManager {
    var servers: map<string, ServerConfig>
    var serverTools: map<string, seq<McpTool>>
    /** McpClientService's HTTP and JSON collaborators. */
    const transport: McpClient.Transport
    const parse: McpClient.Parser

    /** Every cached catalogue belongs to a registered server, every server is
        registered under its own id, and every cached tool names its server. */
    ghost predicate Valid()
      reads this
    {
      && serverTools.Keys <= servers.Keys
      && (forall id :: id in servers ==> servers[id].id == id)
      && (forall id :: id in serverTools ==> forall t :: t in serverTools[id] ==> t.serverId == id)
    }

    constructor(transport: McpClient.Transport, parse: McpClient.Parser)
      ensures Valid()
      ensures servers == map[] && serverTools == map[]
      ensures this.transport == transport && this.parse == parse
    {
      servers := map[];
      serverTools := map[];
      this.transport := transport;
      this.parse := parse;
    }

    /** initialize: registers the configured default server, when there is one, as
        addServer does: a default server without a URL is refused with nothing
        changed, and any other is registered, its catalogue loaded only after a
        successful handshake. */
    method Initialize(defaultServer: Option<ServerConfig>, freshId: string, now: int) returns (r: Option<Result<ServerConfig, string>>)
      requires Valid()
      modifies this
      ensures Valid()
      ensures defaultServer.None? ==> r.None? && servers == old(servers) && serverTools == old(serverTools)
      ensures defaultServer.Some? && defaultServer.value.url == "" ==>
                r == Some(Failure("Server URL is required")) && servers == old(servers) && serverTools == old(serverTools)
      ensures defaultServer.Some? && defaultServer.value.url != "" ==>
                var prepared := Prepared(defaultServer.value, freshId, now);
                var init := McpClient.InitializeConnection(prepared, transport, parse);
                && r == Some(Success(init.config))
                && servers == old(servers)[prepared.id := init.config]
                && serverTools == (if init.connected then old(serverTools)[prepared.id := McpClient.ListTools(init.config, transport, parse)]
                                   else old(serverTools))
    {
      if defaultServer.Some? {
        var added := AddServer(defaultServer.value, freshId, now);
        r := Some(added);
      } else {
        r := None;
      }
    }

    /** addServer: a configuration without a URL is refused and nothing changes.
        Otherwise the configuration gets an id, a creation time and enabled = true,
        the handshake runs (storing any session id it receives), the server is
        registered whatever the handshake's outcome, and its catalogue is loaded
        only after a successful handshake. */
    method AddServer(config: ServerConfig, freshId: string, now: int) returns (r: Result<ServerConfig, string>)
      requires Valid()
      modifies this
      ensures Valid()
      ensures config.url == "" ==>
                r == Failure("Server URL is required") && servers == old(servers) && serverTools == old(serverTools)
      ensures config.url != "" ==>
                var prepared := Prepared(config, freshId, now);
                var init := McpClient.InitializeConnection(prepared, transport, parse);
                && r == Success(init.config)
                && servers == old(servers)[prepared.id := init.config]
                && serverTools == (if init.connected then old(serverTools)[prepared.id := McpClient.ListTools(init.config, transport, parse)]
                                   else old(serverTools))
    {
      if config.url == "" {
        return Failure("Server URL is required");
      }
      var c := config;
      if c.id == "" {
        c := c.(id := freshId);
      }
      if c.createdAt.None? {
        c := c.(createdAt := Some(now));
      }
      c := c.(enabled := true);
      var init := McpClient.InitializeConnection(c, transport, parse);
      c := init.config;
      servers := servers[c.id := c];
      if init.connected {
        var _ := RefreshServerTools(c.id);
      }
      r := Success(c);
    }

    /** removeServer: the id leaves both maps; an unknown id changes nothing. */
    method RemoveServer(serverId: string)
      requires Valid()
      modifies this
      ensures Valid()
      ensures servers == old(servers) - {serverId}
      ensures serverTools == old(serverTools) - {serverId}
      ensures serverId !in old(servers) ==> servers == old(servers) && serverTools == old(serverTools)
    {
      servers := servers - {serverId};
      serverTools := serverTools - {serverId};
    }

    /** getServer: the registered configuration, or None (null). */
    function GetServer(serverId: string): (r: Option<ServerConfig>)
      reads this
      ensures r.Some? <==> serverId in servers
      ensures r.Some? ==> r.value == servers[serverId]
    {
      if serverId in servers then Some(servers[serverId]) else None
    }

    /** refreshServerTools: nothing for an unknown or disabled server, and nothing
        changes; otherwise the catalogue the server lists now replaces the cached one. */
    method RefreshServerTools(serverId: string) returns (tools: seq<McpTool>)
      requires Valid()
      modifies this
      ensures Valid()
      ensures servers == old(servers)
      ensures serverId !in servers || !servers[serverId].enabled ==> tools == [] && serverTools == old(serverTools)
      ensures serverId in servers && servers[serverId].enabled ==>
                tools == McpClient.ListTools(servers[serverId], transport, parse) &&
                serverTools == old(serverTools)[serverId := tools]
    {
      if serverId !in servers {
        return [];
      }
      var server := servers[serverId];
      if !server.enabled {
        return [];
      }
      tools := McpClient.ListTools(server, transport, parse);
      serverTools := serverTools[serverId := tools];
    }

    /** getToolsForServer: the cached catalogue, empty when there is none. */
    function GetToolsForServer(serverId: string): (r: seq<McpTool>)
      reads this
      ensures serverId in serverTools ==> r == serverTools[serverId]
      ensures serverId !in serverTools ==> r == []
    {
      if serverId in serverTools then serverTools[serverId] else []
    }

    /** getAllTools: every cached catalogue, one after the other, in the map's
        iteration order (which the model leaves open). */
    method GetAllTools() returns (tools: seq<McpTool>, ghost order: seq<string>)
      requires Valid()
      ensures Enumerates(order, serverTools.Keys)
      ensures forall i :: 0 <= i < |order| ==> order[i] in serverTools
      ensures tools == Flatten(serverTools, order)
      ensures forall t :: t in tools ==> t.serverId in serverTools && t in serverTools[t.serverId]
    {
      var keys := serverTools.Keys;
      tools := [];
      order := [];
      while keys != {}
        invariant keys <= serverTools.Keys
        invariant forall i :: 0 <= i < |order| ==> order[i] in serverTools && order[i] !in keys
        invariant forall k :: k in serverTools.Keys ==> k in keys || k in order
        invariant forall i, j :: 0 <= i < j < |order| ==> order[i] != order[j]
        invariant tools == Flatten(serverTools, order)
        decreases |keys|
      {
        var k :| k in keys;
        tools := tools + serverTools[k];
        order := order + [k];
        keys := keys - {k};
      }
      forall t | t in tools
        ensures t.serverId in serverTools && t in serverTools[t.serverId]
      {
        FlattenMembers(serverTools, order, t);
      }
    }

    /** executeTool: the request is checked in order (server id, tool name, known
        server, enabled server), each failure with its own message; only a request
        that passes all four reaches the client. */
    function ExecuteTool(request: ExecutionRequest): (r: ExecutionResponse)
      reads this
      ensures request.serverId == "" ==> r == ExecutionResponse(false, JNull, Some("Server ID is required"))
      ensures request.serverId != "" && request.toolName == "" ==> r == ExecutionResponse(false, JNull, Some("Tool name is required"))
      ensures request.serverId != "" && request.toolName != "" && request.serverId !in servers ==>
                r == ExecutionResponse(false, JNull, Some("Server not found: " + request.serverId))
      ensures request.serverId != "" && request.toolName != "" && request.serverId in servers && !servers[request.serverId].enabled ==>
                r == ExecutionResponse(false, JNull, Some("Server is disabled: " + Str(servers[request.serverId].name)))
      ensures request.serverId != "" && request.toolName != "" && request.serverId in servers && servers[request.serverId].enabled ==>
                r == McpClient.ExecuteTool(servers[request.serverId], request, transport, parse)
    {
      if request.serverId == "" then ExecutionResponse(false, JNull, Some("Server ID is required"))
      else if request.toolName == "" then ExecutionResponse(false, JNull, Some("Tool name is required"))
      else if request.serverId !in servers then ExecutionResponse(false, JNull, Some("Server not found: " + request.serverId))
      else if !servers[request.serverId].enabled then ExecutionResponse(false, JNull, Some("Server is disabled: " + Str(servers[request.serverId].name)))
      else McpClient.ExecuteTool(servers[request.serverId], request, transport, parse)
    }

    /** testConnection: false for an unknown server; otherwise the handshake is
        repeated on the registered configuration, which keeps any new session id. */
    method TestConnection(serverId: string) returns (ok: bool)
      requires Valid()
      modifies this
      ensures Valid()
      ensures serverTools == old(serverTools)
      ensures serverId !in old(servers) ==> !ok && servers == old(servers)
      ensures serverId in old(servers) ==>
                var init := McpClient.InitializeConnection(old(servers)[serverId], transport, parse);
                ok == init.connected && servers == old(servers)[serverId := init.config]
    {
      if serverId !in servers {
        return false;
      }
      var init := McpClient.InitializeConnection(servers[serverId], transport, parse);
      servers := servers[serverId := init.config];
      ok := init.connected;
    }
  }
}
