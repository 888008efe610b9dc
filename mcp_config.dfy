/** McpConfig: the default MCP server the application registers at start-up, built
    from the mcp.* configuration properties. */
module McpConfig {
  import opened Wrappers
  import opened Strings
  import opened McpTypes
  import McpClient
  import SM = ServerManager

  /** mcp.default-server.*: a missing property is None. */
  datatype DefaultServer = DefaultServer(url: Option<string>, name: Option<string>, apiKey: Option<string>)

  /** mcp.enabled and mcp.default-server (None when the section is missing). */
  datatype Properties = Properties(enabled: bool, defaultServer: Option<DefaultServer>)

  const DefaultId := "default"
  const DefaultName := "Default MCP Server"
  const DefaultDescription := "Default MCP server from configuration"

  /** The static headers: an Authorization bearer header when an API key is set. */
  function AuthHeaders(apiKey: Option<string>): (r: seq<Header>)
    ensures apiKey.Some? && apiKey.value != "" ==> r == [Header("Authorization", "Bearer " + apiKey.value)]
    ensures apiKey.None? || apiKey.value == "" ==> r == []
  {
    if apiKey.Some? && apiKey.value != "" then [Header("Authorization", "Bearer " + apiKey.value)] else []
  }

  /** defaultMcpServer: no server (null) unless MCP is enabled and a non-empty URL is
      configured; otherwise the server "default" at that URL, enabled, named after
      the configuration or "Default MCP Server", created now, without a session. */
  function DefaultMcpServer(props: Properties, now: int): (r: Option<ServerConfig>)
    ensures r.None? <==> !props.enabled || props.defaultServer.None? || props.defaultServer.value.url.None?
                         || props.defaultServer.value.url.value == ""
    ensures r.Some? ==>
              var ds := props.defaultServer.value;
              && r.value.id == DefaultId && r.value.enabled && r.value.url == ds.url.value
              && r.value.name == Some(ds.name.GetOr(DefaultName))
              && r.value.headers == AuthHeaders(ds.apiKey)
              && r.value.description == Some(DefaultDescription)
              && r.value.createdAt == Some(now) && r.value.sessionId == ""
  {
    if !props.enabled || props.defaultServer.None? then None
    else
      var ds := props.defaultServer.value;
      if ds.url.None? || ds.url.value == "" then None
      else Some(ServerConfig(DefaultId, Some(ds.name.GetOr(DefaultName)), ds.url.value, Some(DefaultDescription),
                             AuthHeaders(ds.apiKey), true, Some(now), ""))
  }

  /** addServer accepts the default server as it is: it has a URL, keeps the id
      "default" and its creation time, and is already enabled. */
  lemma DefaultServerPrepared(props: Properties, now: int, freshId: string, later: int)
    requires DefaultMcpServer(props, now).Some?
    ensures var c := DefaultMcpServer(props, now).value;
            c.url != "" && SM.Prepared(c, freshId, later) == c
  {
  }

  /** Every request to the default server carries the bearer token exactly when an API
      key is configured, and no other Authorization header. */
  lemma DefaultServerAuthorization(props: Properties, now: int)
    requires DefaultMcpServer(props, now).Some?
    ensures var c := DefaultMcpServer(props, now).value;
            var key := props.defaultServer.value.apiKey;
            McpClient.HeaderValues(McpClient.RequestHeaders(c), "Authorization")
              == (if key.Some? && key.value != "" then ["Bearer " + key.value] else [])
  {
    var c := DefaultMcpServer(props, now).value;
    var fixed := McpClient.FixedHeaders();
    assert McpClient.RequestHeaders(c) == fixed + c.headers;
    McpClient.HeaderValuesAppend(fixed, c.headers, "Authorization");
    assert !EqualsIgnoreCase(fixed[0].name, "Authorization") by {
      assert LowerChar(fixed[0].name[0]) != LowerChar("Authorization"[0]);
    }
    assert !EqualsIgnoreCase(fixed[1].name, "Authorization") by {
      assert LowerChar(fixed[1].name[1]) != LowerChar("Authorization"[1]);
    }
    assert McpClient.HeaderValues(fixed, "Authorization") == [] by {
      assert fixed[1..][1..] == [];
    }
    if c.headers != [] {
      assert EqualsIgnoreCase(c.headers[0].name, "Authorization");
      assert c.headers[1..] == [];
    }
  }
}
