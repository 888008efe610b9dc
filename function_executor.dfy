/** McpFunctionExecutor: the bridge between the language model's function calls
    and the MCP servers. It keeps a registry of tools by name, offers them to the
    model as function schemas, and runs the calls the model asks for. */
module FunctionExecutor {
  import opened Wrappers
  import opened Json
  import opened McpTypes
  import McpClient
  import SM = ServerManager

  /** A function schema offered to the model (Tool.ToolFunctionDef of type "function"). */
  datatype ToolFunction = ToolFunction(name: string, description: string, parameters: Json)

  /** ObjectMapper.readValue of the call's argument text as a map: the map, JNull
      for the text "null" (which Jackson reads as a null map without throwing), or
      the exception's message. */
  type ArgumentReader = string -> Result<Json, Option<string>>

  /** The Map reference readValue produces: null for a JSON null. */
  function ArgumentsMap(parsed: Json): (r: Option<Json>)
    ensures r.None? <==> parsed.JNull?
    ensures r.Some? ==> r.value == parsed
  {
    if parsed.JNull? then None else Some(parsed)
  }

  /** The registry after putting each tool under its name, in order. */
  function PutAll(registry: map<string, McpTool>, tools: seq<McpTool>): map<string, McpTool>
    decreases |tools|
  {
    if tools == [] then registry else PutAll(registry[tools[0].name := tools[0]], tools[1..])
  }

  /** A registry in which every tool is filed under its own name. */
  predicate KeyedByName(registry: map<string, McpTool>) {
    forall k :: k in registry ==> registry[k].name == k
  }

  /** Loading keeps every tool under its own name, and the names in the registry are
      the ones it had and the ones loaded. */
  lemma {:induction false} PutAllKeys(registry: map<string, McpTool>, tools: seq<McpTool>)
    requires KeyedByName(registry)
    ensures KeyedByName(PutAll(registry, tools))
    ensures forall k :: k in PutAll(registry, tools) <==> k in registry || exists i :: 0 <= i < |tools| && tools[i].name == k
    decreases |tools|
  {
    if tools != [] {
      var next := registry[tools[0].name := tools[0]];
      PutAllKeys(next, tools[1..]);
      forall k ensures k in PutAll(registry, tools) <==> k in registry || exists i :: 0 <= i < |tools| && tools[i].name == k {
        if exists i :: 0 <= i < |tools[1..]| && tools[1..][i].name == k {
          var i :| 0 <= i < |tools[1..]| && tools[1..][i].name == k;
          assert tools[i + 1].name == k;
        }
        if exists i :: 0 <= i < |tools| && tools[i].name == k {
          var i :| 0 <= i < |tools| && tools[i].name == k;
          if i > 0 {
            assert tools[1..][i - 1].name == k;
          }
        }
      }
    }
  }

  /** The last tool loaded under a name is the one the registry keeps. */
  lemma {:induction false} PutAllLastWins(registry: map<string, McpTool>, tools: seq<McpTool>, j: nat)
    requires j < |tools|
    requires forall k :: j < k < |tools| ==> tools[k].name != tools[j].name
    ensures tools[j].name in PutAll(registry, tools)
    ensures PutAll(registry, tools)[tools[j].name] == tools[j]
    decreases |tools|
  {
    if j == 0 {
      PutAllUntouched(registry[tools[0].name := tools[0]], tools[1..], tools[0].name);
    } else {
      assert tools[1..][j - 1] == tools[j];
      PutAllLastWins(registry[tools[0].name := tools[0]], tools[1..], j - 1);
    }
  }

  /** A name that is not loaded keeps its entry. */
  lemma {:induction false} PutAllUntouched(registry: map<string, McpTool>, tools: seq<McpTool>, name: string)
    requires forall k :: 0 <= k < |tools| ==> tools[k].name != name
    ensures name in PutAll(registry, tools) <==> name in registry
    ensures name in registry ==> PutAll(registry, tools)[name] == registry[name]
    decreases |tools|
  {
    if tools != [] {
      PutAllUntouched(registry[tools[0].name := tools[0]], tools[1..], name);
    }
  }

  /** The registry entry under a name is one of the tools loaded under it, or the old entry. */
  lemma {:induction false} PutAllFrom(registry: map<string, McpTool>, tools: seq<McpTool>, name: string)
    requires name in PutAll(registry, tools)
    ensures PutAll(registry, tools)[name] in tools || (name in registry && PutAll(registry, tools)[name] == registry[name])
    decreases |tools|
  {
    if tools != [] {
      PutAllFrom(registry[tools[0].name := tools[0]], tools[1..], name);
    }
  }

  /** No two different tools of the catalogues share a name. */
  predicate UniqueNames(catalogues: map<string, seq<McpTool>>) {
    forall a, b, t, u :: a in catalogues && b in catalogues && t in catalogues[a] && u in catalogues[b] && t.name == u.name ==> t == u
  }

  /** Two visiting orders of the same catalogues list the same tools. */
  lemma FlattenSameMembers(catalogues: map<string, seq<McpTool>>, order1: seq<string>, order2: seq<string>, t: McpTool)
    requires SM.Enumerates(order1, catalogues.Keys) && SM.Enumerates(order2, catalogues.Keys)
    ensures t in SM.Flatten(catalogues, order1) <==> t in SM.Flatten(catalogues, order2)
  {
    SM.FlattenMembers(catalogues, order1, t);
    SM.FlattenMembers(catalogues, order2, t);
    if t in SM.Flatten(catalogues, order1) {
      var i :| 0 <= i < |order1| && t in catalogues[order1[i]];
      var j :| 0 <= j < |order2| && order2[j] == order1[i];
      assert t in catalogues[order2[j]];
    }
    if t in SM.Flatten(catalogues, order2) {
      var i :| 0 <= i < |order2| && t in catalogues[order2[i]];
      var j :| 0 <= j < |order1| && order1[j] == order2[i];
      assert t in catalogues[order1[j]];
    }
  }

  /** Loading two lists with the same tools, no two of which share a name, gives the same registry. */
  lemma PutAllSameMembers(tools1: seq<McpTool>, tools2: seq<McpTool>)
    requires forall t :: t in tools1 <==> t in tools2
    requires forall t, u :: t in tools1 && u in tools1 && t.name == u.name ==> t == u
    ensures PutAll(map[], tools1) == PutAll(map[], tools2)
  {
    var r1, r2 := PutAll(map[], tools1), PutAll(map[], tools2);
    PutAllKeys(map[], tools1);
    PutAllKeys(map[], tools2);
    forall k ensures k in r1 <==> k in r2 {
      if k in r1 {
        var i :| 0 <= i < |tools1| && tools1[i].name == k;
        assert tools1[i] in tools2;
      }
      if k in r2 {
        var i :| 0 <= i < |tools2| && tools2[i].name == k;
        assert tools2[i] in tools1;
      }
    }
    forall k | k in r1 ensures r1[k] == r2[k] {
      PutAllFrom(map[], tools1, k);
      PutAllFrom(map[], tools2, k);
    }
  }

  /** When tool names are unique, loading every catalogue into an empty registry gives
      the same registry whatever order the catalogues are visited in. */
  lemma LoadIndependentOfOrder(catalogues: map<string, seq<McpTool>>, order1: seq<string>, order2: seq<string>)
    requires SM.Enumerates(order1, catalogues.Keys) && SM.Enumerates(order2, catalogues.Keys)
    requires UniqueNames(catalogues)
    ensures PutAll(map[], SM.Flatten(catalogues, order1)) == PutAll(map[], SM.Flatten(catalogues, order2))
  {
    var tools1, tools2 := SM.Flatten(catalogues, order1), SM.Flatten(catalogues, order2);
    forall t ensures t in tools1 <==> t in tools2 {
      FlattenSameMembers(catalogues, order1, order2, t);
    }
    forall t, u | t in tools1 && u in tools1 && t.name == u.name ensures t == u {
      SM.FlattenMembers(catalogues, order1, t);
      SM.FlattenMembers(catalogues, order1, u);
    }
    PutAllSameMembers(tools1, tools2);
  }

  /** convertToToolFunction: the tool's name and description, and its input schema
      as the parameters (valueToTree keeps the schema's JSON). */
  function ConvertToToolFunction(tool: McpTool): (f: ToolFunction)
    ensures f.name == tool.name && f.description == tool.description && f.parameters == tool.inputSchema
  {
    ToolFunction(tool.name, tool.description, tool.inputSchema)
  }

  class McpFunctionExecutor {
    var toolsRegistry: map<string, McpTool>
    const manager: SM.McpServerManager
    const readArguments: ArgumentReader

    ghost predicate Valid()
      reads this, manager
    {
      KeyedByName(toolsRegistry) && manager.Valid()
    }

    constructor(manager: SM.McpServerManager, readArguments: ArgumentReader)
      requires manager.Valid()
      ensures Valid() && toolsRegistry == map[]
      ensures this.manager == manager && this.readArguments == readArguments
    {
      toolsRegistry := map[];
      this.manager := manager;
      this.readArguments := readArguments;
    }

    /** loadAllTools: every tool the registry manager lists is put under its name,
        in the listing's order, so the last of several tools with one name wins. */
    method LoadAllTools() returns (ghost order: seq<string>)
      requires Valid()
      modifies this
      ensures Valid()
      ensures SM.Enumerates(order, manager.serverTools.Keys)
      ensures forall i :: 0 <= i < |order| ==> order[i] in manager.serverTools
      ensures toolsRegistry == PutAll(old(toolsRegistry), SM.Flatten(manager.serverTools, order))
    {
      var tools;
      tools, order := manager.GetAllTools();
      ghost var start := toolsRegistry;
      var i := 0;
      while i < |tools|
        invariant 0 <= i <= |tools|
        invariant PutAll(toolsRegistry, tools[i..]) == PutAll(start, tools)
      {
        assert tools[i..][1..] == tools[i + 1..];
        toolsRegistry := toolsRegistry[tools[i].name := tools[i]];
        i := i + 1;
      }
      PutAllKeys(start, tools);
    }

    /** getToolFunctions: reloads once when the registry is empty, then offers one
        function per registry entry. */
    method GetToolFunctions() returns (functions: seq<ToolFunction>, ghost names: seq<string>)
      requires Valid()
      modifies this
      ensures Valid()
      ensures old(toolsRegistry) != map[] ==> toolsRegistry == old(toolsRegistry)
      ensures old(toolsRegistry) == map[] ==>
                exists order :: SM.Enumerates(order, manager.serverTools.Keys) &&
                  (forall i :: 0 <= i < |order| ==> order[i] in manager.serverTools) &&
                  toolsRegistry == PutAll(map[], SM.Flatten(manager.serverTools, order))
      ensures SM.Enumerates(names, toolsRegistry.Keys)
      ensures |functions| == |names|
      ensures forall i :: 0 <= i < |names| ==> names[i] in toolsRegistry && functions[i] == ConvertToToolFunction(toolsRegistry[names[i]])
    {
      if toolsRegistry == map[] {
        ghost var order := LoadAllTools();
      }
      var keys := toolsRegistry.Keys;
      functions := [];
      names := [];
      while keys != {}
        invariant keys <= toolsRegistry.Keys
        invariant forall i :: 0 <= i < |names| ==> names[i] in toolsRegistry && names[i] !in keys
        invariant forall k :: k in toolsRegistry ==> k in keys || k in names
        invariant forall i, j :: 0 <= i < j < |names| ==> names[i] != names[j]
        invariant |functions| == |names|
        invariant forall i :: 0 <= i < |names| ==> functions[i] == ConvertToToolFunction(toolsRegistry[names[i]])
        decreases |keys|
      {
        var k :| k in keys;
        functions := functions + [ConvertToToolFunction(toolsRegistry[k])];
        names := names + [k];
        keys := keys - {k};
      }
    }

    /** executeTool: the arguments are parsed first, then the tool is looked up in
        the registry and its server in the registry manager; a failure at any step
        is a failed result carrying the message, and only a call that passes all
        three reaches the MCP client. The result always carries the call's id and name. */
    function ExecuteTool(call: ToolCall): (r: ToolCallInfo)
      reads this, manager
      ensures r.toolCallId == call.id && r.toolName == call.name
      ensures readArguments(call.arguments).Failure? ==>
                !r.success && r.error == readArguments(call.arguments).error && r.arguments.None? && r.result == JNull
      ensures readArguments(call.arguments).Success? && call.name !in toolsRegistry ==>
                !r.success && r.error == Some("Tool not found: " + call.name) && r.result == JNull
      ensures readArguments(call.arguments).Success? && call.name in toolsRegistry && toolsRegistry[call.name].serverId !in manager.servers ==>
                !r.success && r.error == Some("Server not found for tool: " + toolsRegistry[call.name].serverId) && r.result == JNull
      ensures readArguments(call.arguments).Success? && call.name in toolsRegistry && toolsRegistry[call.name].serverId in manager.servers ==>
                var tool := toolsRegistry[call.name];
                var response := McpClient.ExecuteTool(manager.servers[tool.serverId],
                                                      ExecutionRequest(tool.serverId, call.name, ArgumentsMap(readArguments(call.arguments).value)),
                                                      manager.transport, manager.parse);
                r == ToolCallInfo(call.id, call.name, ArgumentsMap(readArguments(call.arguments).value), response.content, response.success, response.error)
    {
      match readArguments(call.arguments)
      case Failure(m) => ToolCallInfo(call.id, call.name, None, JNull, false, m)
      case Success(arguments) =>
        if call.name !in toolsRegistry then
          ToolCallInfo(call.id, call.name, None, JNull, false, Some("Tool not found: " + call.name))
        else
          var tool := toolsRegistry[call.name];
          if tool.serverId !in manager.servers then
            ToolCallInfo(call.id, call.name, None, JNull, false, Some("Server not found for tool: " + tool.serverId))
          else
            var response := McpClient.ExecuteTool(manager.servers[tool.serverId],
                                                  ExecutionRequest(tool.serverId, call.name, ArgumentsMap(arguments)),
                                                  manager.transport, manager.parse);
            ToolCallInfo(call.id, call.name, ArgumentsMap(arguments), response.content, response.success, response.error)
    }

    /** executeAll: one result per call, in order, each computed from its call alone. */
    function ExecuteAll(calls: seq<ToolCall>): (r: seq<ToolCallInfo>)
      reads this, manager
      ensures |r| == |calls|
      ensures forall i :: 0 <= i < |calls| ==> r[i] == ExecuteTool(calls[i])
    {
      seq(|calls|, i reads this, manager requires 0 <= i < |calls| => ExecuteTool(calls[i]))
    }

    /** refreshTools: empties the registry and loads it again. */
    method RefreshTools() returns (ghost order: seq<string>)
      requires Valid()
      modifies this
      ensures Valid()
      ensures SM.Enumerates(order, manager.serverTools.Keys)
      ensures forall i :: 0 <= i < |order| ==> order[i] in manager.serverTools
      ensures toolsRegistry == PutAll(map[], SM.Flatten(manager.serverTools, order))
    {
      toolsRegistry := map[];
      order := LoadAllTools();
    }
  }

  /** Running a batch is running its parts: one call's outcome does not depend on
      the others. */
  lemma ExecuteAllSplits(e: McpFunctionExecutor, a: seq<ToolCall>, b: seq<ToolCall>)
    ensures e.ExecuteAll(a + b) == e.ExecuteAll(a) + e.ExecuteAll(b)
  {
    var whole, left, right := e.ExecuteAll(a + b), e.ExecuteAll(a), e.ExecuteAll(b);
    forall i | 0 <= i < |whole| ensures whole[i] == (left + right)[i] {
      if i < |a| {
        assert (a + b)[i] == a[i];
      } else {
        assert (a + b)[i] == b[i - |a|];
      }
    }
  }

  /** Argument text that reads as null reaches the MCP server as an empty arguments
      map, and any other map as itself. */
  lemma ArgumentsSent(serverId: string, toolName: string, parsed: Json)
    ensures var params := McpClient.ToolsCallParams(ExecutionRequest(serverId, toolName, ArgumentsMap(parsed)));
            Get(params, "arguments") == Some(if parsed.JNull? then JObj([]) else parsed)
  {
  }
}
