/** DeepSeekService.chat in the chat application: the function-calling loop that
    lets the language model call MCP tools through McpFunctionExecutor, and the
    conversions around it. */
module Orchestration {
  import opened Wrappers
  import opened Strings
  import opened Json
  import opened McpTypes
  import opened ChatHistory
  import FE = FunctionExecutor

  /** The messages of a chat completion request. */
  datatype ChatMessage =
    | SystemMsg(text: string)
    | UserMsg(content: Option<string>)
    | AssistantMsg(content: Option<string>, toolCalls: Option<seq<ToolCall>>)
    | ToolMsg(text: string, toolCallId: string)

  datatype Usage = Usage(promptTokens: int, completionTokens: int, totalTokens: int)

  /** The first choice of a chat completion: its finish reason, its message (content
      and tool calls) and the token usage of the call. */
  datatype Completion = Completion(
    finishReason: Option<string>,
    content: Option<string>,
    toolCalls: Option<seq<ToolCall>>,
    usage: Option<Usage>)

  /** What one call to the model is sent: the conversation and the tools offered. */
  datatype ModelRequest = ModelRequest(messages: seq<ChatMessage>, tools: Option<seq<FE.ToolFunction>>)

  /** The language model as a script: the reply to its n-th call (counting from 0).
      Any run of the real model is one such script. */
  type Model = nat -> Completion

  /** McpFunctionExecutor.executeAll as the loop sees it. */
  type Bridge = seq<ToolCall> -> seq<ToolCallInfo>

  const ToolCallsReason := "tool_calls"

  predicate WantsTools(c: Completion) {
    c.finishReason == Some(ToolCallsReason)
  }

  predicate HasCalls(c: Completion) {
    c.toolCalls.Some? && c.toolCalls.value != []
  }

  /** A reply that leads to a tool turn: finish reason tool_calls and at least one call. */
  predicate IsToolTurn(c: Completion) {
    WantsTools(c) && HasCalls(c)
  }

  // ---------------------------------------------------------------------------
  // formatToolResult

  /** The text of one element of an MCP content list: the "text" member of a map
      element, when it is there and not null. */
  function ContentText(c: Json): Option<string> {
    if !c.JObj? then None
    else match Lookup(c.fields, "text")
      case Some(t) => if t.JNull? then None else Some(ValueOf(t))
      case None => None
  }

  /** The texts of a content list, in order. */
  function ContentTexts(items: seq<Json>): seq<string>
    decreases |items|
  {
    if items == [] then []
    else
      var last := ContentText(items[|items| - 1]);
      ContentTexts(items[..|items| - 1]) + (if last.Some? then [last.value] else [])
  }

  /** A map whose "content" member is a list, the shape of an MCP tool result. */
  predicate IsContentList(result: Json) {
    result.JObj? && Lookup(result.fields, "content").Some? && Lookup(result.fields, "content").value.JArr?
  }

  /** formatToolResult: "null" for null; for a map whose "content" is a list, the texts
      of its map elements joined by newlines, so a single text element gives its text;
      anything else as String.valueOf. */
  function FormatToolResult(result: Json): string
  {
    match result
    case JNull => "null"
    case JObj(fields) =>
      (match Lookup(fields, "content")
       case Some(JArr(items)) => JoinWith(ContentTexts(items), "\n")
       case _ => ValueOf(result))
    case _ => ValueOf(result)
  }

  /** What formatToolResult makes of each kind of result: "null" for null, the texts of
      a content list joined by newlines (nothing for a list without texts), and
      String.valueOf of anything else. */
  lemma FormatToolResultCases(result: Json)
    ensures result == JNull ==> FormatToolResult(result) == "null"
    ensures IsContentList(result) ==>
              FormatToolResult(result) == JoinWith(ContentTexts(Lookup(result.fields, "content").value.items), "\n")
    ensures IsContentList(result) && ContentTexts(Lookup(result.fields, "content").value.items) == [] ==>
              FormatToolResult(result) == ""
    ensures result != JNull && !IsContentList(result) ==> FormatToolResult(result) == ValueOf(result)
  {
  }

  /** The texts of a content list are exactly the texts of its elements that have one. */
  lemma {:induction false} ContentTextsMembers(items: seq<Json>, s: string)
    ensures s in ContentTexts(items) <==> exists i :: 0 <= i < |items| && ContentText(items[i]) == Some(s)
    decreases |items|
  {
    if items != [] {
      var init := items[..|items| - 1];
      ContentTextsMembers(init, s);
      assert forall i :: 0 <= i < |init| ==> init[i] == items[i];
      if ContentText(items[|items| - 1]) == Some(s) {
        assert s in ContentTexts(items);
      }
    }
  }

  /** The content of the tool message for one executed call. */
  function ToolMessageText(info: ToolCallInfo): string {
    if info.success then FormatToolResult(info.result) else "Error: " + Str(info.error)
  }

  /** One tool message per executed call, in order, answering the call's id. */
  function ToolMessages(executed: seq<ToolCallInfo>): (r: seq<ChatMessage>)
    ensures |r| == |executed|
    ensures forall i :: 0 <= i < |r| ==> r[i] == ToolMsg(ToolMessageText(executed[i]), executed[i].toolCallId)
  {
    seq(|executed|, i requires 0 <= i < |executed| => ToolMsg(ToolMessageText(executed[i]), executed[i].toolCallId))
  }

  /** The messages a tool turn adds: the model's reply, then its tool messages. */
  function ToolTurn(reply: Completion, executed: seq<ToolCallInfo>): seq<ChatMessage> {
    [AssistantMsg(reply.content, reply.toolCalls)] + ToolMessages(executed)
  }

  /** The calls a reply asks for. */
  function CallsOf(reply: Completion): seq<ToolCall> {
    reply.toolCalls.GetOr([])
  }

  /** When the bridge is McpFunctionExecutor.executeAll, the tool messages answer the
      requested calls one for one, in order. */
  lemma ToolMessagesAnswerCalls(e: FE.McpFunctionExecutor, calls: seq<ToolCall>)
    ensures |ToolMessages(e.ExecuteAll(calls))| == |calls|
    ensures forall i :: 0 <= i < |calls| ==> ToolMessages(e.ExecuteAll(calls))[i].toolCallId == calls[i].id
  {
  }

  // ---------------------------------------------------------------------------
  // convertToChatMessages and the initial conversation

  /** The request message for one history entry. */
  function ToChatMessage(m: Message): ChatMessage
    requires IsConversational(m)
  {
    if m.role == "user" then UserMsg(m.content) else AssistantMsg(m.content, None)
  }

  /** The conversation a history contributes: its user and assistant entries. */
  function ChatMessagesOf(history: seq<Message>): seq<ChatMessage>
    decreases |history|
  {
    if history == [] then []
    else
      var m := history[|history| - 1];
      ChatMessagesOf(history[..|history| - 1]) + (if IsConversational(m) then [ToChatMessage(m)] else [])
  }

  /** convertToChatMessages: a loop that keeps the user and assistant entries. */
  method ConvertToChatMessages(history: seq<Message>) returns (chatMessages: seq<ChatMessage>)
    ensures chatMessages == ChatMessagesOf(history)
  {
    chatMessages := [];
    var i := 0;
    while i < |history|
      invariant 0 <= i <= |history|
      invariant chatMessages == ChatMessagesOf(history[..i])
    {
      var msg := history[i];
      assert history[..i + 1][..i] == history[..i];
      if msg.role == "user" {
        chatMessages := chatMessages + [UserMsg(msg.content)];
      } else if msg.role == "assistant" {
        chatMessages := chatMessages + [AssistantMsg(msg.content, None)];
      }
      i := i + 1;
    }
    assert history[..|history|] == history;
  }

  /** Converting a concatenation converts each part. */
  lemma {:induction false} ChatMessagesOfAppend(a: seq<Message>, b: seq<Message>)
    ensures ChatMessagesOf(a + b) == ChatMessagesOf(a) + ChatMessagesOf(b)
    decreases |b|
  {
    if b != [] {
      var b' := b[..|b| - 1];
      assert (a + b)[..|a + b| - 1] == a + b';
      ChatMessagesOfAppend(a, b');
    } else {
      assert a + b == a;
    }
  }

  /** Converting keeps exactly the user and assistant entries, in order: one message
      per entry that the conversation filter keeps, user entries as user messages and
      assistant entries as assistant messages without tool calls, with the same
      content. */
  lemma {:induction false} ChatMessagesOfSpec(history: seq<Message>)
    ensures |ChatMessagesOf(history)| == |Filter(IsConversational, history)|
    ensures forall i :: 0 <= i < |ChatMessagesOf(history)| ==>
              var m := Filter(IsConversational, history)[i];
              ChatMessagesOf(history)[i] == (if m.role == "user" then UserMsg(m.content) else AssistantMsg(m.content, None))
    decreases |history|
  {
    if history != [] {
      ChatMessagesOfSpec(history[..|history| - 1]);
    }
  }

  /** No system or tool message comes out of a history. */
  lemma {:induction false} ChatMessagesOfKinds(history: seq<Message>)
    ensures forall i :: 0 <= i < |ChatMessagesOf(history)| ==>
              ChatMessagesOf(history)[i].UserMsg? || (ChatMessagesOf(history)[i].AssistantMsg? && ChatMessagesOf(history)[i].toolCalls.None?)
    decreases |history|
  {
    if history != [] {
      ChatMessagesOfKinds(history[..|history| - 1]);
    }
  }

  /** The custom system prompt applies: the prompt type is "custom" (ignoring case)
      and the prompt is not blank. */
  predicate UsesCustomPrompt(systemPromptType: Option<string>, customPrompt: Option<string>) {
    systemPromptType.Some? && EqualsIgnoreCase("custom", systemPromptType.value)
    && customPrompt.Some? && Trim(customPrompt.value) != ""
  }

  /** The messages chat starts from: the custom system prompt when it applies, the
      converted history, and the user's message. */
  function InitialMessages(userMessage: string, systemPromptType: Option<string>, customPrompt: Option<string>,
                           history: Option<seq<Message>>): (r: seq<ChatMessage>)
    ensures |r| >= 1 && r[|r| - 1] == UserMsg(Some(userMessage))
    ensures UsesCustomPrompt(systemPromptType, customPrompt) ==> r[0] == SystemMsg(customPrompt.value)
    ensures forall i :: 0 <= i < |r| && r[i].SystemMsg? ==> i == 0 && UsesCustomPrompt(systemPromptType, customPrompt)
    ensures forall i :: 0 <= i < |r| ==> !r[i].ToolMsg?
  {
    var system := if UsesCustomPrompt(systemPromptType, customPrompt) then [SystemMsg(customPrompt.value)] else [];
    var converted := ChatMessagesOf(history.GetOr([]));
    ChatMessagesOfKinds(history.GetOr([]));
    system + converted + [UserMsg(Some(userMessage))]
  }

  // ---------------------------------------------------------------------------
  // The function-calling loop

  /** The loop's variables: the conversation, the iteration counter, the latest reply,
      every executed call so far, and (for the proofs) the requests sent so far. */
  datatype LoopState = LoopState(
    messages: seq<ChatMessage>,
    iteration: int,
    current: Option<Completion>,
    allToolCalls: seq<ToolCallInfo>,
    requests: seq<ModelRequest>)

  /** Tools are offered on the first iteration and after a tool_calls reply, when the
      executor has any. */
  function ToolsOffered(iteration: int, current: Option<Completion>, tools: seq<FE.ToolFunction>): Option<seq<FE.ToolFunction>> {
    if (iteration == 0 || (current.Some? && WantsTools(current.value))) && tools != [] then Some(tools) else None
  }

  /** The loop, from a state to the state it breaks or runs out of iterations in. */
  function Loop(s: LoopState, limit: int, model: Model, bridge: Bridge, tools: seq<FE.ToolFunction>): (r: LoopState)
    decreases limit - s.iteration
  {
    if s.iteration >= limit then s
    else
      var request := ModelRequest(s.messages, ToolsOffered(s.iteration, s.current, tools));
      var reply := model(|s.requests|);
      if IsToolTurn(reply) then
        var executed := bridge(reply.toolCalls.value);
        Loop(LoopState(s.messages + ToolTurn(reply, executed), s.iteration + 1, Some(reply),
                       s.allToolCalls + executed, s.requests + [request]),
             limit, model, bridge, tools)
      else
        s.(current := Some(reply), requests := s.requests + [request])
  }

  function Start(messages: seq<ChatMessage>): LoopState {
    LoopState(messages, 0, None, [], [])
  }

  /** The loop over the executed calls: one tool message each, in order, holding the
      formatted result of a call that succeeded and the error of one that failed. */
  method AppendToolMessages(before: seq<ChatMessage>, executedTools: seq<ToolCallInfo>) returns (messages: seq<ChatMessage>)
    ensures messages == before + ToolMessages(executedTools)
  {
    messages := before;
    var j := 0;
    while j < |executedTools|
      invariant 0 <= j <= |executedTools|
      invariant messages == before + ToolMessages(executedTools[..j])
    {
      var toolInfo := executedTools[j];
      var resultContent;
      if toolInfo.success {
        resultContent := FormatToolResult(toolInfo.result);
      } else {
        resultContent := "Error: " + Str(toolInfo.error);
      }
      assert ToolMessages(executedTools[..j + 1]) == ToolMessages(executedTools[..j]) + [ToolMsg(resultContent, toolInfo.toolCallId)];
      messages := messages + [ToolMsg(resultContent, toolInfo.toolCallId)];
      j := j + 1;
    }
    assert executedTools[..|executedTools|] == executedTools;
  }

  /** The loop as DeepSeekService.chat runs it: it sends the conversation, and on a
      tool_calls reply with calls it appends the reply and one tool message per
      executed call and goes round again; any other reply ends it. */
  method RunLoop(initial: seq<ChatMessage>, limit: int, model: Model, bridge: Bridge, tools: seq<FE.ToolFunction>)
    returns (messages: seq<ChatMessage>, currentResult: Option<Completion>, allToolCalls: seq<ToolCallInfo>)
    ensures var run := Loop(Start(initial), limit, model, bridge, tools);
            messages == run.messages && currentResult == run.current && allToolCalls == run.allToolCalls
  {
    messages := initial;
    allToolCalls := [];
    currentResult := None;
    var iteration := 0;
    ghost var requests: seq<ModelRequest> := [];
    var calls := 0;  // the position in the model's script
    while iteration < limit
      invariant calls == |requests|
      invariant Loop(LoopState(messages, iteration, currentResult, allToolCalls, requests), limit, model, bridge, tools)
                == Loop(Start(initial), limit, model, bridge, tools)
      decreases limit - iteration
    {
      ghost var s0 := LoopState(messages, iteration, currentResult, allToolCalls, requests);
      var offered := ToolsOffered(iteration, currentResult, tools);
      ghost var request := ModelRequest(messages, offered);
      var reply := model(calls);
      calls := calls + 1;
      requests := requests + [request];
      currentResult := Some(reply);
      if WantsTools(reply) {
        var toolCalls := reply.toolCalls;
        if toolCalls.None? || toolCalls.value == [] {
          assert Loop(s0, limit, model, bridge, tools) == LoopState(messages, iteration, currentResult, allToolCalls, requests);
          break;
        }
        messages := messages + [AssistantMsg(reply.content, reply.toolCalls)];
        var executedTools := bridge(toolCalls.value);
        allToolCalls := allToolCalls + executedTools;
        messages := AppendToolMessages(messages, executedTools);
        assert messages == s0.messages + ToolTurn(reply, executedTools);
        iteration := iteration + 1;
        assert Loop(s0, limit, model, bridge, tools) == Loop(LoopState(messages, iteration, currentResult, allToolCalls, requests), limit, model, bridge, tools);
        continue;
      }
      assert Loop(s0, limit, model, bridge, tools) == LoopState(messages, iteration, currentResult, allToolCalls, requests);
      break;
    }
    assert Loop(Start(initial), limit, model, bridge, tools) == LoopState(messages, iteration, currentResult, allToolCalls, requests);
  }

  // ---------------------------------------------------------------------------
  // What the loop does, over whole runs

  /** The messages the tool turn of call k adds. */
  function TurnAt(model: Model, bridge: Bridge, k: nat): seq<ChatMessage> {
    ToolTurn(model(k), bridge(CallsOf(model(k))))
  }

  /** The messages the tool turns of calls lo..hi-1 add, in order. */
  function Turns(model: Model, bridge: Bridge, lo: nat, hi: nat): seq<ChatMessage>
    decreases hi - lo
  {
    if hi <= lo then [] else Turns(model, bridge, lo, hi - 1) + TurnAt(model, bridge, hi - 1)
  }

  /** The calls the tool turn of call k executes. */
  function ExecutedAt(model: Model, bridge: Bridge, k: nat): seq<ToolCallInfo> {
    bridge(CallsOf(model(k)))
  }

  /** The calls the tool turns of calls lo..hi-1 execute, in order. */
  function Executed(model: Model, bridge: Bridge, lo: nat, hi: nat): seq<ToolCallInfo>
    decreases hi - lo
  {
    if hi <= lo then [] else Executed(model, bridge, lo, hi - 1) + ExecutedAt(model, bridge, hi - 1)
  }

  /** A run from a state whose call count equals its iteration count: every call but
      the last was a tool turn, and there is one call per tool turn plus, when the
      loop broke before the limit, the call that ended it. */
  lemma {:induction false} LoopSteps(s: LoopState, limit: int, model: Model, bridge: Bridge, tools: seq<FE.ToolFunction>)
    requires 0 <= s.iteration && |s.requests| == s.iteration
    ensures var r := Loop(s, limit, model, bridge, tools);
            && s.iteration <= r.iteration
            && (s.iteration < limit ==> r.iteration <= limit)
            && (forall n :: s.iteration <= n < r.iteration ==> IsToolTurn(model(n)))
            && (r.iteration >= limit ==> |r.requests| == r.iteration)
            && (r.iteration < limit ==> |r.requests| == r.iteration + 1 && r.current == Some(model(r.iteration))
                                        && !IsToolTurn(model(r.iteration)))
    decreases limit - s.iteration
  {
    if s.iteration < limit {
      var request := ModelRequest(s.messages, ToolsOffered(s.iteration, s.current, tools));
      var reply := model(|s.requests|);
      if IsToolTurn(reply) {
        var executed := bridge(reply.toolCalls.value);
        var next := LoopState(s.messages + ToolTurn(reply, executed), s.iteration + 1, Some(reply),
                              s.allToolCalls + executed, s.requests + [request]);
        LoopSteps(next, limit, model, bridge, tools);
        assert Loop(s, limit, model, bridge, tools) == Loop(next, limit, model, bridge, tools);
      }
    }
  }

  /** Over a run, the conversation gains exactly the tool turns made, and allToolCalls
      exactly their results, in order. */
  lemma {:induction false} LoopGrowth(s: LoopState, limit: int, model: Model, bridge: Bridge, tools: seq<FE.ToolFunction>)
    requires 0 <= s.iteration && |s.requests| == s.iteration
    ensures var r := Loop(s, limit, model, bridge, tools);
            && s.iteration <= r.iteration
            && r.messages == s.messages + Turns(model, bridge, s.iteration, r.iteration)
            && r.allToolCalls == s.allToolCalls + Executed(model, bridge, s.iteration, r.iteration)
    decreases limit - s.iteration
  {
    if s.iteration < limit {
      var request := ModelRequest(s.messages, ToolsOffered(s.iteration, s.current, tools));
      var reply := model(|s.requests|);
      if IsToolTurn(reply) {
        var executed := bridge(reply.toolCalls.value);
        var next := LoopState(s.messages + ToolTurn(reply, executed), s.iteration + 1, Some(reply),
                              s.allToolCalls + executed, s.requests + [request]);
        LoopGrowth(next, limit, model, bridge, tools);
        var final := Loop(next, limit, model, bridge, tools);
        assert Loop(s, limit, model, bridge, tools) == final;
        TurnsFirst(model, bridge, s.iteration, final.iteration);
        ExecutedFirst(model, bridge, s.iteration, final.iteration);
        assert TurnAt(model, bridge, s.iteration) == ToolTurn(reply, executed);
        assert ExecutedAt(model, bridge, s.iteration) == executed;
        AppendAssoc(s.messages, ToolTurn(reply, executed), Turns(model, bridge, s.iteration + 1, final.iteration));
        AppendAssoc(s.allToolCalls, executed, Executed(model, bridge, s.iteration + 1, final.iteration));
      } else {
        assert Turns(model, bridge, s.iteration, s.iteration) == [];
        assert Executed(model, bridge, s.iteration, s.iteration) == [];
      }
    } else {
      assert Turns(model, bridge, s.iteration, s.iteration) == [];
      assert Executed(model, bridge, s.iteration, s.iteration) == [];
    }
  }

  /** Over a run, the earlier requests stay as they were, and each new request carries
      the conversation built so far: the start plus the tool turns before it. */
  lemma {:induction false} LoopRequests(s: LoopState, limit: int, model: Model, bridge: Bridge, tools: seq<FE.ToolFunction>)
    requires 0 <= s.iteration && |s.requests| == s.iteration
    ensures var r := Loop(s, limit, model, bridge, tools);
            && |s.requests| <= |r.requests|
            && r.requests[..|s.requests|] == s.requests
            && (forall n :: s.iteration <= n < |r.requests| ==>
                  r.requests[n].messages == s.messages + Turns(model, bridge, s.iteration, n))
    decreases limit - s.iteration
  {
    if s.iteration < limit {
      var request := ModelRequest(s.messages, ToolsOffered(s.iteration, s.current, tools));
      var reply := model(|s.requests|);
      assert Turns(model, bridge, s.iteration, s.iteration) == [];
      if IsToolTurn(reply) {
        var executed := bridge(reply.toolCalls.value);
        var next := LoopState(s.messages + ToolTurn(reply, executed), s.iteration + 1, Some(reply),
                              s.allToolCalls + executed, s.requests + [request]);
        var r := Loop(next, limit, model, bridge, tools);
        LoopRequests(next, limit, model, bridge, tools);
        assert Loop(s, limit, model, bridge, tools) == r;
        assert TurnAt(model, bridge, s.iteration) == ToolTurn(reply, executed);
        forall n | s.iteration <= n < |r.requests|
          ensures r.requests[n].messages == s.messages + Turns(model, bridge, s.iteration, n)
        {
          if n == s.iteration {
            assert r.requests[n] == (r.requests[..|next.requests|])[n] == request;
          } else {
            TurnsFirst(model, bridge, s.iteration, n);
          }
        }
        assert r.requests[..|s.requests|] == (r.requests[..|next.requests|])[..|s.requests|];
      }
    }
  }

  /** Sequence concatenation is associative. */
  lemma AppendAssoc<T>(a: seq<T>, b: seq<T>, c: seq<T>)
    ensures (a + b) + c == a + (b + c)
  {
  }

  /** Taking the first tool turn off the front. */
  lemma {:induction false} TurnsFirst(model: Model, bridge: Bridge, lo: nat, hi: nat)
    requires lo < hi
    ensures Turns(model, bridge, lo, hi) == TurnAt(model, bridge, lo) + Turns(model, bridge, lo + 1, hi)
    decreases hi - lo
  {
    if hi - 1 > lo {
      var first, middle, last := TurnAt(model, bridge, lo), Turns(model, bridge, lo + 1, hi - 1), TurnAt(model, bridge, hi - 1);
      assert Turns(model, bridge, lo, hi - 1) == first + middle by {
        TurnsFirst(model, bridge, lo, hi - 1);
      }
      assert Turns(model, bridge, lo, hi) == Turns(model, bridge, lo, hi - 1) + last;
      assert Turns(model, bridge, lo + 1, hi) == middle + last;
      AppendAssoc(first, middle, last);
    } else {
      assert Turns(model, bridge, lo, hi - 1) == [];
      assert Turns(model, bridge, lo + 1, hi) == [];
    }
  }

  lemma {:induction false} ExecutedFirst(model: Model, bridge: Bridge, lo: nat, hi: nat)
    requires lo < hi
    ensures Executed(model, bridge, lo, hi) == ExecutedAt(model, bridge, lo) + Executed(model, bridge, lo + 1, hi)
    decreases hi - lo
  {
    if hi - 1 > lo {
      var first, middle, last := ExecutedAt(model, bridge, lo), Executed(model, bridge, lo + 1, hi - 1), ExecutedAt(model, bridge, hi - 1);
      assert Executed(model, bridge, lo, hi - 1) == first + middle by {
        ExecutedFirst(model, bridge, lo, hi - 1);
      }
      assert Executed(model, bridge, lo, hi) == Executed(model, bridge, lo, hi - 1) + last;
      assert Executed(model, bridge, lo + 1, hi) == middle + last;
      AppendAssoc(first, middle, last);
    } else {
      assert Executed(model, bridge, lo, hi - 1) == [];
      assert Executed(model, bridge, lo + 1, hi) == [];
    }
  }

  /** The model is called at most max(limit, 0) times. */
  lemma AtMostLimitCalls(initial: seq<ChatMessage>, limit: int, model: Model, bridge: Bridge, tools: seq<FE.ToolFunction>)
    ensures |Loop(Start(initial), limit, model, bridge, tools).requests| <= (if limit < 0 then 0 else limit)
  {
    LoopSteps(Start(initial), limit, model, bridge, tools);
  }

  /** When every reply is a tool turn the model is called exactly `limit` times, and
      the loop ends holding the last reply. */
  lemma AllToolTurns(initial: seq<ChatMessage>, limit: int, model: Model, bridge: Bridge, tools: seq<FE.ToolFunction>)
    requires forall n :: IsToolTurn(model(n))
    requires limit > 0
    ensures |Loop(Start(initial), limit, model, bridge, tools).requests| == limit
    ensures Loop(Start(initial), limit, model, bridge, tools).current == Some(model(limit - 1))
  {
    var r := Loop(Start(initial), limit, model, bridge, tools);
    LoopSteps(Start(initial), limit, model, bridge, tools);
    LastReply(Start(initial), limit, model, bridge, tools);
  }

  /** A run that makes a tool turn ends holding the reply of its last call. */
  lemma {:induction false} LastReply(s: LoopState, limit: int, model: Model, bridge: Bridge, tools: seq<FE.ToolFunction>)
    requires 0 <= s.iteration && |s.requests| == s.iteration
    requires s.iteration < limit
    ensures var r := Loop(s, limit, model, bridge, tools);
            |r.requests| > 0 && r.current == Some(model(|r.requests| - 1))
    decreases limit - s.iteration
  {
    var reply := model(|s.requests|);
    if IsToolTurn(reply) && s.iteration + 1 < limit {
      var request := ModelRequest(s.messages, ToolsOffered(s.iteration, s.current, tools));
      var executed := bridge(reply.toolCalls.value);
      var next := LoopState(s.messages + ToolTurn(reply, executed), s.iteration + 1, Some(reply),
                            s.allToolCalls + executed, s.requests + [request]);
      LastReply(next, limit, model, bridge, tools);
    }
  }

  /** A first reply of tool_calls without any call ends the loop at once: nothing is
      executed and the conversation is unchanged. */
  lemma EmptyToolCallsStop(initial: seq<ChatMessage>, limit: int, model: Model, bridge: Bridge, tools: seq<FE.ToolFunction>)
    requires limit > 0
    requires WantsTools(model(0)) && !HasCalls(model(0))
    ensures var r := Loop(Start(initial), limit, model, bridge, tools);
            r.messages == initial && r.allToolCalls == [] && |r.requests| == 1 && r.current == Some(model(0))
  {
  }

  /** Every request offers the executor's tools, when it has any: the loop only goes
      round again after a tool_calls reply. */
  lemma {:induction false} ToolsOnEveryCall(s: LoopState, limit: int, model: Model, bridge: Bridge, tools: seq<FE.ToolFunction>)
    requires s.iteration == 0 || (s.current.Some? && WantsTools(s.current.value))
    requires forall n :: 0 <= n < |s.requests| ==> s.requests[n].tools == (if tools == [] then None else Some(tools))
    ensures var r := Loop(s, limit, model, bridge, tools);
            forall n :: 0 <= n < |r.requests| ==> r.requests[n].tools == (if tools == [] then None else Some(tools))
    decreases limit - s.iteration
  {
    var offered := if tools == [] then None else Some(tools);
    if s.iteration < limit {
      var request := ModelRequest(s.messages, ToolsOffered(s.iteration, s.current, tools));
      assert request.tools == offered;
      var reply := model(|s.requests|);
      if IsToolTurn(reply) {
        var executed := bridge(reply.toolCalls.value);
        var next := LoopState(s.messages + ToolTurn(reply, executed), s.iteration + 1, Some(reply),
                              s.allToolCalls + executed, s.requests + [request]);
        assert forall n :: 0 <= n < |next.requests| ==> next.requests[n].tools == offered by {
          forall n | 0 <= n < |next.requests| ensures next.requests[n].tools == offered {
            if n < |s.requests| {
              assert next.requests[n] == s.requests[n];
            }
          }
        }
        assert next.current.Some? && WantsTools(next.current.value);
        ToolsOnEveryCall(next, limit, model, bridge, tools);
        assert forall n :: 0 <= n < |Loop(next, limit, model, bridge, tools).requests| ==> Loop(next, limit, model, bridge, tools).requests[n].tools == (if tools == [] then None else Some(tools));
        assert Loop(s, limit, model, bridge, tools) == Loop(next, limit, model, bridge, tools);
      } else {
        var r := Loop(s, limit, model, bridge, tools);
        assert r.requests == s.requests + [request];
        forall n | 0 <= n < |r.requests| ensures r.requests[n].tools == offered {
          if n < |s.requests| {
            assert r.requests[n] == s.requests[n];
          }
        }
      }
    }
  }

  /** With a bridge that answers every call, the run executed some call exactly when it
      made a tool turn. */
  lemma {:induction false} ExecutedNonEmpty(model: Model, bridge: Bridge, lo: nat, hi: nat)
    requires forall calls :: |bridge(calls)| == |calls|
    requires lo <= hi
    requires forall n :: lo <= n < hi ==> IsToolTurn(model(n))
    ensures Executed(model, bridge, lo, hi) != [] <==> lo < hi
    decreases hi - lo
  {
    if lo < hi {
      ExecutedFirst(model, bridge, lo, hi);
      assert |ExecutedAt(model, bridge, lo)| == |CallsOf(model(lo))| > 0;
    }
  }

  // ---------------------------------------------------------------------------
  // The response

  datatype ChatResponse = ChatResponse(
    content: Option<string>,
    usage: Usage,
    finishReason: Option<string>,
    toolCalls: Option<seq<ToolCallInfo>>,
    hadToolCalls: bool)

  /** The usage of a reply, zeros when it has none. */
  function UsageOf(reply: Completion): (u: Usage)
    ensures reply.usage.None? ==> u == Usage(0, 0, 0)
    ensures reply.usage.Some? ==> u == reply.usage.value
  {
    reply.usage.GetOr(Usage(0, 0, 0))
  }

  /** The response for the loop's final reply, as written: without a reply (no
      iteration ran) the content and finish reason fall back to "" and "unknown",
      but the usage is still read from the missing reply. */
  function ResponseAsWritten(final: Option<Completion>, allToolCalls: seq<ToolCallInfo>): (r: Result<ChatResponse, string>)
    ensures r.Failure? <==> final.None?
    ensures final.None? ==> r.error == "NullPointerException"
    ensures final.Some? ==>
              r.value.content == final.value.content && r.value.finishReason == final.value.finishReason
              && r.value.usage == UsageOf(final.value)
              && (r.value.hadToolCalls <==> allToolCalls != [])
              && r.value.toolCalls == (if allToolCalls == [] then None else Some(allToolCalls))
  {
    if final.None? then Failure("NullPointerException")
    else Success(ChatResponse(final.value.content, UsageOf(final.value), final.value.finishReason,
                              if allToolCalls == [] then None else Some(allToolCalls), allToolCalls != []))
  }

  /** The response for the loop's final reply, with the missing reply handled like in
      the content and finish reason: "" and "unknown", with zero usage. */
  function Response(final: Option<Completion>, allToolCalls: seq<ToolCallInfo>): (r: ChatResponse)
    ensures r.hadToolCalls <==> allToolCalls != []
    ensures r.toolCalls.None? <==> allToolCalls == []
    ensures r.toolCalls.Some? ==> r.toolCalls.value == allToolCalls
    ensures final.None? ==> r.content == Some("") && r.finishReason == Some("unknown") && r.usage == Usage(0, 0, 0)
    ensures final.Some? ==> r.content == final.value.content && r.finishReason == final.value.finishReason
                            && r.usage == UsageOf(final.value)
  {
    match final
    case None => ChatResponse(Some(""), Usage(0, 0, 0), Some("unknown"), if allToolCalls == [] then None else Some(allToolCalls), allToolCalls != [])
    case Some(c) => ChatResponse(c.content, UsageOf(c), c.finishReason, if allToolCalls == [] then None else Some(allToolCalls), allToolCalls != [])
  }

  /** With a limit of zero or less no iteration runs and the response, as written,
      throws; the corrected response is the fallback one. */
  lemma NoIterationThrows(initial: seq<ChatMessage>, limit: int, model: Model, bridge: Bridge, tools: seq<FE.ToolFunction>)
    requires limit <= 0
    ensures var r := Loop(Start(initial), limit, model, bridge, tools);
            && ResponseAsWritten(r.current, r.allToolCalls) == Failure("NullPointerException")
            && Response(r.current, r.allToolCalls) == ChatResponse(Some(""), Usage(0, 0, 0), Some("unknown"), None, false)
  {
  }

  /** Whenever a reply exists the two agree. */
  lemma ResponsesAgree(final: Option<Completion>, allToolCalls: seq<ToolCallInfo>)
    requires final.Some?
    ensures ResponseAsWritten(final, allToolCalls) == Success(Response(final, allToolCalls))
  {
  }

  /** The response of a whole chat, with or without function calling. */
  function ChatResult(initial: seq<ChatMessage>, enableFunctionCalling: bool, limit: int,
                      model: Model, bridge: Bridge, tools: seq<FE.ToolFunction>): (r: ChatResponse)
    ensures !enableFunctionCalling ==>
              !r.hadToolCalls && r.toolCalls.None? && r.content == model(0).content
              && r.finishReason == model(0).finishReason && r.usage == UsageOf(model(0))
    ensures enableFunctionCalling && limit <= 0 ==>
              r == ChatResponse(Some(""), Usage(0, 0, 0), Some("unknown"), None, false)
    ensures enableFunctionCalling ==>
              (r.hadToolCalls <==> Loop(Start(initial), limit, model, bridge, tools).allToolCalls != [])
  {
    if enableFunctionCalling then
      var r := Loop(Start(initial), limit, model, bridge, tools);
      Response(r.current, r.allToolCalls)
    else Response(Some(model(0)), [])
  }

  /** With function calling, the response reports tool calls exactly when the loop made
      a tool turn, for a bridge that answers every call; when every reply is a tool
      turn, the content and finish reason are those of the last reply. */
  lemma ChatResultToolCalls(initial: seq<ChatMessage>, limit: int, model: Model, bridge: Bridge, tools: seq<FE.ToolFunction>)
    requires forall calls :: |bridge(calls)| == |calls|
    ensures var r := Loop(Start(initial), limit, model, bridge, tools);
            ChatResult(initial, true, limit, model, bridge, tools).hadToolCalls <==> r.iteration > 0
    ensures (forall n :: IsToolTurn(model(n))) && limit > 0 ==>
              ChatResult(initial, true, limit, model, bridge, tools).content == model(limit - 1).content &&
              ChatResult(initial, true, limit, model, bridge, tools).finishReason == Some(ToolCallsReason)
  {
    var r := Loop(Start(initial), limit, model, bridge, tools);
    LoopSteps(Start(initial), limit, model, bridge, tools);
    LoopGrowth(Start(initial), limit, model, bridge, tools);
    ExecutedNonEmpty(model, bridge, 0, r.iteration);
    if (forall n :: IsToolTurn(model(n))) && limit > 0 {
      AllToolTurns(initial, limit, model, bridge, tools);
    }
  }

  /** The start of chat: the custom system prompt when it applies, the converted
      history and the user's message, appended in that order. */
  method BuildConversation(userMessage: string, systemPromptType: Option<string>, customPrompt: Option<string>,
                           history: Option<seq<Message>>) returns (messages: seq<ChatMessage>)
    ensures messages == InitialMessages(userMessage, systemPromptType, customPrompt, history)
  {
    messages := [];
    if UsesCustomPrompt(systemPromptType, customPrompt) {
      messages := messages + [SystemMsg(customPrompt.value)];
    }
    if history.Some? {
      var converted := ConvertToChatMessages(history.value);
      messages := messages + converted;
    }
    messages := messages + [UserMsg(Some(userMessage))];
  }

  /** chat: builds the conversation, runs the loop (or a single call without function
      calling), adds the user's message and the final content to the session history
      (creating it when there is none) and answers with the response. */
  method Chat(userMessage: string, systemPromptType: Option<string>, customPrompt: Option<string>,
              history: MessageList?, enableFunctionCalling: bool, limit: int,
              model: Model, bridge: Bridge, tools: seq<FE.ToolFunction>)
    returns (response: ChatResponse, stored: MessageList)
    modifies if history != null then {history} else {}
    ensures history != null ==> stored == history
    ensures history == null ==> fresh(stored)
    ensures var before := if history != null then Some(old(history.items)) else None;
            response == ChatResult(InitialMessages(userMessage, systemPromptType, customPrompt, before),
                                   enableFunctionCalling, limit, model, bridge, tools)
    ensures stored.items == (if history != null then old(history.items) else [])
                            + [Message("user", Some(userMessage), None), Message("assistant", response.content, None)]
  {
    var prior: Option<seq<Message>> := None;
    if history != null {
      prior := Some(history.items);
      stored := history;
    } else {
      stored := new MessageList([]);
    }
    var messages := BuildConversation(userMessage, systemPromptType, customPrompt, prior);
    if enableFunctionCalling {
      var finalMessages, currentResult, allToolCalls := RunLoop(messages, limit, model, bridge, tools);
      response := Response(currentResult, allToolCalls);
    } else {
      var finalResult := model(0);
      response := Response(Some(finalResult), []);
    }
    stored.items := stored.items + [Message("user", Some(userMessage), None)];
    stored.items := stored.items + [Message("assistant", response.content, None)];
  }
}
