/** The Gemini chat client: history conversion, tool-declaration conversion,
    tool-result flattening and the tool-call loop.

    The model is an oracle. `ChatModel.send(history, sent)` is the response the
    chat session gives after being started on `history` and sent the messages
    `sent`, the last of which is the one being sent now. Tool calls go through
    `Mcp.CallTool`. The source loop has no iteration bound, so the model loop
    takes `fuel` and stops with `OutOfFuel` when it runs out; that error has no
    counterpart in the source. */
module Gemini {
  import opened Wrappers
  import opened JsonValues
  import opened Text
  import opened Models
  import Mcp

  // ---------------------------------------------------------------------------
  // History
  // ---------------------------------------------------------------------------

  /** One entry of the session history: `{"role": role, "parts": parts}`. */
  datatype ChatContent = ChatContent(role: string, parts: seq<string>)

  /** Gemini knows two roles: "user", and "model" for everything else. */
  function GeminiRole(role: string): (r: string)
    ensures r == "user" || r == "model"
    ensures r == "user" <==> role == "user"
  {
    if role == "user" then "user" else "model"
  }

  /** The conversion loop at the start of `chat`. */
  function ToGeminiHistory(history: seq<Message>): (h: seq<ChatContent>)
    ensures |h| == |history|
    ensures forall i :: 0 <= i < |history| ==>
      h[i].parts == [history[i].content] && (h[i].role == "user" <==> history[i].role == "user")
    ensures forall i :: 0 <= i < |history| ==> h[i].role in {"user", "model"}
    decreases |history|
  {
    if history == [] then []
    else [ChatContent(GeminiRole(history[0].role), [history[0].content])] + ToGeminiHistory(history[1..])
  }

  /** The conversion works entry by entry, so it distributes over concatenation. */
  lemma {:induction false} ToGeminiHistoryAppend(a: seq<Message>, b: seq<Message>)
    ensures ToGeminiHistory(a + b) == ToGeminiHistory(a) + ToGeminiHistory(b)
    decreases |a|
  {
    if a == [] {
      assert a + b == b;
    } else {
      assert (a + b)[1..] == a[1..] + b;
      ToGeminiHistoryAppend(a[1..], b);
    }
  }

  // ---------------------------------------------------------------------------
  // Tool declarations
  // ---------------------------------------------------------------------------

  datatype FunctionDeclaration = FunctionDeclaration(name: Json, description: Json, parameters: Json)

  /** `genai.types.Tool(function_declarations=...)`. */
  datatype Tool = Tool(functionDeclarations: seq<FunctionDeclaration>)

  /** The schema used when a tool description has no `parameters` key. */
  const DefaultParameters: Json := JObj(map["type" := JStr("object"), "properties" := EmptyObject])

  /** Everything `chat` can raise. `KeyError` comes from a tool description that lacks
      "name" or "description"; `IndexError` from a response without a candidate or
      without a part; `ModelRaised` from sending a message or reading a response's
      text; `ToolRaised` from the MCP call; `OutOfFuel` is the model's own bound. */
  datatype ChatError =
    | KeyError(key: string)
    | IndexError
    | ModelRaised(message: string)
    | ToolRaised(message: string)
    | OutOfFuel

  /** The parameters a declaration gets: the description's own, or the default when
      the key is absent (a present key is used whatever its value, null included). */
  function ParametersOf(tool: map<string, Json>): (p: Json)
    ensures "parameters" in tool ==> p == tool["parameters"]
    ensures "parameters" !in tool ==> p == DefaultParameters
  {
    Lookup(tool, "parameters", DefaultParameters)
  }

  /** One `FunctionDeclaration(...)`: `tool["name"]` is read first, then
      `tool["description"]`, then the parameters. */
  function Declaration(tool: map<string, Json>): (r: Result<FunctionDeclaration, ChatError>)
    ensures r.Success? <==> "name" in tool && "description" in tool
    ensures "name" !in tool ==> r == Failure(KeyError("name"))
    ensures "name" in tool && "description" !in tool ==> r == Failure(KeyError("description"))
    ensures r.Success? ==>
      r.value.name == tool["name"] && r.value.description == tool["description"] && r.value.parameters == ParametersOf(tool)
  {
    if "name" !in tool then Failure(KeyError("name"))
    else if "description" !in tool then Failure(KeyError("description"))
    else Success(FunctionDeclaration(tool["name"], tool["description"], ParametersOf(tool)))
  }

  predicate Declarable(tool: map<string, Json>) {
    "name" in tool && "description" in tool
  }

  /** The declarations of all tools in order; the first tool that cannot be declared
      stops the conversion with its error. */
  function Declarations(tools: seq<map<string, Json>>): (r: Result<seq<FunctionDeclaration>, ChatError>)
    ensures r.Success? <==> forall i :: 0 <= i < |tools| ==> Declarable(tools[i])
    ensures r.Success? ==> |r.value| == |tools|
    ensures r.Success? ==> forall i :: 0 <= i < |tools| ==> Declaration(tools[i]) == Success(r.value[i])
    ensures r.Failure? ==>
      exists k :: 0 <= k < |tools| && !Declarable(tools[k]) && Declaration(tools[k]) == Failure(r.error)
        && (forall i :: 0 <= i < k ==> Declarable(tools[i]))
    decreases |tools|
  {
    if tools == [] then Success([])
    else
      match Declaration(tools[0])
      case Failure(e) => Failure(e)
      case Success(d) =>
        match Declarations(tools[1..])
        case Failure(e) =>
          var k :| 0 <= k < |tools[1..]| && !Declarable(tools[1..][k])
            && (forall i :: 0 <= i < k ==> Declarable(tools[1..][i]))
            && Declaration(tools[1..][k]) == Failure(e);
          assert !Declarable(tools[k + 1]) && (forall i :: 0 <= i < k + 1 ==> Declarable(tools[i]));
          Failure(e)
        case Success(ds) => Success([d] + ds)
  }

  /** `_convert_tools_to_gemini_format`: all declarations wrapped in a single Tool. */
  function ConvertTools(tools: seq<map<string, Json>>): (r: Result<seq<Tool>, ChatError>)
    ensures r.Success? <==> forall i :: 0 <= i < |tools| ==> Declarable(tools[i])
    ensures r.Success? ==> |r.value| == 1 && |r.value[0].functionDeclarations| == |tools|
    ensures r.Success? ==> forall i :: 0 <= i < |tools| ==>
      (var d := r.value[0].functionDeclarations[i];
       d.name == tools[i]["name"] && d.description == tools[i]["description"] && d.parameters == ParametersOf(tools[i]))
    ensures r.Failure? ==>
      exists k :: 0 <= k < |tools| && Declaration(tools[k]) == Failure(r.error)
        && (forall i :: 0 <= i < k ==> Declarable(tools[i]))
  {
    var ds :- Declarations(tools);
    Success([Tool(ds)])
  }

  /** The descriptions the MCP client produces always convert, and the default schema
      never applies to them: each declaration carries the listed input schema. */
  lemma CatalogToolsConvert(listed: seq<Mcp.ListedTool>)
    ensures Mcp.ToolsForGemini(Mcp.Catalog(listed)).Success?
    ensures var r := ConvertTools(Mcp.ToolsForGemini(Mcp.Catalog(listed)).value);
      && r.Success? && |r.value[0].functionDeclarations| == |listed|
      && forall i :: 0 <= i < |listed| ==>
           r.value[0].functionDeclarations[i]
           == FunctionDeclaration(JStr(listed[i].name), Mcp.DescriptionValue(listed[i].description), listed[i].inputSchema)
  {
    Mcp.ListedToolsReachGemini(listed);
  }

  // ---------------------------------------------------------------------------
  // Tool results
  // ---------------------------------------------------------------------------

  /** The strings one content item contributes: its text if it has one, otherwise its
      serialised data if it has that, otherwise nothing. */
  function RenderItem(item: Mcp.ContentItem, dumps: Json -> string): (r: seq<string>)
    ensures |r| <= 1
    ensures item.text.Some? ==> r == [item.text.value]
    ensures item.text.None? && item.data.Some? ==> r == [dumps(item.data.value)]
    ensures r == [] <==> item.text.None? && item.data.None?
  {
    if item.text.Some? then [item.text.value]
    else if item.data.Some? then [dumps(item.data.value)]
    else []
  }

  /** The `content_items` list the source builds, item by item in order. */
  function RenderItems(items: seq<Mcp.ContentItem>, dumps: Json -> string): (r: seq<string>)
    ensures |r| <= |items|
    decreases |items|
  {
    if items == [] then [] else RenderItem(items[0], dumps) + RenderItems(items[1..], dumps)
  }

  /** `_format_tool_result`: a result with `content` is its rendered lines joined by
      newlines; any other result is its `str` rendering, unchanged. */
  function FormatToolResult(result: Mcp.ToolResult, dumps: Json -> string): (r: string)
    ensures result.OtherResult? ==> r == result.rendered
  {
    match result
    case OtherResult(s) => s
    case CallResult(items) => Join("\n", RenderItems(items, dumps))
  }

  /** A one-item list renders as that item does. */
  lemma RenderOneItem(item: Mcp.ContentItem, dumps: Json -> string)
    ensures RenderItems([item], dumps) == RenderItem(item, dumps)
  {
    assert [item][1..] == [];
  }

  /** Rendering distributes over concatenation of content lists. With `RenderOneItem`
      this pins the rendering of every list down to `RenderItem` item by item. */
  lemma {:induction false} RenderItemsAppend(a: seq<Mcp.ContentItem>, b: seq<Mcp.ContentItem>, dumps: Json -> string)
    ensures RenderItems(a + b, dumps) == RenderItems(a, dumps) + RenderItems(b, dumps)
    decreases |a|
  {
    if a == [] {
      assert a + b == b;
    } else {
      assert (a + b)[1..] == a[1..] + b;
      RenderItemsAppend(a[1..], b, dumps);
    }
  }

  /** When every item has text or data, each item gives exactly one line, in item
      order: its text if it has one, otherwise its serialised data. */
  lemma {:induction false} SpeakingItems(items: seq<Mcp.ContentItem>, dumps: Json -> string)
    requires forall i :: 0 <= i < |items| ==> items[i].text.Some? || items[i].data.Some?
    ensures |RenderItems(items, dumps)| == |items|
    ensures forall i :: 0 <= i < |items| ==>
      RenderItems(items, dumps)[i]
      == (if items[i].text.Some? then items[i].text.value else dumps(items[i].data.value))
    decreases |items|
  {
    if items != [] {
      SpeakingItems(items[1..], dumps);
    }
  }

  /** A text item and a data item flatten to the text, a newline and the serialised
      data. */
  lemma TextThenData(text: string, data: Json, dumps: Json -> string)
    ensures FormatToolResult(Mcp.CallResult([Mcp.ContentItem(Some(text), None), Mcp.ContentItem(None, Some(data))]), dumps)
            == text + "\n" + dumps(data)
  {
    var items := [Mcp.ContentItem(Some(text), None), Mcp.ContentItem(None, Some(data))];
    SpeakingItems(items, dumps);
    assert RenderItems(items, dumps) == [text, dumps(data)];
    assert RenderItems(items, dumps)[1..] == [dumps(data)];
    assert Join("\n", [text, dumps(data)]) == text + "\n" + Join("\n", [dumps(data)]);
  }

  /** Items with neither text nor data contribute nothing, so a result made only of
      them (or with no content at all) flattens to the empty string. */
  lemma {:induction false} SilentItemsFlattenToNothing(items: seq<Mcp.ContentItem>, dumps: Json -> string)
    requires forall i :: 0 <= i < |items| ==> items[i].text.None? && items[i].data.None?
    ensures RenderItems(items, dumps) == []
    ensures FormatToolResult(Mcp.CallResult(items), dumps) == ""
    decreases |items|
  {
    if items != [] {
      SilentItemsFlattenToNothing(items[1..], dumps);
    }
  }

  /** Flattening two content lists one after the other: one newline between the two
      flattened halves when both contribute something, and no trace of a half that
      contributes nothing. */
  lemma FlattenAppend(a: seq<Mcp.ContentItem>, b: seq<Mcp.ContentItem>, dumps: Json -> string)
    ensures var fa := FormatToolResult(Mcp.CallResult(a), dumps);
            var fb := FormatToolResult(Mcp.CallResult(b), dumps);
            var fab := FormatToolResult(Mcp.CallResult(a + b), dumps);
      && (RenderItems(a, dumps) == [] ==> fab == fb)
      && (RenderItems(b, dumps) == [] ==> fab == fa)
      && (RenderItems(a, dumps) != [] && RenderItems(b, dumps) != [] ==> fab == fa + "\n" + fb)
  {
    RenderItemsAppend(a, b, dumps);
    var ra := RenderItems(a, dumps);
    var rb := RenderItems(b, dumps);
    if ra == [] {
      assert ra + rb == rb;
    } else if rb == [] {
      assert ra + rb == ra;
    } else {
      JoinAppend("\n", ra, rb);
    }
  }

  // ---------------------------------------------------------------------------
  // The tool-call loop
  // ---------------------------------------------------------------------------

  datatype FunctionCall = FunctionCall(name: string, args: map<string, Json>)

  /** A response part; only whether it carries a function call matters to the loop. */
  datatype Part = Part(functionCall: Option<FunctionCall>)

  /** A response: the parts of each candidate, and what reading `response.text`
      gives (it can raise). */
  datatype ModelResponse = ModelResponse(candidates: seq<seq<Part>>, text: Result<string, string>)

  /** A message sent to the session: the user's message (with the tool declarations
      when tools are in use) or a function response. */
  datatype Outgoing =
    | UserMessage(text: string, tools: Option<seq<Tool>>)
    | FunctionResponse(name: string, response: map<string, Json>)

  datatype SendOutcome = Responded(response: ModelResponse) | SendRaised(message: string)

  /** The model oracle. */
  datatype ChatModel = ChatModel(send: (seq<ChatContent>, seq<Outgoing>) -> SendOutcome)

  /** The answer, every message sent to the session, and every tool call the model
      asked for, in order. */
  datatype ChatRun = ChatRun(answer: Result<string, ChatError>, sent: seq<Outgoing>, requested: seq<FunctionCall>)

  /** `response.candidates[0].content.parts[0]`, if there is one. */
  function FirstPart(r: ModelResponse): (p: Option<Part>)
    ensures p.Some? <==> |r.candidates| >= 1 && |r.candidates[0]| >= 1
  {
    if |r.candidates| == 0 || |r.candidates[0]| == 0 then None else Some(r.candidates[0][0])
  }

  /** The call the loop acts on: the function call of the first part only. */
  function RequestedCall(r: ModelResponse): Option<FunctionCall> {
    match FirstPart(r)
    case None => None
    case Some(p) => p.functionCall
  }

  /** `response.text`, with its failure as a chat error. */
  function TextOf(r: ModelResponse): (t: Result<string, ChatError>)
    ensures r.text.Success? ==> t == Success(r.text.value)
    ensures r.text.Failure? ==> t == Failure(ModelRaised(r.text.error))
  {
    match r.text
    case Success(s) => Success(s)
    case Failure(m) => Failure(ModelRaised(m))
  }

  /** The function response fed back for a tool result. */
  function ToolReply(name: string, result: Mcp.ToolResult, dumps: Json -> string): Outgoing {
    FunctionResponse(name, map["result" := JStr(FormatToolResult(result, dumps))])
  }

  /** The i-th requested call is the first-part call of the response to the first
      i+1 messages. */
  ghost predicate CallAt(model: ChatModel, h: seq<ChatContent>, sent: seq<Outgoing>, requested: seq<FunctionCall>, i: nat) {
    && i < |requested| && i < |sent|
    && model.send(h, sent[..i + 1]).Responded?
    && RequestedCall(model.send(h, sent[..i + 1]).response) == Some(requested[i])
  }

  /** Message i+1 is the function response to requested call i: same name, and the
      flattened result of calling the tool with exactly the requested name and
      arguments, which returned. */
  ghost predicate ReplyAt(mcp: Mcp.McpClient, dumps: Json -> string, sent: seq<Outgoing>, requested: seq<FunctionCall>, i: nat) {
    && i < |requested| && i + 1 < |sent|
    && var outcome := Mcp.CallTool(mcp, requested[i].name, requested[i].args);
       outcome.Returned? && sent[i + 1] == ToolReply(requested[i].name, outcome.result, dumps)
  }

  /** What a run looks like: it starts with the user's message, and alternates requested
      calls and their function responses. */
  ghost predicate FaithfulTrace(model: ChatModel, h: seq<ChatContent>, mcp: Mcp.McpClient, dumps: Json -> string,
                                sent: seq<Outgoing>, requested: seq<FunctionCall>)
  {
    && |sent| >= 1 && sent[0].UserMessage?
    && |sent| - 1 <= |requested| <= |sent|
    && (forall i: nat :: i < |requested| ==> CallAt(model, h, sent, requested, i))
    && (forall i: nat :: i < |sent| - 1 ==> ReplyAt(mcp, dumps, sent, requested, i))
  }

  /** A requested call joins the trace. */
  lemma RecordCall(model: ChatModel, h: seq<ChatContent>, mcp: Mcp.McpClient, dumps: Json -> string,
                   sent: seq<Outgoing>, requested: seq<FunctionCall>, call: FunctionCall)
    requires FaithfulTrace(model, h, mcp, dumps, sent, requested) && |requested| == |sent| - 1
    requires model.send(h, sent).Responded? && RequestedCall(model.send(h, sent).response) == Some(call)
    ensures FaithfulTrace(model, h, mcp, dumps, sent, requested + [call])
  {
    var requested' := requested + [call];
    forall i: nat | i < |requested'|
      ensures CallAt(model, h, sent, requested', i)
    {
      if i == |requested| {
        assert sent[..i + 1] == sent;
      } else {
        assert CallAt(model, h, sent, requested, i);
      }
    }
    forall i: nat | i < |sent| - 1
      ensures ReplyAt(mcp, dumps, sent, requested', i)
    {
      assert ReplyAt(mcp, dumps, sent, requested, i);
    }
  }

  /** The function response to the last requested call joins the trace. */
  lemma RecordReply(model: ChatModel, h: seq<ChatContent>, mcp: Mcp.McpClient, dumps: Json -> string,
                    sent: seq<Outgoing>, requested: seq<FunctionCall>, result: Mcp.ToolResult)
    requires FaithfulTrace(model, h, mcp, dumps, sent, requested) && |requested| == |sent|
    requires var call := requested[|requested| - 1]; Mcp.CallTool(mcp, call.name, call.args) == Mcp.Returned(result)
    ensures var call := requested[|requested| - 1];
      FaithfulTrace(model, h, mcp, dumps, sent + [ToolReply(call.name, result, dumps)], requested)
  {
    var call := requested[|requested| - 1];
    var sent' := sent + [ToolReply(call.name, result, dumps)];
    forall i: nat | i < |requested|
      ensures CallAt(model, h, sent', requested, i)
    {
      assert CallAt(model, h, sent, requested, i);
      assert sent'[..i + 1] == sent[..i + 1];
    }
    forall i: nat | i < |sent'| - 1
      ensures ReplyAt(mcp, dumps, sent', requested, i)
    {
      if i < |sent| - 1 {
        assert ReplyAt(mcp, dumps, sent, requested, i);
      }
    }
  }

  /** How a run ends, read off its final state. A run that stopped at a response (one
      call fewer than messages sent) is decided by that response: a send that raised,
      a response without a first part, a first part without a call (the answer is the
      response's text), or a further call with the bound exhausted. A run that stopped
      right after a call (as many calls as messages) stopped because that call raised. */
  predicate Concluded(model: ChatModel, h: seq<ChatContent>, mcp: Mcp.McpClient, run: ChatRun, bound: nat) {
    && (|run.requested| + 1 == |run.sent| ==>
          match model.send(h, run.sent)
          case SendRaised(m) => run.answer == Failure(ModelRaised(m))
          case Responded(last) =>
            && (FirstPart(last).None? ==> run.answer == Failure(IndexError))
            && (FirstPart(last).Some? && RequestedCall(last).None? ==> run.answer == TextOf(last))
            && (RequestedCall(last).Some? ==> run.answer == Failure(OutOfFuel) && |run.requested| == bound))
    && (|run.requested| == |run.sent| >= 1 ==>
          var call := run.requested[|run.requested| - 1];
          && Mcp.CallTool(mcp, call.name, call.args).Raised?
          && run.answer == Failure(ToolRaised(Mcp.CallTool(mcp, call.name, call.args).message)))
  }

  /** The while loop of `chat`, entered with the response to the messages sent so far:
      the run extends the trace faithfully and ends as `Concluded` says, with the bound
      counted from the calls already made. */
  function ToolLoop(model: ChatModel, h: seq<ChatContent>, mcp: Mcp.McpClient, dumps: Json -> string,
                    sent: seq<Outgoing>, requested: seq<FunctionCall>, response: ModelResponse, fuel: nat): (run: ChatRun)
    requires FaithfulTrace(model, h, mcp, dumps, sent, requested) && |requested| == |sent| - 1
    requires model.send(h, sent) == Responded(response)
    ensures FaithfulTrace(model, h, mcp, dumps, run.sent, run.requested)
    ensures sent <= run.sent && requested <= run.requested
    ensures |run.requested| <= |requested| + fuel
    ensures Concluded(model, h, mcp, run, |requested| + fuel)
    decreases fuel
  {
    match FirstPart(response)
    case None => ChatRun(Failure(IndexError), sent, requested)
    case Some(part) =>
      match part.functionCall
      case None => ChatRun(TextOf(response), sent, requested)
      case Some(call) =>
        if fuel == 0 then ChatRun(Failure(OutOfFuel), sent, requested)
        else
          var requested' := requested + [call];
          RecordCall(model, h, mcp, dumps, sent, requested, call);
          match Mcp.CallTool(mcp, call.name, call.args)
          case Raised(m) => ChatRun(Failure(ToolRaised(m)), sent, requested')
          case Returned(result) =>
            var sent' := sent + [ToolReply(call.name, result, dumps)];
            RecordReply(model, h, mcp, dumps, sent, requested', result);
            match model.send(h, sent')
            case SendRaised(m) => ChatRun(Failure(ModelRaised(m)), sent', requested')
            case Responded(next) => ToolLoop(model, h, mcp, dumps, sent', requested', next, fuel - 1)
  }

  /** The chat session started on the Gemini history `h`: the tool path when there are
      tools and an MCP client, the plain path otherwise. */
  function ChatSession(model: ChatModel, h: seq<ChatContent>, userMessage: string,
                       tools: seq<map<string, Json>>, mcp: Option<Mcp.McpClient>, dumps: Json -> string, fuel: nat): (run: ChatRun)
    ensures |tools| == 0 || mcp.None? ==>
      && run.requested == []
      && run.sent == [UserMessage(userMessage, None)]
      && run.answer == match model.send(h, run.sent)
                       case SendRaised(m) => Failure(ModelRaised(m))
                       case Responded(r) => TextOf(r)
    ensures |tools| > 0 && mcp.Some? && ConvertTools(tools).Failure? ==>
      run == ChatRun(Failure(ConvertTools(tools).error), [], [])
    ensures |tools| > 0 && mcp.Some? && ConvertTools(tools).Success? ==>
      && FaithfulTrace(model, h, mcp.value, dumps, run.sent, run.requested)
      && run.sent[0] == UserMessage(userMessage, Some(ConvertTools(tools).value))
      && |run.requested| <= fuel
      && Concluded(model, h, mcp.value, run, fuel)
  {
    if |tools| > 0 && mcp.Some? then
      match ConvertTools(tools)
      case Failure(e) => ChatRun(Failure(e), [], [])
      case Success(declared) =>
        var first := [UserMessage(userMessage, Some(declared))];
        match model.send(h, first)
        case SendRaised(m) => ChatRun(Failure(ModelRaised(m)), first, [])
        case Responded(response) => ToolLoop(model, h, mcp.value, dumps, first, [], response, fuel)
    else
      var first := [UserMessage(userMessage, None)];
      match model.send(h, first)
      case SendRaised(m) => ChatRun(Failure(ModelRaised(m)), first, [])
      case Responded(response) =>
        // `response.text` is read without looking at the parts
        ChatRun(TextOf(response), first, [])
  }

  /** `GeminiClient.chat`: the session is started on the converted history. */
  function Chat(model: ChatModel, userMessage: string, history: seq<Message>,
                tools: seq<map<string, Json>>, mcp: Option<Mcp.McpClient>, dumps: Json -> string, fuel: nat): ChatRun
  {
    ChatSession(model, ToGeminiHistory(history), userMessage, tools, mcp, dumps, fuel)
  }

  // ---------------------------------------------------------------------------
  // Properties of the loop
  // ---------------------------------------------------------------------------

  /** A model that asks for a tool in every response. */
  ghost predicate AlwaysCalls(model: ChatModel, h: seq<ChatContent>) {
    forall sent :: model.send(h, sent).Responded? && RequestedCall(model.send(h, sent).response).Some?
  }

  /** A connected client whose tools never raise. */
  ghost predicate ToolsNeverRaise(mcp: Mcp.McpClient) {
    mcp.session.Some? && forall name, args :: mcp.session.value.invoke(name, args).Returned?
  }

  /** The loop has no bound of its own: against a model that always asks for a tool and
      tools that always return, it makes one tool call per unit of fuel and never
      answers, however much fuel it gets. */
  lemma {:induction false} LoopNeverAnswers(model: ChatModel, h: seq<ChatContent>, mcp: Mcp.McpClient, dumps: Json -> string,
                                             sent: seq<Outgoing>, requested: seq<FunctionCall>, response: ModelResponse, fuel: nat)
    requires FaithfulTrace(model, h, mcp, dumps, sent, requested) && |requested| == |sent| - 1
    requires model.send(h, sent) == Responded(response)
    requires AlwaysCalls(model, h) && ToolsNeverRaise(mcp)
    ensures var run := ToolLoop(model, h, mcp, dumps, sent, requested, response, fuel);
      run.answer == Failure(OutOfFuel) && |run.requested| == |requested| + fuel
    decreases fuel
  {
    assert RequestedCall(model.send(h, sent).response).Some?;
    if fuel > 0 {
      var call := RequestedCall(response).value;
      var result := Mcp.CallTool(mcp, call.name, call.args).result;
      RecordCall(model, h, mcp, dumps, sent, requested, call);
      RecordReply(model, h, mcp, dumps, sent, requested + [call], result);
      var sent' := sent + [ToolReply(call.name, result, dumps)];
      LoopNeverAnswers(model, h, mcp, dumps, sent', requested + [call], model.send(h, sent').response, fuel - 1);
    }
  }

  /** The same at the level of the session: with tools in use, such a model exhausts
      any bound after exactly that many tool calls. */
  lemma ChatNeverAnswers(model: ChatModel, h: seq<ChatContent>, userMessage: string,
                         tools: seq<map<string, Json>>, mcp: Mcp.McpClient, dumps: Json -> string, fuel: nat)
    requires |tools| > 0 && forall i :: 0 <= i < |tools| ==> Declarable(tools[i])
    requires AlwaysCalls(model, h) && ToolsNeverRaise(mcp)
    ensures var run := ChatSession(model, h, userMessage, tools, Some(mcp), dumps, fuel);
      run.answer == Failure(OutOfFuel) && |run.requested| == fuel
  {
    var first := [UserMessage(userMessage, Some(ConvertTools(tools).value))];
    assert model.send(h, first).Responded?;
    LoopNeverAnswers(model, h, mcp, dumps, first, [], model.send(h, first).response, fuel);
  }

  /** A tool that returns, whatever it returns (an error text included), does not stop
      the loop: its flattened result goes back as the function response under the
      call's name, and when the model then answers without a call, that text is the
      chat's answer. */
  lemma ToolResultIsFedBack(model: ChatModel, h: seq<ChatContent>, userMessage: string, tools: seq<map<string, Json>>,
                            mcp: Mcp.McpClient, dumps: Json -> string, fuel: nat, call: FunctionCall, result: Mcp.ToolResult)
    requires |tools| > 0 && ConvertTools(tools).Success? && fuel >= 1
    requires var first := [UserMessage(userMessage, Some(ConvertTools(tools).value))];
      model.send(h, first).Responded? && RequestedCall(model.send(h, first).response) == Some(call)
    requires Mcp.CallTool(mcp, call.name, call.args) == Mcp.Returned(result)
    requires var sent := [UserMessage(userMessage, Some(ConvertTools(tools).value)), ToolReply(call.name, result, dumps)];
      && model.send(h, sent).Responded?
      && FirstPart(model.send(h, sent).response).Some?
      && RequestedCall(model.send(h, sent).response).None?
    ensures var run := ChatSession(model, h, userMessage, tools, Some(mcp), dumps, fuel);
      && run.requested == [call]
      && run.sent == [UserMessage(userMessage, Some(ConvertTools(tools).value)),
                      FunctionResponse(call.name, map["result" := JStr(FormatToolResult(result, dumps))])]
      && run.answer == TextOf(model.send(h, run.sent).response)
  {
    var first := [UserMessage(userMessage, Some(ConvertTools(tools).value))];
    var response := model.send(h, first).response;
    assert FaithfulTrace(model, h, mcp, dumps, first, []);
    RecordCall(model, h, mcp, dumps, first, [], call);
    assert [] + [call] == [call];
    RecordReply(model, h, mcp, dumps, first, [call], result);
    var sent := first + [ToolReply(call.name, result, dumps)];
    assert sent == [UserMessage(userMessage, Some(ConvertTools(tools).value)), ToolReply(call.name, result, dumps)];
    var next := model.send(h, sent).response;
    assert ToolLoop(model, h, mcp, dumps, sent, [call], next, fuel - 1) == ChatRun(TextOf(next), sent, [call]);
    assert ToolLoop(model, h, mcp, dumps, first, [], response, fuel) == ChatRun(TextOf(next), sent, [call]);
  }
}
