/** The `/chat` endpoint: the guard on the two module-level clients, the hand-off to
    the Gemini chat with the MCP tools, and the conversation history it returns. The
    HTTP framework is not modelled: a request is a `ChatRequest` value and a raised
    `HTTPException` is a failure carrying its status code. */
module ChatEndpoint {
  import opened Wrappers
  import opened JsonValues
  import opened Models
  import Mcp
  import Gemini

  /** The two module-level clients, `None` until startup has set them. */
  datatype Services = Services(mcp: Option<Mcp.McpClient>, gemini: Option<Gemini.ChatModel>)

  /** The `HTTPException`s the endpoint raises: 503 when a client is missing, 500
      wrapping whatever was raised after that: the `TypeError` of iterating a null
      history, or an error of the tool catalog or the chat. */
  datatype EndpointError =
    | ServiceUnavailable(detail: string)
    | NullHistory
    | InternalError(cause: Gemini.ChatError)

  const ServicesNotInitialized := "Services not initialized"

  function StatusCode(e: EndpointError): nat {
    match e
    case ServiceUnavailable(_) => 503
    case NullHistory => 500
    case InternalError(_) => 500
  }

  /** The endpoint's reply, and the chat run behind it when the guard let the request
      through. */
  datatype Exchange = Exchange(result: Result<ChatResponse, EndpointError>, run: Option<Gemini.ChatRun>)

  // ---------------------------------------------------------------------------
  // The conversation history
  // ---------------------------------------------------------------------------

  /** The history after one exchange: the old turns, the user's message, the answer. */
  function UpdateHistory(history: seq<Message>, message: string, answer: string): (h: seq<Message>)
    ensures |h| == |history| + 2
    ensures h[..|history|] == history
    ensures h[|history|] == Message("user", message)
    ensures h[|history| + 1] == Message("assistant", answer)
  {
    history + [Message("user", message), Message("assistant", answer)]
  }

  /** A history of whole exchanges: user turns at even positions, assistant turns at
      odd ones, ending on an assistant turn. */
  predicate Alternates(history: seq<Message>) {
    && |history| % 2 == 0
    && forall i :: 0 <= i < |history| ==> history[i].role == (if i % 2 == 0 then "user" else "assistant")
  }

  /** Every exchange keeps a well-alternating history well alternating. */
  lemma UpdateKeepsAlternation(history: seq<Message>, message: string, answer: string)
    requires Alternates(history)
    ensures Alternates(UpdateHistory(history, message, answer))
  {
    var h := UpdateHistory(history, message, answer);
    forall i | 0 <= i < |h|
      ensures h[i].role == (if i % 2 == 0 then "user" else "assistant")
    {
      if i < |history| {
        assert h[i] == h[..|history|][i];
      }
    }
  }

  /** The next request's history reaches the model as the previous history followed by
      the user's message and the model's own answer. */
  lemma UpdatedHistoryReachesModel(history: seq<Message>, message: string, answer: string)
    ensures Gemini.ToGeminiHistory(UpdateHistory(history, message, answer))
      == Gemini.ToGeminiHistory(history)
         + [Gemini.ChatContent("user", [message]), Gemini.ChatContent("model", [answer])]
  {
    var turns := [Message("user", message), Message("assistant", answer)];
    Gemini.ToGeminiHistoryAppend(history, turns);
    var converted := Gemini.ToGeminiHistory(turns);
    assert converted[0] == Gemini.ChatContent("user", [message]);
    assert converted[1] == Gemini.ChatContent("model", [answer]);
  }

  // ---------------------------------------------------------------------------
  // The endpoint
  // ---------------------------------------------------------------------------

  /** Whatever `get_tools_for_gemini` returns converts into one Gemini tool: every
      description it builds has a name and a description. */
  lemma CatalogAlwaysConverts(catalog: seq<map<string, Json>>)
    requires Mcp.ToolsForGemini(catalog).Success?
    ensures Gemini.ConvertTools(Mcp.ToolsForGemini(catalog).value).Success?
  {
    var tools := Mcp.ToolsForGemini(catalog).value;
    forall i | 0 <= i < |tools|
      ensures Gemini.Declarable(tools[i])
    {
      assert Mcp.GeminiTool(catalog[i]) == Success(tools[i]);
    }
  }

  /** `POST /chat`. Both clients must be set, or the request is refused with a 503
      before anything is sent. Otherwise the history is iterated, the catalog is read
      into Gemini tool descriptions, the chat session is started on the converted
      history with those tools, and the history is extended by one exchange. Whatever
      is raised on the way becomes a 500. */
  function HandleChat(services: Services, request: ChatRequest, dumps: Json -> string, fuel: nat): (x: Exchange)
    ensures x.run.None? <==>
      || services.mcp.None? || services.gemini.None? || request.conversationHistory.None?
      || Mcp.ToolsForGemini(services.mcp.value.availableTools).Failure?
    ensures services.mcp.None? || services.gemini.None? ==>
      x.result == Failure(ServiceUnavailable(ServicesNotInitialized))
    ensures services.mcp.Some? && services.gemini.Some? && request.conversationHistory.None? ==>
      x.result == Failure(NullHistory)
    ensures (&& services.mcp.Some? && services.gemini.Some? && request.conversationHistory.Some?
             && Mcp.ToolsForGemini(services.mcp.value.availableTools).Failure?) ==>
      x.result == Failure(InternalError(Gemini.KeyError(Mcp.ToolsForGemini(services.mcp.value.availableTools).error.key)))
    ensures x.result.Failure? ==>
      StatusCode(x.result.error) == (if services.mcp.None? || services.gemini.None? then 503 else 500)
    ensures x.run.Some? ==>
      x.run.value == Gemini.ChatSession(services.gemini.value, Gemini.ToGeminiHistory(request.conversationHistory.value),
                                        request.message, Mcp.ToolsForGemini(services.mcp.value.availableTools).value,
                                        services.mcp, dumps, fuel)
    ensures x.run.Some? ==> (x.result.Success? <==> x.run.value.answer.Success?)
    ensures x.run.Some? && x.result.Failure? ==> x.result.error == InternalError(x.run.value.answer.error)
    ensures x.result.Success? ==> x.run.Some? && x.result.value.response == x.run.value.answer.value
    ensures x.result.Success? ==>
      x.result.value.conversationHistory
      == UpdateHistory(request.conversationHistory.value, request.message, x.result.value.response)
    ensures x.run.Some? ==> x.run.value.sent != [] && x.run.value.sent[0].UserMessage?
    ensures x.run.Some? ==> x.run.value.sent[0].text == request.message
  {
    if services.mcp.None? || services.gemini.None? then
      Exchange(Failure(ServiceUnavailable(ServicesNotInitialized)), None)
    else
      match request.conversationHistory
      case None => Exchange(Failure(NullHistory), None)
      case Some(history) =>
        match Mcp.ToolsForGemini(services.mcp.value.availableTools)
        case Failure(e) => Exchange(Failure(InternalError(Gemini.KeyError(e.key))), None)
        case Success(tools) =>
          CatalogAlwaysConverts(services.mcp.value.availableTools);
          var run := Gemini.Chat(services.gemini.value, request.message, history, tools, services.mcp, dumps, fuel);
          match run.answer
          case Failure(e) => Exchange(Failure(InternalError(e)), Some(run))
          case Success(answer) =>
            Exchange(Success(ChatResponse(answer, UpdateHistory(history, request.message, answer))), Some(run))
  }

  /** With tools in the catalog, the user's message goes out together with one
      declaration per catalog record. */
  lemma ToolsAccompanyTheMessage(services: Services, request: ChatRequest, dumps: Json -> string, fuel: nat)
    requires services.mcp.Some? && services.gemini.Some? && request.conversationHistory.Some?
    requires Mcp.WellFormedCatalog(services.mcp.value.availableTools)
    requires |services.mcp.value.availableTools| > 0
    ensures var x := HandleChat(services, request, dumps, fuel);
      && x.run.value.sent[0].tools.Some?
      && |x.run.value.sent[0].tools.value| == 1
      && |x.run.value.sent[0].tools.value[0].functionDeclarations| == |services.mcp.value.availableTools|
  {
    CatalogAlwaysConverts(services.mcp.value.availableTools);
  }

  /** Sending the returned history back with the next message continues the
      conversation: the next chat session is started on the earlier history, then the
      earlier message as a user turn, then the model's own answer as a model turn. */
  lemma ConversationCarriesOver(services: Services, request: ChatRequest, next: string,
                                dumps: Json -> string, fuel: nat, fuel': nat)
    requires HandleChat(services, request, dumps, fuel).result.Success?
    ensures var reply := HandleChat(services, request, dumps, fuel).result.value;
      var x := HandleChat(services, ChatRequest(next, Some(reply.conversationHistory)), dumps, fuel');
      && x.run.Some?
      && x.run.value
         == Gemini.ChatSession(services.gemini.value,
                               Gemini.ToGeminiHistory(request.conversationHistory.value)
                               + [Gemini.ChatContent("user", [request.message]), Gemini.ChatContent("model", [reply.response])],
                               next, Mcp.ToolsForGemini(services.mcp.value.availableTools).value, services.mcp, dumps, fuel')
  {
    var reply := HandleChat(services, request, dumps, fuel).result.value;
    UpdatedHistoryReachesModel(request.conversationHistory.value, request.message, reply.response);
  }
}
