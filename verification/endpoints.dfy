/** The request handlers behind `/api/chat`, `/api/generate` and the health check:
    handler lookup, question selection and model dispatch. Forwarding requests for
    other models to the LLM server is not modelled (see README). */
module Endpoints {
  import opened Wrappers
  import opened PyText
  import opened PyValues
  import opened Responses
  import opened Streaming
  import ChatHandling
  import RagLogging

  datatype Message = Message(role: string, content: string)

  datatype ChatRequest = ChatRequest(model: string, messages: seq<Message>, stream: bool)

  datatype GenerateRequest = GenerateRequest(model: string, prompt: string, stream: bool)

  /** What a chat request returns: one reply, a stream of units, or the LLM
      server's answer for a model other than the RAG model. */
  datatype ChatReply = ChatReplied(response: ChatResponse) | ChatStreamed(units: seq<ChatResponse>) | Forwarded

  /** What a generate request returns. */
  datatype GenerateReply = GenerateReplied(response: GenerateResponse) | GenerateStreamed(units: seq<GenerateResponse>)

  /** The service name the health check reports. */
  const HealthServiceName := "cheeseade-rag-server"

  const HandlerMissing := HttpError(503, "Chat handler not initialized")
  const NoUserMessage := HttpError(400, "No user message found")

  /** `get_chat_handler`: the registered handler, or HTTP 503. */
  function GetChatHandler(handler: Option<ChatHandling.Handler>): (r: Result<ChatHandling.Handler, PyError>)
    ensures r.Ok? <==> handler.Some?
    ensures r.Ok? ==> r.value == handler.value
    ensures r.Err? ==> r.error == HandlerMissing
  {
    match handler
    case Some(h) => Ok(h)
    case None => Err(HandlerMissing)
  }

  /** The position of the last message whose role is "user". */
  function LastUserIndex(msgs: seq<Message>): (r: Option<nat>)
    ensures r.Some? ==> r.value < |msgs| && msgs[r.value].role == "user"
    ensures r.Some? ==> forall j :: r.value < j < |msgs| ==> msgs[j].role != "user"
    ensures r.None? ==> forall j :: 0 <= j < |msgs| ==> msgs[j].role != "user"
  {
    if |msgs| == 0 then None
    else if msgs[|msgs| - 1].role == "user" then Some(|msgs| - 1)
    else LastUserIndex(msgs[..|msgs| - 1])
  }

  /** The chat question: the content of the last user message. */
  function Question(msgs: seq<Message>): (q: Option<string>)
    ensures q.Some? <==> exists j :: 0 <= j < |msgs| && msgs[j].role == "user"
  {
    match LastUserIndex(msgs)
    case Some(i) => Some(msgs[i].content)
    case None => None
  }

  /** Appending a non-user message leaves the question unchanged; appending a
      user message makes its content the question. */
  lemma QuestionAppend(msgs: seq<Message>, m: Message)
    ensures m.role == "user" ==> Question(msgs + [m]) == Some(m.content)
    ensures m.role != "user" ==> Question(msgs + [m]) == Question(msgs)
  {
    assert (msgs + [m])[..|msgs + [m]| - 1] == msgs;
  }

  /** `handle_chat_request`. `rag` is the handler's `process_with_rag` on a
      question (what it returns or raises). */
  function HandleChatRequest(
    handler: Option<ChatHandling.Handler>, request: ChatRequest,
    rag: string -> Result<string, PyError>): (r: Result<ChatReply, PyError>)
    ensures handler.None? ==> r == Err(HandlerMissing)
    ensures handler.Some? && Question(request.messages).None? ==> r == Err(NoUserMessage)
    ensures r.Ok? <==> handler.Some? && Question(request.messages).Some?
    ensures r.Ok? && request.model != handler.value.ragModelName ==> r.value == Forwarded
    ensures r.Ok? && request.model == handler.value.ragModelName && request.stream ==>
      r.value == ChatStreamed(ChatStream(Question(request.messages).value, request.model,
        rag(Question(request.messages).value)))
    ensures r.Ok? && request.model == handler.value.ragModelName && !request.stream ==>
      var outcome := rag(Question(request.messages).value);
      r.value == ChatReplied(
        if outcome.Ok? then CreateChatResponse(request.model, outcome.value, true)
        else CreateChatErrorResponse(request.model, outcome.error.Str()))
  {
    match GetChatHandler(handler)
    case Err(e) => Err(e)
    case Ok(h) =>
      match Question(request.messages)
      case None => Err(NoUserMessage)
      case Some(question) =>
        if request.model != h.ragModelName then Ok(Forwarded)
        else if request.stream then Ok(ChatStreamed(ChatStream(question, request.model, rag(question))))
        else
          match rag(question)
          case Ok(content) => Ok(ChatReplied(CreateChatResponse(request.model, content, true)))
          case Err(e) => Ok(ChatReplied(CreateChatErrorResponse(request.model, e.Str())))
  }

  /** The reply to a generate request for a model other than the RAG model. */
  function NotSupportedMessage(model: string, ragModel: string): string {
    "Model '" + model + "' not supported. Only '" + ragModel + "' is available on this RAG server."
  }

  /** `handle_generate_request`. */
  function HandleGenerateRequest(
    handler: Option<ChatHandling.Handler>, request: GenerateRequest,
    rag: string -> Result<string, PyError>): (r: Result<GenerateReply, PyError>)
    ensures r.Ok? <==> handler.Some?
    ensures handler.None? ==> r == Err(HandlerMissing)
    ensures r.Ok? && request.model != handler.value.ragModelName ==>
      r.value == GenerateReplied(CreateGenerateErrorResponse(request.model,
        NotSupportedMessage(request.model, handler.value.ragModelName)))
    ensures r.Ok? && request.model == handler.value.ragModelName && request.stream ==>
      r.value == GenerateStreamed(GenerateStream(request.prompt, request.model, rag(request.prompt)))
    ensures r.Ok? && request.model == handler.value.ragModelName && !request.stream ==>
      r.value == GenerateReplied(
        if rag(request.prompt).Ok? then CreateGenerateResponse(request.model, rag(request.prompt).value, true)
        else CreateGenerateErrorResponse(request.model, rag(request.prompt).error.Str()))
  {
    match GetChatHandler(handler)
    case Err(e) => Err(e)
    case Ok(h) =>
      if request.model != h.ragModelName then
        Ok(GenerateReplied(CreateGenerateErrorResponse(request.model, NotSupportedMessage(request.model, h.ragModelName))))
      else if request.stream then Ok(GenerateStreamed(GenerateStream(request.prompt, request.model, rag(request.prompt))))
      else
        match rag(request.prompt)
        case Ok(content) => Ok(GenerateReplied(CreateGenerateResponse(request.model, content, true)))
        case Err(e) => Ok(GenerateReplied(CreateGenerateErrorResponse(request.model, e.Str())))
  }

  /** The generate error for a foreign model names the requested model and the one
      model this server offers. */
  lemma NotSupportedNamesModels(model: string, ragModel: string)
    ensures var m := NotSupportedMessage(model, ragModel);
      StartsWith(m, "Model '" + model + "'")
      && Contains(m[|"Model '" + model + "' not supported. Only "|..], "'" + ragModel + "'")
  {
    var m := NotSupportedMessage(model, ragModel);
    var head := "Model '" + model + "' not supported. Only ";
    var rest := m[|head|..];
    assert m == head + ("'" + ragModel + "'" + " is available on this RAG server.");
    assert rest == "'" + ragModel + "'" + " is available on this RAG server.";
    assert StartsWith(rest, "'" + ragModel + "'");
  }

  /** When `process_with_rag` raises its HTTP 500 (see `ChatHandling.ProcessWithRag`),
      a non-streamed chat reply reports it as "Error: 500: RAG 처리 실패: <message>". */
  lemma ChatReportsRagFailure(
    h: ChatHandling.Handler, request: ChatRequest, rag: string -> Result<string, PyError>, msg: string)
    requires request.model == h.ragModelName && !request.stream
    requires Question(request.messages).Some?
    requires rag(Question(request.messages).value) == Err(HttpError(500, ChatHandling.FailurePrefix + msg))
    ensures HandleChatRequest(Some(h), request, rag)
      == Ok(ChatReplied(CreateChatErrorResponse(request.model, "500: " + ChatHandling.FailurePrefix + msg)))
  {
    Http500Text(ChatHandling.FailurePrefix + msg);
    assert "500: " + (ChatHandling.FailurePrefix + msg) == "500: " + ChatHandling.FailurePrefix + msg;
  }

  /** The same, with `rag` being the handler's own `process_with_rag` (called by
      the endpoint without request info): a failing chain reaches the client as
      "Error: 500: RAG 처리 실패: <the chain's error>". */
  lemma ChatReportsChainFailure(
    h: ChatHandling.Handler, request: ChatRequest, uuidHex: string,
    retrieve: string -> Result<seq<Document>, PyError>,
    invoke: (ChatHandling.Chain, string) -> Result<string, PyError>, elapsedMs: int)
    requires request.model == h.ragModelName && !request.stream
    requires Question(request.messages).Some?
    requires invoke(h.chain, Question(request.messages).value).Err?
    ensures var rag := (q: string) => ChatHandling.ProcessWithRag(h, q, None, uuidHex, retrieve, invoke, elapsedMs).result;
      HandleChatRequest(Some(h), request, rag)
        == Ok(ChatReplied(CreateChatErrorResponse(request.model,
             "500: " + ChatHandling.FailurePrefix + invoke(h.chain, Question(request.messages).value).error.Str())))
  {
    var q := Question(request.messages).value;
    var rag := (q': string) => ChatHandling.ProcessWithRag(h, q', None, uuidHex, retrieve, invoke, elapsedMs).result;
    var msg := invoke(h.chain, q).error.Str();
    assert rag(q) == Err(HttpError(500, ChatHandling.FailurePrefix + msg));
    ChatReportsRagFailure(h, request, rag, msg);
  }

  /** An HTTP 500 prints as "500: <detail>". */
  lemma Http500Text(detail: string)
    ensures HttpError(500, detail).Str() == "500: " + detail
  {
    assert NatToString(500) == "500" by {
      assert NatToString(500) == NatToString(50) + ['0'];
      assert NatToString(50) == NatToString(5) + ['0'];
    }
  }

  // ---------------------------------------------------------------------------
  // Health (get_health_status)
  // ---------------------------------------------------------------------------

  datatype Health = Health(
    status: string,
    service: string,
    chatHandler: string,
    ragModel: string,
    supportedModels: seq<string>,
    totalModels: nat)

  /** `get_health_status`; `ragModelEnv` is `RAG_MODEL_NAME`. The timestamp is not modelled. */
  function GetHealthStatus(handler: Option<ChatHandling.Handler>, ragModelEnv: Option<string>): (r: Health)
    ensures r.status == "healthy" <==> handler.Some?
    ensures r.status == "degraded" <==> handler.None?
    ensures r.chatHandler == (if handler.Some? then "initialized" else "not_initialized")
    ensures r.ragModel == ragModelEnv.GetOr("unknown")
    ensures r.supportedModels == [r.ragModel] && r.totalModels == |r.supportedModels|
    ensures r.service == HealthServiceName
  {
    var model := ragModelEnv.GetOr("unknown");
    Health(
      if handler.Some? then "healthy" else "degraded",
      HealthServiceName,
      if handler.Some? then "initialized" else "not_initialized",
      model,
      [model],
      1)
  }

  /** The health check is healthy exactly when requests can reach a handler. */
  lemma HealthMatchesDispatch(handler: Option<ChatHandling.Handler>, ragModelEnv: Option<string>,
                              request: GenerateRequest, rag: string -> Result<string, PyError>)
    ensures GetHealthStatus(handler, ragModelEnv).status == "healthy"
      <==> HandleGenerateRequest(handler, request, rag).Ok?
  {
  }
}
