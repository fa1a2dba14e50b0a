/** app/api/chat/route.ts: the `POST /api/chat` gateway. It validates the
    request, resolves the model, runs one exchange with the upstream
    service and classifies any failure into a status and a message. The
    inbound body arrives already parsed (or as the value `request.json()`
    threw), and the upstream reply is an input. */
module ChatRoute {
  import opened Wrappers
  import opened ChatTypes
  import opened Text
  import opened ApiClient
  import opened Models

  const InvalidRequest := "Invalid request: modelId and messages are required"
  const AuthenticationFailed := "Authentication failed"
  const ServiceUnavailable := "Service unavailable"
  const InternalServerError := "Internal server error"

  /** `ChatRequest` as received: `modelId` absent is `None`; `messages` is
      `None` when absent or not an array. */
  datatype ChatRequest = ChatRequest(modelId: Option<string>, messages: Option<seq<ChatMessage>>)

  /** What `request.json()` produced. */
  datatype Inbound = Parsed(request: ChatRequest) | Unreadable(thrown: Exception)

  /** The JSON response object; an absent field is `None`. */
  datatype ChatResponse = ChatResponse(content: Option<string>, error: Option<string>)

  /** The HTTP reply, together with the upstream call made on its way, if any. */
  datatype Reply = Reply(status: nat, body: ChatResponse, upstream: Option<HttpPost>)

  /** The status and message the catch block settles on. */
  datatype Classified = Classified(status: nat, message: string)

  /** The catch block's classification, first match wins: an `Error` whose
      message contains "401" or "unauthorized" is an authentication failure,
      else one containing "timeout" or "network" is an unavailable service,
      else the message itself is reported with 500; a non-`Error` value is
      a generic internal error. */
  function Classify(e: Exception): (c: Classified)
    ensures c.status in {401, 500, 502}
    ensures c.status == 401 <==> e.Error? && (Contains(e.message, "401") || Contains(e.message, "unauthorized"))
    ensures c.status == 502 <==> e.Error? && !Contains(e.message, "401") && !Contains(e.message, "unauthorized")
                                 && (Contains(e.message, "timeout") || Contains(e.message, "network"))
    ensures c.status == 401 ==> c.message == AuthenticationFailed
    ensures c.status == 502 ==> c.message == ServiceUnavailable
    ensures c.status == 500 ==> c.message == (if e.Error? then e.message else InternalServerError)
  {
    if e.Error? then
      if Contains(e.message, "401") || Contains(e.message, "unauthorized") then
        Classified(401, AuthenticationFailed)
      else if Contains(e.message, "timeout") || Contains(e.message, "network") then
        Classified(502, ServiceUnavailable)
      else
        Classified(500, e.message)
    else
      Classified(500, InternalServerError)
  }

  /** The error envelope of a caught failure: empty content plus the message. */
  function Caught(e: Exception, upstream: Option<HttpPost>): (r: Reply)
    ensures r.status == Classify(e).status && r.upstream == upstream
    ensures r.body == ChatResponse(Some(""), Some(Classify(e).message))
  {
    var c := Classify(e);
    Reply(c.status, ChatResponse(Some(""), Some(c.message)), upstream)
  }

  /** The request shape is acceptable: a truthy `modelId` and an array of messages. */
  predicate WellFormed(request: ChatRequest)
  {
    request.modelId.Some? && request.modelId.value != "" && request.messages.Some?
  }

  function NotFoundMessage(modelId: string): string
  {
    "Model " + modelId + " not found"
  }

  /** `POST`: fail fast on the request shape (400), then on the lookup (404),
      then make the single upstream call; the decoded text is returned with
      the default status, any failure goes through the classification. */
  function Post(inbound: Inbound, modelsEnv: Option<string>, parseJson: string -> Option<seq<ModelConfig>>, reply: TransportReply): (r: Reply)
    ensures r.status == 400 <==> inbound.Parsed? && !WellFormed(inbound.request)
    ensures r.status == 400 ==> r.body == ChatResponse(None, Some(InvalidRequest))
    ensures r.status == 404 <==>
      (inbound.Parsed? && WellFormed(inbound.request) && GetModelConfig(modelsEnv, parseJson, inbound.request.modelId.value).None?)
    ensures r.status == 404 ==> r.body == ChatResponse(None, Some(NotFoundMessage(inbound.request.modelId.value)))
    ensures r.upstream.Some? <==>
      (inbound.Parsed? && WellFormed(inbound.request) && GetModelConfig(modelsEnv, parseJson, inbound.request.modelId.value).Some?)
    ensures r.upstream.Some? ==>
      var model := GetModelConfig(modelsEnv, parseJson, inbound.request.modelId.value).value;
      && r.upstream.value == OutgoingCall(model, inbound.request.messages.value)
      && match SendChatRequest(model, inbound.request.messages.value, reply)
         case Success(content) => r == Reply(200, ChatResponse(Some(content), None), r.upstream)
         case Failure(e) => r == Caught(e, r.upstream)
    ensures inbound.Unreadable? ==> r == Caught(inbound.thrown, None)
  {
    match inbound
    case Unreadable(e) => Caught(e, None)
    case Parsed(request) =>
      if !WellFormed(request) then
        Reply(400, ChatResponse(None, Some(InvalidRequest)), None)
      else
        var modelId, messages := request.modelId.value, request.messages.value;
        match GetModelConfig(modelsEnv, parseJson, modelId)
        case None => Reply(404, ChatResponse(None, Some(NotFoundMessage(modelId))), None)
        case Some(model) =>
          var call := OutgoingCall(model, messages);
          match SendChatRequest(model, messages, reply)
          case Success(content) => Reply(200, ChatResponse(Some(content), None), Some(call))
          case Failure(e) => Caught(e, Some(call))
  }

  /** Every reply carries one of the documented statuses; exactly the 200
      replies carry no error, and every caught failure has empty content. */
  lemma PostStatuses(inbound: Inbound, modelsEnv: Option<string>, parseJson: string -> Option<seq<ModelConfig>>, reply: TransportReply)
    ensures var r := Post(inbound, modelsEnv, parseJson, reply);
      && r.status in {200, 400, 401, 404, 500, 502}
      && (r.status == 200 <==> r.body.error.None?)
      && (r.status == 200 ==> r.body.content.Some?)
      && (r.status in {401, 500, 502} ==> r.body.content == Some(""))
  {
  }

  /** The 401 and 502 messages are fixed: nothing of the upstream error
      text reaches the caller. */
  lemma AuthAndUnavailableHideDetail(inbound: Inbound, modelsEnv: Option<string>, parseJson: string -> Option<seq<ModelConfig>>, reply: TransportReply)
    ensures var r := Post(inbound, modelsEnv, parseJson, reply);
      && (r.status == 401 ==> r.body.error == Some(AuthenticationFailed))
      && (r.status == 502 ==> r.body.error == Some(ServiceUnavailable))
  {
  }

  /** An upstream HTTP 401, whatever its status text, is reported as an
      authentication failure. */
  lemma Upstream401IsAuthFailure(model: ModelConfig, messages: seq<ChatMessage>, statusText: string, bodyText: string)
    ensures var r := SendChatRequest(model, messages, HttpFailure(401, statusText, bodyText));
      r.Failure? && Classify(r.error) == Classified(401, AuthenticationFailed)
  {
    var m := RequestFailedMessage(401, statusText);
    assert NatToString(401) == "401";
    OccurrenceIsContained(m, "401", |RequestFailedPrefix|);
  }

  /** The authentication test comes first: a message mentioning both
      "unauthorized" and "timeout" is an authentication failure. */
  lemma AuthTakesPrecedence(message: string)
    requires Contains(message, "unauthorized") && Contains(message, "timeout")
    ensures Classify(Error(message)) == Classified(401, AuthenticationFailed)
  {
  }

  /** The tests are case-sensitive: a message reading "Unauthorized" is not
      recognised and is reported as it is, with 500. The message is a
      parameter fixed by the precondition rather than a literal in the
      postcondition, so that the verifier does not unroll `Contains` over a
      string literal. */
  lemma CapitalisedUnauthorizedIsInternal(m: string)
    requires m == "Unauthorized"
    ensures Classify(Error(m)) == Classified(500, m)
  {
    MissingCharNotContained(m, "401", 0);
    NotContainedInOtherOfSameLength(m, "unauthorized");
    MissingCharNotContained(m, "timeout", 2);
    MissingCharNotContained(m, "network", 3);
  }

  /** A thrown "network timeout" is an unavailable service. As above, the
      message is a parameter fixed by the precondition so that the verifier
      does not unroll `Contains` over a string literal. */
  lemma NetworkTimeoutIsUnavailable(m: string)
    requires m == "network timeout"
    ensures Classify(Error(m)) == Classified(502, ServiceUnavailable)
  {
    MissingCharNotContained(m, "401", 0);
    MissingCharNotContained(m, "unauthorized", 9);
    assert m[8..15] == "timeout";
    OccurrenceIsContained(m, "timeout", 8);
  }

  /** Scenario: an unknown model with nothing configured is a 404 naming
      the id, and no upstream call is made. */
  lemma MissingModelScenario(parseJson: string -> Option<seq<ModelConfig>>, reply: TransportReply)
    ensures Post(Parsed(ChatRequest(Some("missing"), Some([]))), None, parseJson, reply)
         == Reply(404, ChatResponse(None, Some("Model missing not found")), None)
  {
    assert NotFoundMessage("missing") == "Model missing not found";
  }

  /** Scenario: a thrown network timeout is a 502. */
  lemma NetworkTimeoutScenario(request: ChatRequest, modelsEnv: Option<string>, parseJson: string -> Option<seq<ModelConfig>>, m: string)
    requires WellFormed(request) && GetModelConfig(modelsEnv, parseJson, request.modelId.value).Some?
    requires m == "network timeout"
    ensures var r := Post(Parsed(request), modelsEnv, parseJson, Threw(Error(m)));
      r.status == 502 && r.body == ChatResponse(Some(""), Some(ServiceUnavailable))
  {
    NetworkTimeoutIsUnavailable(m);
  }

  /** Scenario: an OpenAI-compatible model answering `{choices: [{message:
      {content: "hi"}}]}` yields `{content: "hi"}` with status 200. */
  lemma OpenAISuccessScenario(request: ChatRequest, modelsEnv: Option<string>, parseJson: string -> Option<seq<ModelConfig>>)
    requires WellFormed(request)
    requires GetModelConfig(modelsEnv, parseJson, request.modelId.value).Some?
    requires GetModelConfig(modelsEnv, parseJson, request.modelId.value).value.mode == OpenAI
    ensures var r := Post(Parsed(request), modelsEnv, parseJson, Delivered(ResponseBody(None, Some([Choice(ChoiceMessage(Some("hi")))]))));
      r.status == 200 && r.body == ChatResponse(Some("hi"), None)
  {
  }

  /** End to end, a resolved model answering with a well-formed reply of its
      protocol returns exactly the reply's text. */
  lemma GatewayRoundTrip(request: ChatRequest, modelsEnv: Option<string>, parseJson: string -> Option<seq<ModelConfig>>, text: string)
    requires WellFormed(request)
    requires GetModelConfig(modelsEnv, parseJson, request.modelId.value).Some?
    ensures var model := GetModelConfig(modelsEnv, parseJson, request.modelId.value).value;
      var r := Post(Parsed(request), modelsEnv, parseJson, Delivered(WellFormedReply(model.mode, text)));
      r.status == 200 && r.body == ChatResponse(Some(text), None)
  {
    var model := GetModelConfig(modelsEnv, parseJson, request.modelId.value).value;
    ExchangeRoundTrip(model, request.messages.value, text);
  }
}
