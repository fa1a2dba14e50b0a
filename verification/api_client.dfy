/** lib/api-client.ts: the `OpenShiftAIClient` protocol adapter. The client's
    only state is the `ModelConfig` it is constructed with, never changed
    afterwards, so each operation here takes that configuration as a
    parameter. The `fetch` call itself is abstracted as a `TransportReply`. */
module ApiClient {
  import opened Wrappers
  import opened ChatTypes
  import opened Text

  const ContentTypeHeader := "Content-Type"
  const JsonMediaType := "application/json"

  /** The cue appended to every V2 prompt so the backend continues as the assistant. */
  const AssistantCue := "\nAssistant:"

  const MaxTokens := 1000
  const Temperature := 0.7

  const InvalidV2Format := "Invalid V2 response format"
  const InvalidOpenAIFormat := "Invalid OpenAI response format"
  const RequestFailedPrefix := "API request failed: "

  /** What the single `fetch` POST produced: a 2xx reply whose body parsed as
      JSON, a non-2xx reply (its body text is read for the log only), or a
      thrown value (network failure, or a body that is not JSON). */
  datatype TransportReply =
    | Delivered(body: ResponseBody)
    | HttpFailure(status: nat, statusText: string, bodyText: string)
    | Threw(thrown: Exception)

  /** The outbound POST: target URL, header map and JSON body. */
  datatype HttpPost = HttpPost(url: string, headers: map<string, string>, body: RequestBody)

  /** The header object literal: the JSON content type, then the model's
      credential header, which wins if the two names coincide. */
  function Headers(model: ModelConfig): (h: map<string, string>)
    ensures h.Keys == {ContentTypeHeader, model.authHeader}
    ensures h[model.authHeader] == model.authToken
    ensures model.authHeader != ContentTypeHeader ==> h[ContentTypeHeader] == JsonMediaType
  {
    map[ContentTypeHeader := JsonMediaType][model.authHeader := model.authToken]
  }

  function SpeakerLabel(role: Role): string
  {
    if role == User then "Human" else "Assistant"
  }

  /** One rendered turn, `<Speaker>: <content>`, content unescaped. */
  function PromptLine(m: ChatMessage): string
  {
    SpeakerLabel(m.role) + ": " + m.content
  }

  function PromptLines(messages: seq<ChatMessage>): (lines: seq<string>)
    ensures |lines| == |messages|
    ensures forall i :: 0 <= i < |messages| ==> lines[i] == PromptLine(messages[i])
  {
    seq(|messages|, i requires 0 <= i < |messages| => PromptLine(messages[i]))
  }

  /** `formatMessagesAsPrompt`: the rendered turns joined by newlines, then
      the assistant cue. */
  function FormatMessagesAsPrompt(messages: seq<ChatMessage>): (prompt: string)
    ensures EndsWith(prompt, AssistantCue)
    ensures messages == [] ==> prompt == AssistantCue
  {
    Join(PromptLines(messages), "\n") + AssistantCue
  }

  /** Reference reading of a non-empty prompt: every turn is a line of its
      own, terminated by a newline, in conversation order. */
  function TurnBlock(messages: seq<ChatMessage>): string
  {
    if messages == [] then "" else PromptLine(messages[0]) + "\n" + TurnBlock(messages[1..])
  }

  lemma {:induction false} JoinedLinesTerminate(messages: seq<ChatMessage>)
    requires messages != []
    ensures Join(PromptLines(messages), "\n") + "\n" == TurnBlock(messages)
    decreases |messages|
  {
    var lines := PromptLines(messages);
    if |messages| > 1 {
      JoinedLinesTerminate(messages[1..]);
      assert lines[1..] == PromptLines(messages[1..]);
    }
  }

  /** A non-empty conversation is sent as its turns, one per line, followed by
      the `Assistant:` cue. */
  lemma PromptIsTurnsThenCue(messages: seq<ChatMessage>)
    requires messages != []
    ensures FormatMessagesAsPrompt(messages) == TurnBlock(messages) + "Assistant:"
  {
    JoinedLinesTerminate(messages);
  }

  predicate SingleLine(messages: seq<ChatMessage>)
  {
    forall i :: 0 <= i < |messages| ==> '\n' !in messages[i].content
  }

  lemma PromptLineInjective(a: ChatMessage, b: ChatMessage)
    requires PromptLine(a) == PromptLine(b)
    ensures a == b
  {
    var la, lb := PromptLine(a), PromptLine(b);
    assert la[0] == SpeakerLabel(a.role)[0];
    assert lb[0] == SpeakerLabel(b.role)[0];
    var n := |SpeakerLabel(a.role) + ": "|;
    assert a.content == la[n..];
    assert b.content == lb[n..];
  }

  /** Index of the first newline in `s`, or `|s|` if there is none. */
  function NewlineIndex(s: string): (k: nat)
    ensures k <= |s|
  {
    if s == [] || s[0] == '\n' then 0 else 1 + NewlineIndex(s[1..])
  }

  lemma {:induction false} NewlineIndexAfterLine(line: string, rest: string)
    requires '\n' !in line
    ensures NewlineIndex(line + "\n" + rest) == |line|
    decreases |line|
  {
    if line != [] {
      assert line[0] in line;
      assert (line + "\n" + rest)[1..] == line[1..] + "\n" + rest;
      assert forall c :: c in line[1..] ==> c in line;
      NewlineIndexAfterLine(line[1..], rest);
    }
  }

  lemma {:induction false} TurnBlockInjective(a: seq<ChatMessage>, b: seq<ChatMessage>)
    requires SingleLine(a) && SingleLine(b)
    requires TurnBlock(a) == TurnBlock(b)
    ensures a == b
    decreases |a|
  {
    if a != [] && b != [] {
      var la, lb := PromptLine(a[0]), PromptLine(b[0]);
      var s := TurnBlock(a);
      assert '\n' !in la by { assert '\n' !in a[0].content; }
      assert '\n' !in lb by { assert '\n' !in b[0].content; }
      NewlineIndexAfterLine(la, TurnBlock(a[1..]));
      NewlineIndexAfterLine(lb, TurnBlock(b[1..]));
      assert la == s[..|la|] == lb;
      PromptLineInjective(a[0], b[0]);
      assert TurnBlock(a[1..]) == s[|la| + 1..] == TurnBlock(b[1..]);
      TurnBlockInjective(a[1..], b[1..]);
      assert a == [a[0]] + a[1..];
      assert b == [b[0]] + b[1..];
    } else if a != [] || b != [] {
      assert false;
    }
  }

  /** The V2 prompt loses nothing as long as no message content holds a
      newline: distinct conversations give distinct prompts. */
  lemma PromptInjective(a: seq<ChatMessage>, b: seq<ChatMessage>)
    requires SingleLine(a) && SingleLine(b)
    requires FormatMessagesAsPrompt(a) == FormatMessagesAsPrompt(b)
    ensures a == b
  {
    var p := FormatMessagesAsPrompt(a);
    var cue := "Assistant:";
    if a != [] && b != [] {
      PromptIsTurnsThenCue(a);
      PromptIsTurnsThenCue(b);
      assert TurnBlock(a) == p[..|p| - |cue|] == TurnBlock(b);
      TurnBlockInjective(a, b);
    } else if a != [] {
      PromptIsTurnsThenCue(a);
      assert false;
    } else if b != [] {
      PromptIsTurnsThenCue(b);
      assert false;
    }
  }

  /** Content is not escaped: a user message that embeds a newline and a
      speaker label yields the same prompt as a genuine two-turn exchange. */
  lemma PromptCollidesOnEmbeddedNewline(x: string, y: string)
    ensures var one := [ChatMessage(User, x + "\nAssistant: " + y)];
      var two := [ChatMessage(User, x), ChatMessage(Assistant, y)];
      one != two && FormatMessagesAsPrompt(one) == FormatMessagesAsPrompt(two)
  {
    var one := [ChatMessage(User, x + "\nAssistant: " + y)];
    var two := [ChatMessage(User, x), ChatMessage(Assistant, y)];
    assert one != two by { assert |one| != |two|; }
    var t1, t2 := TurnBlock(one), TurnBlock(two);
    assert t1 == PromptLine(one[0]) + "\n" + TurnBlock(one[1..]);
    assert t2 == PromptLine(two[0]) + "\n" + TurnBlock(two[1..]);
    assert TurnBlock(two[1..]) == PromptLine(two[1]) + "\n" + TurnBlock(two[1..][1..]);
    assert one[1..] == [] && two[1..][1..] == [];
    assert t1 == t2;
    PromptIsTurnsThenCue(one);
    PromptIsTurnsThenCue(two);
  }

  function RoleName(role: Role): string
  {
    if role == User then "user" else "assistant"
  }

  function WireMessages(messages: seq<ChatMessage>): (wire: seq<WireMessage>)
    ensures |wire| == |messages|
    ensures forall i :: 0 <= i < |messages| ==>
      wire[i].role == RoleName(messages[i].role) && wire[i].content == messages[i].content
  {
    seq(|messages|, i requires 0 <= i < |messages| => WireMessage(RoleName(messages[i].role), messages[i].content))
  }

  /** The request body for the model's protocol: one `"text"`/`BYTES`
      tensor carrying the flattened prompt for `'v2'`, otherwise the
      messages passed through with the model id and the fixed generation
      settings. */
  function BuildRequestBody(model: ModelConfig, messages: seq<ChatMessage>): (body: RequestBody)
    ensures model.mode == V2 ==>
      && body.V2InferRequest?
      && |body.inputs| == 1
      && body.inputs[0].name == "text"
      && body.inputs[0].shape == [1]
      && body.inputs[0].dataType == "BYTES"
      && body.inputs[0].data == [FormatMessagesAsPrompt(messages)]
    ensures model.mode != V2 ==>
      && body.OpenAICompatRequest?
      && body.model == model.id
      && |body.messages| == |messages|
      && (forall i :: 0 <= i < |messages| ==>
            body.messages[i].role == RoleName(messages[i].role) && body.messages[i].content == messages[i].content)
      && body.maxTokens == 1000
      && body.temperature == 0.7
  {
    if model.mode == V2 then
      V2InferRequest([InputTensor("text", [1], "BYTES", [FormatMessagesAsPrompt(messages)])])
    else
      OpenAICompatRequest(model.id, WireMessages(messages), MaxTokens, Temperature)
  }

  /** Reads an OpenAI-compatible message list back into a conversation;
      `None` if some role is neither `"user"` nor `"assistant"`. */
  function ConversationOf(wire: seq<WireMessage>): (r: Option<seq<ChatMessage>>)
    ensures r.Some? ==> |r.value| == |wire|
  {
    if wire == [] then Some([])
    else
      var role := if wire[0].role == "user" then Some(User)
                  else if wire[0].role == "assistant" then Some(Assistant)
                  else None;
      match (role, ConversationOf(wire[1..]))
      case (Some(r0), Some(rest)) => Some([ChatMessage(r0, wire[0].content)] + rest)
      case _ => None
  }

  /** The OpenAI-compatible encoding is lossless: the conversation can be
      read back from the body exactly. */
  lemma {:induction false} OpenAIBodyRoundTrip(model: ModelConfig, messages: seq<ChatMessage>)
    requires model.mode == OpenAI
    ensures ConversationOf(BuildRequestBody(model, messages).messages) == Some(messages)
    decreases |messages|
  {
    if messages != [] {
      OpenAIBodyRoundTrip(model, messages[1..]);
      assert WireMessages(messages)[1..] == WireMessages(messages[1..]);
      assert [messages[0]] + messages[1..] == messages;
    }
  }

  /** The whole outbound call: POST to the model's base URL. */
  function OutgoingCall(model: ModelConfig, messages: seq<ChatMessage>): (call: HttpPost)
    ensures call.url == model.baseUrl
    ensures call.headers == Headers(model)
    ensures call.body == BuildRequestBody(model, messages)
  {
    HttpPost(model.baseUrl, Headers(model), BuildRequestBody(model, messages))
  }

  /** The V2 `responseParser`: the first output's first data element, or
      `""` when that list is empty; no outputs, or a first output without
      `data`, is an error. */
  function DecodeV2(response: ResponseBody): (r: Result<string, Exception>)
    ensures r.Failure? <==>
      (response.outputs.None? || |response.outputs.value| == 0 || response.outputs.value[0].data.None?)
    ensures r.Failure? ==> r.error == Error(InvalidV2Format)
    ensures r.Success? ==>
      var data := response.outputs.value[0].data.value;
      (data == [] ==> r.value == "") && (data != [] ==> r.value == data[0])
  {
    if response.outputs.Some? && |response.outputs.value| > 0 && response.outputs.value[0].data.Some? then
      var data := response.outputs.value[0].data.value;
      Success(OrEmpty(if |data| > 0 then Some(data[0]) else None))
    else
      Failure(Error(InvalidV2Format))
  }

  /** The OpenAI `responseParser`: the first choice's message content, or
      `""` when it is absent; no choices is an error. */
  function DecodeOpenAI(response: ResponseBody): (r: Result<string, Exception>)
    ensures r.Failure? <==> (response.choices.None? || |response.choices.value| == 0)
    ensures r.Failure? ==> r.error == Error(InvalidOpenAIFormat)
    ensures r.Success? ==>
      var content := response.choices.value[0].message.content;
      (content.None? ==> r.value == "") && (content.Some? ==> r.value == content.value)
  {
    if response.choices.Some? && |response.choices.value| > 0 then
      Success(OrEmpty(response.choices.value[0].message.content))
    else
      Failure(Error(InvalidOpenAIFormat))
  }

  function Decode(mode: Mode, response: ResponseBody): Result<string, Exception>
  {
    if mode == V2 then DecodeV2(response) else DecodeOpenAI(response)
  }

  /** A well-formed reply of the model's protocol carrying `text`. */
  function WellFormedReply(mode: Mode, text: string): ResponseBody
  {
    if mode == V2 then ResponseBody(Some([OutputTensor("text", [1], "BYTES", Some([text]))]), None)
    else ResponseBody(None, Some([Choice(ChoiceMessage(Some(text)))]))
  }

  /** The message thrown for a non-2xx reply: status and status text only. */
  function RequestFailedMessage(status: nat, statusText: string): (m: string)
    ensures StartsWith(m, RequestFailedPrefix)
    ensures OccursAt(m, NatToString(status), |RequestFailedPrefix|)
    ensures EndsWith(m, " " + statusText)
    ensures |m| == |RequestFailedPrefix| + |NatToString(status)| + 1 + |statusText|
  {
    RequestFailedPrefix + NatToString(status) + " " + statusText
  }

  /** `sendChatRequest` once the transport has answered: a non-2xx reply
      throws the request-failed error without running the parser, a thrown
      value is rethrown unchanged, and a 2xx body goes to the parser of the
      model's protocol. */
  function SendChatRequest(model: ModelConfig, messages: seq<ChatMessage>, reply: TransportReply): (r: Result<string, Exception>)
    ensures reply.HttpFailure? ==> r == Failure(Error(RequestFailedMessage(reply.status, reply.statusText)))
    ensures reply.Threw? ==> r == Failure(reply.thrown)
    ensures reply.Delivered? && model.mode == V2 ==> r == DecodeV2(reply.body)
    ensures reply.Delivered? && model.mode != V2 ==> r == DecodeOpenAI(reply.body)
  {
    match reply
    case HttpFailure(status, statusText, _) => Failure(Error(RequestFailedMessage(status, statusText)))
    case Threw(e) => Failure(e)
    case Delivered(body) => Decode(model.mode, body)
  }

  /** Round trip: whatever the conversation, a well-formed reply carrying
      `text` yields exactly `text`, newlines and all. */
  lemma ExchangeRoundTrip(model: ModelConfig, messages: seq<ChatMessage>, text: string)
    ensures SendChatRequest(model, messages, Delivered(WellFormedReply(model.mode, text))) == Success(text)
  {
  }

  /** Both parsers fail on a reply whose own list is empty rather than
      succeed with the empty string, whatever the other protocol's field
      holds. */
  lemma EmptyReplyIsInvalid(model: ModelConfig, messages: seq<ChatMessage>,
                            choices: Option<seq<Choice>>, outputs: Option<seq<OutputTensor>>)
    ensures model.mode == V2 ==>
      SendChatRequest(model, messages, Delivered(ResponseBody(Some([]), choices))) == Failure(Error(InvalidV2Format))
    ensures model.mode != V2 ==>
      SendChatRequest(model, messages, Delivered(ResponseBody(outputs, Some([])))) == Failure(Error(InvalidOpenAIFormat))
  {
  }

  /** The upstream body text of a non-2xx reply never reaches the caller. */
  lemma ErrorBodyNotExposed(model: ModelConfig, messages: seq<ChatMessage>, status: nat, statusText: string, body1: string, body2: string)
    ensures SendChatRequest(model, messages, HttpFailure(status, statusText, body1))
         == SendChatRequest(model, messages, HttpFailure(status, statusText, body2))
  {
  }
}
