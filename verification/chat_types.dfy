/** The shapes of types/chat.ts: conversation turns, model configurations and
    the request and response bodies of the two inference protocols. */
module ChatTypes {
  import opened Wrappers

  /** `ChatMessage.role` is `'user' | 'assistant'`. */
  datatype Role = User | Assistant

  datatype ChatMessage = ChatMessage(role: Role, content: string)

  /** `ModelConfig.mode` is `'v2' | 'openai'`. */
  datatype Mode = V2 | OpenAI

  datatype ModelConfig = ModelConfig(
    id: string,
    displayLabel: string,
    mode: Mode,
    baseUrl: string,
    authHeader: string,
    authToken: string)

  /** One input tensor of a KServe V2 inference request. */
  datatype InputTensor = InputTensor(name: string, shape: seq<int>, dataType: string, data: seq<string>)

  /** One `{role, content}` entry of an OpenAI-compatible request; the role
      travels as a plain string. */
  datatype WireMessage = WireMessage(role: string, content: string)

  /** The JSON body sent upstream. `temperature` is the number 0.7, kept as a
      constant and never computed with. */
  datatype RequestBody =
    | V2InferRequest(inputs: seq<InputTensor>)
    | OpenAICompatRequest(model: string, messages: seq<WireMessage>, maxTokens: int, temperature: real)

  /** One output tensor of a KServe V2 inference response; `data` may be absent. */
  datatype OutputTensor = OutputTensor(name: string, shape: seq<int>, dataType: string, data: Option<seq<string>>)

  /** `choices[i].message`; its `content` may be absent or null. */
  datatype ChoiceMessage = ChoiceMessage(content: Option<string>)

  datatype Choice = Choice(message: ChoiceMessage)

  /** A parsed JSON reply body. Either protocol's parser reads only its own
      field; an absent or null field is `None`. */
  datatype ResponseBody = ResponseBody(outputs: Option<seq<OutputTensor>>, choices: Option<seq<Choice>>)

  /** A thrown JavaScript value: an `Error` carrying its message, or any
      other value. */
  datatype Exception = Error(message: string) | NonError
}
