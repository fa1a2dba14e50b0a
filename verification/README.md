# Inference protocol adapter and chat gateway

A Dafny model of the server side of a browser chat application that
forwards conversations to configured machine-learning inference endpoints.
It covers:

- the protocol adapter `OpenShiftAIClient` (`lib/api-client.ts`), which
  encodes a conversation for one of two wire protocols and decodes the reply.
  For KServe V2 (`mode === 'v2'`) the whole conversation is flattened into a
  single `"text"`/`BYTES` tensor and the reply is `outputs[0].data[0]`. For
  every other mode it builds an OpenAI-compatible chat completion request and
  reads `choices[0].message.content`;
- the model registry (`lib/models.ts`), read from the `MODELS` environment
  variable, with exact-match, first-hit lookup;
- the chat gateway `POST /api/chat` (`app/api/chat/route.ts`). It checks the
  request shape (400), then looks the model up (404), then makes one upstream
  call. Its catch block classifies failures by case-sensitive substring tests
  into 401, 502 or 500;
- the listing `GET /api/models` (`app/api/models/route.ts`), which exposes
  only `{id, label}` for each configured model.

Everything is pure: datatypes, functions and lemmas. The client's only
state is the configuration it is constructed with, which is never changed
afterwards, so its operations take that configuration as a parameter. The
single `fetch` call is abstracted as a `TransportReply`:

- a 2xx reply whose body parsed as JSON;
- a non-2xx reply with status, status text and body text;
- a thrown value.

The gateway's result records the upstream call it made, if any. That makes
"no upstream call" a statement about the result.

Modules: `Wrappers` (Option, Result), `ChatTypes` (the shapes of
`types/chat.ts`), `Text` (join, `includes`, decimal rendering, `|| ''`),
`ApiClient`, `Models`, `ChatRoute`, `ModelsRoute`.

Details of the code the model keeps, which a reader might not expect:

- The V2 decoder returns `""` when `outputs[0].data` is present but empty.
- The catch block reports an `Error`'s own message with 500; only a
  non-`Error` value gets "Internal server error".
- The 400 and 404 bodies carry only `error`, with no `content` field.
- The listing keeps configuration order.

Two fields are renamed because their names are Dafny keywords: `label` is
`displayLabel`, and a tensor's `datatype` is `dataType`.

## Model

| member | source | states |
|---|---|---|
| `ApiClient.Headers` | lib/api-client.ts:18-21 | The header map has exactly the keys `Content-Type` and the model's auth header name. The auth header maps to the token, overriding the JSON content type when the names coincide; otherwise `Content-Type` is `application/json`. |
| `ApiClient.FormatMessagesAsPrompt` | lib/api-client.ts:85-90 | The prompt always ends with `"\nAssistant:"`; an empty conversation gives exactly `"\nAssistant:"`. |
| `ApiClient.PromptIsTurnsThenCue` | lib/api-client.ts:87-89 | A non-empty conversation renders as each turn in order, `Human: <content>` for a user and `Assistant: <content>` otherwise, each followed by a newline, then `Assistant:`. |
| `ApiClient.PromptInjective` | lib/api-client.ts:87-89 | When no content contains a newline, different conversations give different prompts: the encoding loses nothing. |
| `ApiClient.PromptCollidesOnEmbeddedNewline` | lib/api-client.ts:88 | Content is not escaped. For any `x` and `y`, the single user message `x + "\nAssistant: " + y` gives the same prompt as the two-turn exchange user `x`, assistant `y`. |
| `ApiClient.BuildRequestBody` | lib/api-client.ts:26-54 | For `v2` the body has exactly one input, named `text`, with shape `[1]` and type `BYTES`; its only data element is the prompt. For any other mode the body carries the model's id and the messages with the same length, roles and contents in order, plus `max_tokens` 1000 and `temperature` 0.7. |
| `ApiClient.OpenAIBodyRoundTrip` | lib/api-client.ts:46-54 | The conversation can be read back exactly from the OpenAI-compatible body. |
| `ApiClient.OutgoingCall` | lib/api-client.ts:64-69 | The single POST goes to the model's base URL with the header map and the body built for its protocol. |
| `ApiClient.DecodeV2` | lib/api-client.ts:38-43 | Fails with "Invalid V2 response format" exactly when `outputs` is absent or empty, or `outputs[0].data` is absent. Otherwise it returns the first data element, or `""` when `data` is empty. |
| `ApiClient.DecodeOpenAI` | lib/api-client.ts:56-61 | Fails with "Invalid OpenAI response format" exactly when `choices` is absent or empty. Otherwise it returns the first choice's content, or `""` when that is absent. |
| `ApiClient.RequestFailedMessage` | lib/api-client.ts:74 | The message is exactly `API request failed: `, the decimal status, a space and the status text: prefix, status position, ending and total length are all fixed. |
| `ApiClient.SendChatRequest` | lib/api-client.ts:64-82 | A non-2xx reply fails with the request-failed message and does not run the parser. A thrown value is rethrown unchanged. A 2xx body is decoded by the parser of the model's protocol. |
| `ApiClient.ExchangeRoundTrip` | lib/api-client.ts:26-78 | For either protocol and any conversation, a well-formed reply carrying text `t` yields exactly `t`. |
| `ApiClient.EmptyReplyIsInvalid` | lib/api-client.ts:38-61 | For a `v2` model an empty `outputs` list, and for any other model an empty `choices` list, is that protocol's format error, never an empty-string success, whatever the other protocol's field holds. |
| `ApiClient.ErrorBodyNotExposed` | lib/api-client.ts:71-75 | The body text of a non-2xx reply does not affect the outcome; it is only logged. |
| `Text.ContainsOccurs` | app/api/chat/route.ts:41-44 | The left-to-right `includes` scan holds exactly when the text occurs at some position, in both directions. |
| `Text.NatToStringRoundTrip` | lib/api-client.ts:74 | The rendered status code reads back as the same number. |
| `Text.OrEmpty` | lib/api-client.ts:40 | The `''` fallback returns a present string unchanged and `""` for an absent one. |
| `Models.GetModelsConfig` | lib/models.ts:3-18 | An unset or empty `MODELS` gives `[]`, and so does one that fails to parse. Otherwise the parsed list is returned. |
| `Models.FindModel` | lib/models.ts:22 | Returns nothing exactly when no entry's id equals the requested id (exact, case-sensitive). Otherwise it returns an entry with that id, and no earlier entry has that id. |
| `Models.GetModelConfig` | lib/models.ts:20-23 | A returned configuration has the requested id and belongs to the loaded configuration; nothing is returned exactly when no loaded entry has that id. |
| `Models.FirstMatchWins` | lib/models.ts:22 | With duplicate ids, the first entry in list order is returned. |
| `Models.UnconfiguredKnowsNoModel` | lib/models.ts:3-23 | An unset, empty or unparsable `MODELS` makes every lookup return nothing. |
| `ChatRoute.Classify` | app/api/chat/route.ts:37-50 | The status is 401, 502 or 500. A message containing `401` or `unauthorized` gives 401 "Authentication failed". Otherwise one containing `timeout` or `network` gives 502 "Service unavailable". Any other `Error` gives 500 with its own message; a non-`Error` value gives 500 "Internal server error". |
| `ChatRoute.Caught` | app/api/chat/route.ts:52-57 | A caught failure yields empty content, the classified message as `error`, and the classified status. |
| `ChatRoute.Post` | app/api/chat/route.ts:6-59 | 400 with only the invalid-request error exactly when the shape check fails. 404 with only `Model <id> not found` exactly when the shape is fine and lookup fails. An upstream call is made exactly when both pass. It is the call built for the resolved model, and the reply is then `{content}` with 200 or the classified failure. An unreadable body goes straight to classification. |
| `ChatRoute.PostStatuses` | app/api/chat/route.ts:10-57 | The status is always one of 200, 400, 401, 404, 500 or 502. There is no error exactly when the status is 200. Every caught failure has empty content. |
| `ChatRoute.AuthAndUnavailableHideDetail` | app/api/chat/route.ts:41-46 | A 401 reply always says "Authentication failed" and a 502 reply "Service unavailable"; no upstream text is echoed. |
| `ChatRoute.Upstream401IsAuthFailure` | app/api/chat/route.ts:41-43 | An upstream HTTP 401, whatever its status text, is classified as 401 "Authentication failed". |
| `ChatRoute.AuthTakesPrecedence` | app/api/chat/route.ts:41-46 | A message mentioning both `unauthorized` and `timeout` is an authentication failure. |
| `ChatRoute.CapitalisedUnauthorizedIsInternal` | app/api/chat/route.ts:41-49 | The tests are case-sensitive: the message "Unauthorized" is reported verbatim with 500. |
| `ChatRoute.NetworkTimeoutIsUnavailable` | app/api/chat/route.ts:44-46 | A thrown "network timeout" is classified as 502 "Service unavailable". |
| `ChatRoute.MissingModelScenario` | app/api/chat/route.ts:17-23 | With `MODELS` unset, `{modelId: "missing", messages: []}` gives 404 `{error: "Model missing not found"}` and no upstream call. |
| `ChatRoute.NetworkTimeoutScenario` | app/api/chat/route.ts:33-57 | A resolved model whose call throws "network timeout" gives 502 `{content: "", error: "Service unavailable"}`. |
| `ChatRoute.OpenAISuccessScenario` | app/api/chat/route.ts:28-31 | An OpenAI-compatible model answering with content "hi" gives 200 `{content: "hi"}`, with no error. |
| `ChatRoute.GatewayRoundTrip` | app/api/chat/route.ts:17-31 | End to end, a resolved model answering with a well-formed reply carrying `t` gives 200 `{content: t}`. |
| `ModelsRoute.Summaries` | app/api/models/route.ts:10-13 | The listing has one entry per configured model, in order, each with that model's id and label. |
| `ModelsRoute.Get` | app/api/models/route.ts:5-24 | A loaded configuration gives 200 with its summaries. A failure while loading gives 500 "Failed to get models configuration". |
| `ModelsRoute.ListingExposesOnlyIdAndLabel` | app/api/models/route.ts:10-13 | Two configurations with the same ids and labels give the same listing: mode, URL and credentials never reach it. |
| `ModelsRoute.ListingFromEnvironment` | app/api/models/route.ts:7-16 | With the typed loader the listing always succeeds. It is `{models: []}` when `MODELS` is unset, empty or unparsable. |
| `ModelsRoute.ListedModelsResolve` | app/api/models/route.ts:10-13 | Every listed id resolves in the registry lookup used by the chat gateway. |

## Left out

- The `fetch` call, `response.json()`, `response.text()` and `request.json()` are network and framework I/O. Their outcomes are inputs: `TransportReply` and `Inbound`.
- `NextResponse` is reduced to a status and a JSON object whose absent fields are `None`; JSON serialisation is not modelled.
- `JSON.parse` of `MODELS` is a function parameter that gives `None` where it would throw. A value that parses to something other than a list of configurations is not modelled. In the typed model `getModelsConfig` never throws, so the 500 branch of `GET /api/models` is driven by an explicit failed load.
- Other JavaScript runtime-type cases are outside the typed model: a `null` request body, a non-string `modelId`, a message role other than `user`/`assistant`, and a missing `choices[0].message`. `messages` is `None` when absent or not an array.
- `ApiClient.Headers`: `fetch` treats header names case-insensitively. A credential header spelled `content-type` would be merged by the runtime; the model keeps it as a distinct map key.
- `console.*` logging, async/await and concurrency have no observable effect here.
- `temperature` is the constant 0.7, with no floating-point reasoning.
- The messages thrown by the runtime itself for network failures are not modelled; a thrown value is an input.
- The React components and the page are presentation code, not part of this model.
