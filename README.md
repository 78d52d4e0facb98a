# coze-proxy, modelled in Dafny

coze-proxy is a small HTTP relay that sits between a browser extension and two chat
back ends. A request arrives either Coze-shaped (`bot_id`, `user_id`,
`additional_messages`) or DeepSeek-shaped (`model`, `messages`).

- A Coze-shaped request goes to Coze first, when Coze is switched on and keyed. If
  Coze fails, or is off, the payload is converted to a DeepSeek chat request and sent
  to DeepSeek.
- A DeepSeek-shaped request goes to DeepSeek directly.
- Answers come back in one of three ways:
  - a DeepSeek event stream translated into Coze's `conversation.message.delta` /
    `conversation.message.completed` events;
  - a stream passed through unchanged;
  - a JSON body forwarded with the upstream's status.

In front of all this sit the CORS and method checks, the configuration check, and, at
the serverless entry point, a size check and a body check.

This project models that core: the gates, the routing and fallback, the two API
clients, the stream translator, the pass-through and the JSON finaliser, and the
configuration built from the environment.

- **JavaScript values** are a datatype (`Js.Value`). Its truthiness, `&&`/`||`
  (which return an operand), property reads (which throw on `null`/`undefined`),
  `split`, `trim` and `parseInt` are written out.
- **The response object** is a class (`Http.ServerResponse`) recording every call made
  on it. Once the body has started, it refuses headers the way Node does (this makes
  the handlers' error paths reachable).
- **The network** is a class (`Http.Network`) recording timers and requests. Each
  provider's answer is an input.
- **Each handler** is an imperative method. It is proved equal to a specification
  function that returns the run's network events and response effects, its final
  `headersSent`, and whether it returned or threw. The properties are lemmas about
  those functions.

Module layout follows the source:

| module | source |
|---|---|
| `Formatters` | `src/utils/formatters.js` |
| `StreamingHandler` | `src/services/streamingHandler.js` |
| `CozeApi` | `src/services/cozeApi.js` |
| `DeepSeekApi` | `src/services/deepseekApi.js` |
| `Validation` | `src/middleware/validation.js` |
| `Config` | `src/config/index.js` |
| `Relay` | `src/handlers/relay.js` (including the CORS helpers) |
| `ApiRelay` | `api/relay.js` |

`Js`, `Host`, `Http` and `Wrappers` hold the JavaScript semantics, the host functions
passed in as values, the I/O model and `Option`/`Result`.

What the code does, which the model follows:

- A DeepSeek answer with a status outside 2xx is not passed on. `callDeepSeekApi`
  throws, and the relay handler answers `500 Proxy Error` carrying the status in the
  message (`Relay.DeepSeekFailureIsProxyError`).
- `callDeepSeekApi` replaces any falsy `messages` by `[]` (`messages || []`). On the
  relay's route a DeepSeek-shaped payload always has an array `messages`, so there it
  is forwarded as given, an empty list included (`DeepSeekApi.DeepSeekFormatKept`).
- The last message of a converted request is `''` not only when `additional_messages`
  is absent or empty. It is also `''` when the first message's `content` is falsy or
  missing.
- The validation middleware is not on the serverless path. `api/relay.js` repeats its
  size check, with a fixed limit, and the object part of its body check, skipping
  preflights. `ApiRelay.SizeCheckIsMiddleware` and `ApiRelay.BodyCheckIsMiddleware`
  relate the two.

Behaviours of the code the model makes visible:

- When a streamed Coze answer fails part-way, the Coze attempt falls back to DeepSeek
  after the response has already ended. The DeepSeek request still goes out. Every
  later reply is refused, and the `Proxy Error` catch rethrows that refusal
  (`Relay.FallbackWhen`, `Relay.CozeFirstThenFallback`, `Relay.RelayAlwaysAnswers`).
- The entry point's `Internal server error` catch can therefore only ever see a
  refused reply, so it never changes the outcome (`ApiRelay.CatchIsTransparent`).

## Model

| member | source | states |
|---|---|---|
| `Formatters.CozeFormatIff` | src/utils/formatters.js:8-10 | a payload is Coze-shaped exactly when it is an object with a truthy `bot_id`, `user_id` or `additional_messages` |
| `Formatters.DeepSeekFormatIff` | src/utils/formatters.js:15-17 | a payload is DeepSeek-shaped exactly when it is an object with a truthy `model` and an array `messages` |
| `Formatters.ConvertFailsIff` | src/utils/formatters.js:22-28 | the conversation text is read when `additional_messages` is truthy with a positive `length` (an array's or string's size, or an object's `length` read numerically); the conversion throws exactly for a null/undefined payload or a null/undefined first element of such a list, and then with a TypeError |
| `Formatters.ConversationTextIs` | src/utils/formatters.js:24-28 | for any first element that is neither null nor undefined, the conversation text is its `content` when the list is truthy with a positive `length` and that content truthy, else `''` |
| `Formatters.ArrayLikeMessageList` | src/utils/formatters.js:25-27 | an object message list whose `length` reads as positive is indexed like an array: its `"0"` entry's `content` is the text, and without a `"0"` entry the conversion throws a TypeError |
| `Formatters.EmptyListEmptyText` | src/utils/formatters.js:25 | an absent or empty `additional_messages` gives the empty conversation text |
| `Formatters.ConvertShape` | src/utils/formatters.js:35-46 | the system prompt, built from the stage, comes first; the conversation text comes last; the `[Context] ` message sits between them exactly when the context is truthy with a positive `length` (read numerically for an object), giving 3 messages, else 2 |
| `Formatters.StringContextMessage` | src/utils/formatters.js:42-44 | for a string context, the middle message exists iff the context is non-empty and is `'[Context] ' + context`, the string concatenated as itself |
| `Formatters.ConvertConstants` | src/utils/formatters.js:48-54 | model `deepseek-chat`, temperature 0.7 and max_tokens 500 always; `stream` is the payload's `stream` when truthy, else false |
| `Formatters.StageAndContextDefaults` | src/utils/formatters.js:31-32 | a missing or falsy stage becomes `Opening`, a missing or falsy context `''`, also when `custom_variables` is absent |
| `Formatters.PromptDependsOnlyOnStage` | src/utils/formatters.js:35-40 | two payloads with the same stage get the same system message |
| `Formatters.ConvertReadsOnly` | src/utils/formatters.js:22-55 | the request depends only on conversation text, stage, context and stream flag (equal inputs give equal outputs) |
| `Js.SplitJoin` | src/services/streamingHandler.js:24 | splitting a chunk on `\n` loses nothing (joining the parts gives it back) and no part holds a `\n` |
| `Js.SplitWithoutSeparator` | src/services/streamingHandler.js:24 | a chunk without `\n` is a single line |
| `Js.TrimStartSuffix` | src/services/streamingHandler.js:28 | `trim` keeps a suffix that does not start with white space |
| `Js.TrimStartDropsSpaces` | src/services/streamingHandler.js:28 | `trim` drops only white space at the front |
| `Js.TrimEndPrefix` | src/services/streamingHandler.js:28 | `trim` keeps a prefix that does not end with white space |
| `Js.TrimEndDropsSpaces` | src/services/streamingHandler.js:28 | `trim` drops only white space at the back |
| `Js.ParseIntDecimalText` | src/middleware/validation.js:8 | `parseInt(String(n), 10)` gives back `n` for every integer |
| `Js.NatTextValue` | src/middleware/validation.js:11 | the decimal text of a number reads back as that number |
| `Config.FromEnv` | src/config/index.js:37-45 | the keys are the environment's; `useCoze` holds iff `USE_COZE` is exactly `true` |
| `Config.ValidateEnv` | src/config/index.js:6-22 | returns iff the environment is valid; otherwise throws one error listing the problems in order, DeepSeek first, one per line |
| `Config.ValidateConfig` | src/config/index.js:47-57 | throws iff the DeepSeek key is missing or Coze is on without its key; the DeepSeek error wins when both apply |
| `Config.ValidationsAgree` | src/config/index.js:47-57 | the per-request check accepts the configuration built from an environment iff the load-time check accepts that environment |
| `Config.ValidConfigKeysCoze` | src/config/index.js:52-54 | on a validated configuration the DeepSeek key is present and "Coze on and keyed" is just "Coze on" |
| `Config.UseCozeOnlyForTrue` | src/config/index.js:40 | `useCoze` is true for `USE_COZE=true` and false for every other value and when unset |
| `Config.Defaults` | src/config/index.js:41-44 | each of the four variables, unset or empty, takes its default (the two addresses, 30000, 10485760); set and non-empty, it is used as it is, the two numbers through `parseInt` |
| `Validation.SizeLimitBoundary` | src/middleware/validation.js:7-13 | a declared size is refused iff it is strictly above the limit, with 413 and the limit in the message |
| `Validation.SizeUnreadablePasses` | src/middleware/validation.js:8 | an absent, empty or non-numeric content-length, or a NaN limit, passes the size check |
| `Validation.BodyCheckMatchesRouting` | src/middleware/validation.js:20-39 | the body check passes iff the body is an object of either shape; a non-object gets the body error, a shapeless object the format error |
| `Validation.ArrayBodyHasNoFormat` | src/middleware/validation.js:29-37 | an array body passes the object test and fails the format test |
| `Http.Network.TimedFetch` | src/services/cozeApi.js:15-29 | the timer is armed before the one request and cleared after it; the answer is the provider's |
| `Http.CallTraceRequests` | src/services/deepseekApi.js:35-49 | a call's trace between arming and clearing the timer holds exactly its one request |
| `CozeApi.CozeCallContract` | src/services/cozeApi.js:10-38 | no key: nothing goes out and the key error is thrown; with a key: one request to the Coze URL with the bearer key and the payload unchanged, the response returned whatever its status, an abort as the timeout error, any other failure rethrown |
| `CozeApi.CallCozeApi` | src/services/cozeApi.js:10-38 | the network trace and the result are those of the call specification |
| `CozeApi.HandleCozeStreamResponse` | src/services/cozeApi.js:44-68 | the response receives exactly the pass-through run |
| `DeepSeekApi.KeyCheckedFirst` | src/services/deepseekApi.js:13-15 | without the key nothing is built and nothing goes out |
| `DeepSeekApi.DeepSeekCallContract` | src/services/deepseekApi.js:35-64 | one request to the DeepSeek URL with the bearer key and the built body, timer armed first and cleared last; success iff the status is 2xx; otherwise the status and the body text in the error, or, when reading that text rejects, the rejection mapped like a fetch failure; a fetch abort as the timeout error, any other fetch failure rethrown unchanged |
| `DeepSeekApi.CozePayloadConverted` | src/services/deepseekApi.js:19-21 | a Coze-shaped payload is sent as its conversion; a failing conversion throws before anything goes out |
| `DeepSeekApi.DeepSeekFormatKept` | src/services/deepseekApi.js:22-31 | a DeepSeek-shaped payload keeps its model and messages; stream defaults to false; temperature and max_tokens are passed as given |
| `DeepSeekApi.DefaultsFilled` | src/services/deepseekApi.js:25-26 | without model or messages the request has `deepseek-chat` and an empty list |
| `DeepSeekApi.CallDeepSeekApi` | src/services/deepseekApi.js:12-64 | the network trace and the result are those of the call specification |
| `StreamingHandler.SetEventStreamHeaders` | src/services/streamingHandler.js:10-12 | the three event-stream headers are set on a fresh response; on a started one the first is refused and nothing is set |
| `StreamingHandler.ScanRecordCoherent` | src/services/streamingHandler.js:29-48 | one record keeps the translator's invariant |
| `StreamingHandler.ScanLineCoherent` | src/services/streamingHandler.js:27-49 | one line keeps the translator's invariant |
| `StreamingHandler.ScanLinesCoherent` | src/services/streamingHandler.js:26-50 | the lines of a chunk keep the invariant |
| `StreamingHandler.ScanChunksCoherent` | src/services/streamingHandler.js:19-51 | the whole read loop keeps the invariant: no empty delta, only the last event is a completion, the completion carries the answer, and `fullContent` is the concatenation of the deltas sent |
| `StreamingHandler.CoherentCompletes` | src/services/streamingHandler.js:53-56 | a coherent state closed with the final completion ends in exactly one completion, carrying the concatenated deltas |
| `StreamingHandler.TranslationCompletes` | src/services/streamingHandler.js:29-56 | every translation that is not cut short ends with exactly one completion, last, carrying the concatenation of the non-empty deltas before it |
| `StreamingHandler.TranslateRunShape` | src/services/streamingHandler.js:9-62 | the headers come first and an end comes last; the run returns iff `[DONE]` came or the read never failed, else it rethrows the read error |
| `StreamingHandler.TranslateAfterStart` | src/services/streamingHandler.js:10 | a started response is refused before anything is read or written |
| `StreamingHandler.ScanLinesDone` | src/services/streamingHandler.js:29-34 | after `[DONE]` no further line changes anything |
| `StreamingHandler.ScanChunksDone` | src/services/streamingHandler.js:34 | after `[DONE]` no further chunk is read |
| `StreamingHandler.ScanChunksAppend` | src/services/streamingHandler.js:19-51 | the chunks are processed one after the other, with no state but the translator's |
| `StreamingHandler.AfterDoneIgnored` | src/services/streamingHandler.js:29-35 | whatever the stream yields after `[DONE]`, even a failed read, changes nothing |
| `StreamingHandler.DataLine` | src/services/streamingHandler.js:27-28 | a `data: ` line carries the text after the six-character prefix |
| `StreamingHandler.RecordLine` | src/services/streamingHandler.js:37-45 | a record with a non-empty delta extends the answer by it and sends one delta event carrying it |
| `StreamingHandler.DoneLine` | src/services/streamingHandler.js:29-35 | `[DONE]` sends one completion carrying the answer so far and stops |
| `StreamingHandler.TwoRecordsThenDone` | src/services/streamingHandler.js:19-51 | two records and `[DONE]` in three chunks give two deltas and one completion with their concatenation |
| `StreamingHandler.SplitRecordLost` | src/services/streamingHandler.js:23-28 | a record split across two chunks is not reassembled: its halves are dropped |
| `StreamingHandler.Emit` | src/services/streamingHandler.js:43-44 | writing one event appends its writes to the log |
| `StreamingHandler.TranslateLine` | src/services/streamingHandler.js:27-48 | the loop body for one line does what the line specification says |
| `StreamingHandler.TranslateChunk` | src/services/streamingHandler.js:23-50 | the inner loop does what the specification of the chunk's lines says |
| `StreamingHandler.TranslateChunks` | src/services/streamingHandler.js:19-51 | the outer loop does what the chunks specification says, and stops at `[DONE]` |
| `StreamingHandler.ConvertDeepSeekStreamToCoze` | src/services/streamingHandler.js:9-62 | the response receives exactly the translation run |
| `StreamingHandler.ChunkWritesAt` | src/services/streamingHandler.js:76-81 | the k-th write is the k-th chunk, one write per chunk |
| `StreamingHandler.ChunkWritesStreamed` | src/services/streamingHandler.js:76-81 | the text written is the concatenation of the chunks in order |
| `StreamingHandler.PassThroughRelaysAll` | src/services/streamingHandler.js:67-88 | the caller gets the three headers, every chunk unchanged and in order, and one end, last; the run throws iff the read fails |
| `StreamingHandler.PassThrough` | src/services/streamingHandler.js:75-87 | the loop writes every chunk, then ends, and rethrows a failed read |
| `StreamingHandler.HandleDeepSeekStreamResponse` | src/services/streamingHandler.js:67-88 | the response receives exactly the pass-through run |
| `StreamingHandler.NonStreamingAnswers` | src/services/streamingHandler.js:93-104 | one JSON reply, never a throw: the parsed body with the upstream status, or 500 with `Failed to parse API response` and the parse error's message |
| `StreamingHandler.HandleNonStreamingResponse` | src/services/streamingHandler.js:93-104 | the response receives exactly the non-streaming run |
| `Relay.SetCorsHeaders` | src/middleware/cors.js:4-9 | the three CORS headers are set, and the response is not started |
| `Relay.DeepSeekShapedDelivery` | src/handlers/relay.js:133-147 | a DeepSeek-shaped payload that DeepSeek answers gets, after the CORS headers, the stream passed through when `stream` is exactly `true` and the response has a body, else the JSON reply |
| `Relay.CozeFallbackDelivery` | src/handlers/relay.js:79-118 | a Coze-shaped payload with Coze off or unkeyed, failing, or answering outside 2xx, that DeepSeek answers, gets after the CORS headers DeepSeek's stream translated into Coze's events when `stream` is exactly `true` and the response has a body, else the JSON reply |
| `Relay.CozeAnsweredDelivery` | src/handlers/relay.js:79-95 | a Coze-shaped payload that Coze answers with 2xx, delivered without a throw, gets after the CORS headers the stream passed through when `stream` is exactly `true` and the response has a body, else the JSON reply, and only the Coze request goes out |
| `Relay.HandlersSettle` | src/services/streamingHandler.js:9-104 | each answering handler finishes a fresh response or ends it and throws; a started response is refused without effect |
| `Relay.LegAfterStart` | src/handlers/relay.js:111-122 | after a started response the DeepSeek leg writes nothing and throws |
| `Relay.LegSettles` | src/handlers/relay.js:111-122 | on a fresh response the DeepSeek leg answers, or throws with the response ended or untouched |
| `Relay.AttemptSettles` | src/handlers/relay.js:83-104 | the Coze attempt answers, or falls back with the response untouched or ended |
| `Relay.CozeFormatSettles` | src/handlers/relay.js:76-123 | the Coze-format handler answers, or throws with the response ended or untouched |
| `Relay.RoutedSettles` | src/handlers/relay.js:44-61 | so does the routing by shape |
| `Relay.CaughtAnswers` | src/handlers/relay.js:63-69 | the catch turns every such run into an answered one, rethrowing only the refusal after an ended response |
| `Relay.RelayAlwaysAnswers` | src/handlers/relay.js:15-70 | every request is answered and finished; a throw carries only the headers-sent refusal after the response ended |
| `Relay.AnsweredLocally` | src/handlers/relay.js:17-61 | preflight 200, other methods 405, a bad configuration 500 and a shapeless payload 400, each with the CORS headers and without any upstream call |
| `Relay.CozeCallRequests` | src/services/cozeApi.js:11-27 | the Coze call sends the one Coze request when keyed, and nothing otherwise |
| `Relay.DeepSeekCallRequests` | src/services/deepseekApi.js:13-47 | the DeepSeek call sends the one DeepSeek request when keyed and built, and nothing otherwise |
| `Relay.LegRequests` | src/handlers/relay.js:111-118 | the DeepSeek leg sends exactly what its call sends |
| `Relay.AttemptNet` | src/handlers/relay.js:85-95 | the Coze attempt's network events are exactly its call's |
| `Relay.CozeFirstThenFallback` | src/handlers/relay.js:82-112 | with Coze on: the Coze request first, and that alone when Coze answers; on fallback, exactly one converted DeepSeek request after it, with Coze not retried |
| `Relay.FallbackWhen` | src/handlers/relay.js:87-104 | the attempt falls back iff the fetch fails, the status is not 2xx, or the streamed answer's read fails |
| `Relay.CozeDisabledDirect` | src/handlers/relay.js:105-112 | with Coze off or unkeyed, a Coze-shaped payload goes straight to the converted DeepSeek leg |
| `Relay.DeepSeekFormatSkipsCoze` | src/handlers/relay.js:130-141 | a DeepSeek-shaped payload that is not Coze-shaped sends only the defaulted DeepSeek request, even with Coze on |
| `Relay.DeepSeekFailureIsProxyError` | src/handlers/relay.js:140-151 | a DeepSeek failure on a fresh response is answered 500 `Proxy Error` with the error's message after the CORS headers |
| `Relay.DeliverDeepSeekAnswer` | src/handlers/relay.js:143-147 | the answer is delivered by translation, pass-through or JSON as the specification chooses |
| `Relay.ForwardToDeepSeek` | src/handlers/relay.js:111-122 | the response and the trace receive exactly the DeepSeek leg |
| `Relay.DeliverCozeAnswer` | src/handlers/relay.js:90-94 | the Coze answer is streamed through or forwarded as JSON as the specification chooses |
| `Relay.TryCoze` | src/handlers/relay.js:83-104 | reports whether Coze answered, with the response and trace of the attempt |
| `Relay.HandleCozeFormatRequest` | src/handlers/relay.js:76-123 | the response and the trace receive exactly the Coze-format run |
| `Relay.RouteCoze` | src/handlers/relay.js:81-122 | the attempt when Coze is on and keyed, then the DeepSeek leg unless Coze answered |
| `Relay.HandleDeepSeekFormatRequest` | src/handlers/relay.js:130-152 | the response and the trace receive exactly the DeepSeek-format run |
| `Relay.Route` | src/handlers/relay.js:44-61 | Coze shape first, then DeepSeek shape, else 400 |
| `Relay.RouteAndCatch` | src/handlers/relay.js:40-69 | the routing with its `Proxy Error` catch |
| `Relay.RelayHandler` | src/handlers/relay.js:15-70 | the response and the trace receive exactly the relay run |
| `ApiRelay.SizeCheckIsMiddleware` | api/relay.js:13-19 | the entry point's size check refuses, with the same reply, exactly what the middleware refuses under a 10485760 limit |
| `ApiRelay.SizeCheckedFirst` | api/relay.js:13-19 | a declared size gets 413 iff it is above 10485760, whatever the method and the body; exactly 10485760 passes |
| `ApiRelay.BodyCheckIsMiddleware` | api/relay.js:22-27 | outside a preflight, the body check refuses, with the same reply, exactly what the middleware's object test refuses |
| `ApiRelay.PreflightPasses` | api/relay.js:22-30 | a preflight skips the body check and gets the empty 200 |
| `ApiRelay.CatchIsTransparent` | api/relay.js:31-37 | a request that passes the checks is handled exactly as the relay handler alone handles it |
| `ApiRelay.HandlerAlwaysAnswers` | api/relay.js:9-38 | every request is answered and finished |
| `ApiRelay.Handler` | api/relay.js:9-38 | the response and the trace receive exactly the entry point's run: 413, 400, or the relay handler once |

## Left out

- `fetch`, `AbortController` and the timers' timing: each provider's answer is an input (a response, or a rejection whose name says whether it was an abort), and so is what `response.text()` settles to (the text, or its rejection), and a timer is recorded only as armed and cleared.
- `TextDecoder`: a body stream is the sequence of its decoded chunks, then an end or a read that throws; characters stand for UTF-16 code units.
- `JSON.parse` and `JSON.stringify`: a stream record's parse and its `choices[0].delta.content || ''` read are the input function `Runtime.parseRecord` (malformed, or the delta as text). A non-string delta is folded into that function's result. `response.json()` is an input (the data or the parse error's message). The `data:` line written for an event stands for its serialisation (`Http.Chunk.AnswerData`).
- The system prompt's text: `buildSystemPrompt` is the input function `Runtime.systemPrompt` of the stage. `String(v)` of a context that is not a string is `Runtime.text`.
- `ToNumber` of a string: whether a string `length` (of an object message list or context) reads as a positive number is the input function `Runtime.positive`; an array `length` goes through `Runtime.text` first, and a number or boolean one is read directly.
- Floating point: temperature and max_tokens are carried as the constants 0.7 and 500.
- `parseInt` results beyond the precision of a double: numbers are unbounded integers.
- `response.text()` of a non-2xx Coze answer: its text is not read, because a rejection there is caught by the same catch and ends in the same fallback; only the log line would differ.
- Logging (`console.*`) and the warning-only `validateEnv()` call at module load, whose only effect is a log line.
- Loading `process.env` through dotenv: the environment is a map.
- `server.js` (the Express wiring, which applies neither validation middleware) and `test.js` (a manual script that calls the network).
- Concurrency and asynchrony: each request is one sequential run, and the awaits are steps of it.
