# homer-bot chat relay, modelled in Dafny

homer-bot is a chat relay. Its `/api/chat` endpoint takes a user message and
a conversation history, sends them to an OpenAI chat model behind a fixed
"Homer" persona prompt, and returns the reply with the provider's token
usage. A second component, `tracedChatCompletion`, makes a streaming call
inside a Datadog LLM Observability span. It accumulates the streamed
fragments, the time to first token (TTFT) and the final usage record, and
annotates the span with them.

The model has four modules:

- `Wrappers` (Wrappers.dfy): `Option` for JavaScript's null/undefined, and
  `Result` for a call that returns or raises.
- `ChatTypes` (ChatTypes.dfy): chat messages, the usage record, and the
  optional-chaining read of the three token counts (`TokensOf`).
- `LlmObservability` (LlmObservability.dfy): `tracedChatCompletion`. The
  stream is a sequence of chunks. Each chunk has an optional content, an
  optional usage and the clock reading taken while it is processed. A
  stream ends normally or by raising. `Accumulate` is the pure left fold
  that specifies the loop. Lemmas connect it to independent front-to-back
  definitions (`StreamedText`, `ContentFragments`) and to first-index and
  last-index characterisations. `TracedChatCompletion` is the imperative
  loop, proved equal to the fold.
- `ChatServer` (ChatServer.dfy): the `/api/chat` handler. It is a function
  from the request body, the provider's outcome and the clock readings
  around the provider call to an `Exchange`. An `Exchange` holds the message
  list sent to the provider (none when no call was made), the traced call
  record and the HTTP response.

Clock readings (`Date.now()`) are parameters. Timestamps are integers with
no monotonicity assumed, so a duration or TTFT may be negative.

## Model

| member | source | states |
|---|---|---|
| ChatTypes.TokensOf | server/index.js:88-92 | when usage is missing, all of the prompt, completion and total counts are absent; otherwise each equals the usage record's own field, itself absent when the provider left it out |
| LlmObservability.Accumulate | server/llm-observability.js:35-49 | the loop pushes at most one fragment per chunk, and TTFT is set exactly when at least one fragment has been pushed |
| LlmObservability.FragmentsInArrivalOrder | server/llm-observability.js:41-43 | the pushed fragments are exactly the non-empty contents, in arrival order; a chunk whose content is missing or empty adds nothing |
| LlmObservability.ResponseIsStreamedText | server/llm-observability.js:32-52 | the joined response equals every chunk's content concatenated in arrival order, a missing content read as "" |
| LlmObservability.TimeToFirstTokenUnsetIffNoContent | server/llm-observability.js:37-43 | TTFT is null if and only if no chunk has content, and then the text is "" |
| LlmObservability.TimeToFirstTokenWriteOnce | server/llm-observability.js:37-39 | once TTFT is set, any further chunks leave it unchanged |
| LlmObservability.TimeToFirstTokenAtFirstContent | server/llm-observability.js:37-39 | TTFT is (arrival of the first chunk with content - start) / 1000, in seconds |
| LlmObservability.UsageAbsentIffNoneCarried | server/llm-observability.js:33-48 | usage is null if and only if no chunk carries a usage record |
| LlmObservability.UsageIsLastCarried | server/llm-observability.js:46-48 | usage is the record of the last chunk that carries one |
| LlmObservability.StreamExample | server/llm-observability.js:35-52 | for fragments "A", "B", "C" with usage on the last chunk: text "ABC", TTFT at the first fragment, usage from the last chunk |
| LlmObservability.Annotate | server/llm-observability.js:55-68 | inputData has the messages' length and order, each projected to role and content; outputData is the single assistant message holding the response; token metrics are the usage record's fields, all absent when usage is missing; time_to_first_token is the TTFT; metadata holds the passthrough settings |
| LlmObservability.TracedChatCompletion | server/llm-observability.js:11-88 | the span is of kind llm, named openai-chat-completion, for the given model and provider openai. On a finished stream it returns the joined text, the last usage and duration = end - start, and annotates the span with `Annotate` of those values. On a raising stream it returns the error unchanged and the span carries no annotation |
| ChatServer.HistoryOrDefault | server/index.js:54 | a missing conversationHistory becomes the empty list, an array is kept as it is, and a non-iterable value makes the spread raise |
| ChatServer.ProviderMessages | server/index.js:64-68 | the provider list is the system turn, then the history unchanged and in order, then the user's message; its length is the history's length + 2 |
| ChatServer.HandleChat | server/index.js:53-113 | status 400 with `Message is required` and no provider call exactly when the message is falsy. The provider is called with `ProviderMessages` exactly when the message is truthy and the history can be spread. Status 200 exactly when the provider returned at least one choice; the body then holds the first choice's content and the usage unchanged, and the traced call carries model, prompt, reply, duration and the usage's token counts, all absent when usage is missing. Every other case is 500 with the fixed error body |
| ChatServer.MissingHistoryIsEmpty | server/index.js:54 | a request without conversationHistory is handled exactly like one with an empty history |
| ChatServer.SentHistoryUnchanged | server/index.js:64-68 | the provider sees history + 2 messages, with history turn i at position i + 1 |
| ChatServer.HandleChatAsWritten | server/index.js:83-93 | with `traceLLMCall` unbound, no request gets 200. A falsy message gets 400; everything else gets the fixed 500, even after the provider was called |
| ChatServer.UnboundTraceLosesReply | server/index.js:80-105 | for the first question of a conversation that the provider answers, the as-written handler calls the provider and returns 500, while the intended handler returns 200 with the reply |

## Left out

- The OpenAI SDK calls are not modelled as calls. The streaming call is a given `Stream` (chunks plus how iteration ends). The non-streaming call is a given `ProviderOutcome`.
- dd-trace (`tracer.llmobs.trace` / `annotate`, server/tracer.js) is not modelled as an SDK. The span is a returned `Span` value. Closing the span, and any consumer of it, are not modelled.
- The winston logger (server/logger.js) and every `logger.*` call are I/O and are left out. That includes the structured record of llm-observability.js:70-84 and the log lines of index.js:57, 61, 95-100 and 107-110. The counts logged at index.js:98-99 are the same optional-chained reads that `TokensOf` models.
- Express wiring is I/O plumbing and is left out: CORS, JSON body parsing, the request-log middleware, the health endpoint and `app.listen`.
- The wording of `SYSTEM_PROMPT` is not modelled. `ChatServer.SystemPrompt` is a placeholder, and no property depends on its text.
- Provider settings are passed through and not interpreted. These are the model names, `max_tokens`, `temperature`, `stream_options`, and the defaults of `tracedChatCompletion` (`gpt-4o-mini`, 200, 0.8). `TracedChatCompletion` takes model, maxTokens and temperature as parameters and copies them into the span.
- LlmObservability.TracedChatCompletion: TTFT is the exact real `(arrival - start) / 1000`. IEEE-754 rounding of JavaScript's division is not modelled.
- ChatServer.HandleChat: `message` is modelled only as a string or missing. Non-string JSON values (numbers, booleans, objects) are not modelled, and neither is their truthiness.
- ChatServer.HandleChat: a message's `role` is modelled as always a string, and its `content` as a string or `null`. Other content values, such as an array of content parts, are not modelled.
- ChatServer.HandleChat: only arrays, a missing value, and non-iterable values count as history. A string-valued history, which JavaScript spreads character by character, is not modelled. Neither are history entries that are not objects.
- A request whose body is not an object raises at the destructuring on index.js:54, outside the `try`. The handler here assumes a body object.
- Concurrency between requests is left out. Each call is modelled on its own and shares no state.

## Findings

| source | as written | input that shows it | evidently intended | confidence | as-written member | corrected member |
|---|---|---|---|---|---|---|
| server/index.js:9 | imports `traceLLMCall`, which server/llm-observability.js does not export (it exports only `tracedChatCompletion`, lines 10 and 91). Under ES-module linking the server fails to start. If the name were instead bound to `undefined`, the call on line 83 would raise inside the `try`, and every valid request would get 500 after the provider had already been called | `{message: "best donuts in Portland?"}` with a provider reply that has one choice | record the call in a tracer and answer 200 with the reply | not executed; the missing export is certain from the two files, the runtime effect depends on the module loader | ChatServer.HandleChatAsWritten | ChatServer.HandleChat |
