# Telemetry and debug core of the Go agent development kit, in Dafny

This project models four pieces of the agent runtime's telemetry and debug path and
proves what each promises.

- **Span-processor registry and dual-tracer fan-out** (`telemetry.dfy`, module `Telemetry`).
  The class `Registry` holds the package state: the registered processors, the once-guard
  and the local tracer provider.
  - `AddSpanProcessor` appends. The first `RegisterTelemetry` seals the registry by copying
    a snapshot of the processors into a fresh `TracerProvider`; later calls do nothing.
  - `GetTracers` seals lazily and returns the local tracer first, then the global one.
  - `StartTrace` opens one fresh `Span` per tracer.
  - The three annotators build their attribute lists, set them on every span and end it.
    Their fixed key schemas include the doubled `gcp.vertex.agent.llm_request` and the
    sentinel values.
  - `llmRequestToTrace` is a method with the source's nested loops that drops inline-data
    parts.
- **Debug trace store** (`exporter.dfy`, module `SpanExporter`). `APIServerSpanExporter` keeps
  a map from event id to a flat attribute map and updates that field in place in
  `ExportSpans`, with the source's nested loops. The method is proved equal to the function
  `ExportAll`. The store's properties are lemmas about `ExportAll`: the name filter, the
  copied attributes, `trace_id`/`span_id` written last, last write wins, and no eviction.
- **Debug handlers** (`debug.dfy`, module `Debug`). `functionalCalls` and
  `functionalResponses`, the highlight-pair rule, the first-match event search, and the
  status-code decision trees of `TraceDict` and `EventGraph`. Each handler returns an
  `Outcome` value (status with message, or status with JSON object) instead of writing HTTP.
- **Static agent loader** (`agentloader.dfy`, module `AgentLoader`). A fixed map; `LoadAgent`
  returns the agent or the "agent <name> not found" error; `ListAgents` lists every key
  exactly once.

Shared values live in `events.dfy` (events, parts, function calls and responses, requests,
and the order-keeping filter `Collect`) and `attributes.dfy` (OpenTelemetry key/value lists,
read with last-wins `Lookup`). `wrappers.dfy` holds `Option` (a Go nil) and `Result` (a Go
value/error pair).

The model relies on these abstractions:

- JSON encoding is the parameter `marshal: Value -> Option<string>`, where `None` means the
  encoder failed. Attribute printing (`AsString`) is another function parameter.
- The session service is an arrow-typed field of the controller. Session-id parsing and
  graph rendering are arrow-typed parameters of `EventGraph`.
- An ended span ignores further `SetAttributes`, as OpenTelemetry recording spans do. So
  the annotate-and-close loop is well defined even when a span appears twice in the list.

A stored map holds every attribute of the span, `gcp.vertex.agent.event_id` included, plus
`trace_id` and `span_id`; `SpanExporter.ExportToolSpanExample` shows this for
{event_id: e1, foo: bar}.

## Model

| member | source | states |
|---|---|---|
| Telemetry.SafeSerialize | internal/telemetry/telemetry.go:203-209 | never fails: a successful encoding is used verbatim; unless the encoder itself prints the sentinel text, the result is "<not serializable>" exactly when encoding fails |
| Telemetry.LLMRequestToTrace | internal/telemetry/telemetry.go:211-233 | config and model are kept, there is one traced content per request content with the same role, and each parts list is the input parts minus inline-data parts (a nil parts list traces as an empty one) |
| Telemetry.WithoutInlineDataMembership | internal/telemetry/telemetry.go:220-225 | a part survives the filter exactly when it is in the input and has no inline data |
| Telemetry.WithoutInlineDataAppend | internal/telemetry/telemetry.go:220-225 | the filter distributes over concatenation, so the surviving parts keep their relative order |
| Telemetry.WithoutInlineDataIdentity | internal/telemetry/telemetry.go:220-225 | a parts list without inline data comes back unchanged, and filtering twice equals filtering once |
| Telemetry.TracerProvider.constructor | internal/telemetry/telemetry.go:72 | a new provider has no processors attached |
| Telemetry.TracerProvider.RegisterSpanProcessor | internal/telemetry/telemetry.go:76-78 | attaches the processor after the ones already attached |
| Telemetry.Span.Start | internal/telemetry/telemetry.go:100-103 | a started span has the given name and tracer, no attributes, and is not ended |
| Telemetry.Span.SetAttributes | internal/telemetry/telemetry.go:125 | appends the pairs to a live span; leaves an ended span as it is |
| Telemetry.Span.End | internal/telemetry/telemetry.go:126 | the span is ended and its attributes are unchanged |
| Telemetry.Registry.constructor | internal/telemetry/telemetry.go:44-51 | the initial package state is unsealed, with no processors and no local provider |
| Telemetry.Registry.AddSpanProcessor | internal/telemetry/telemetry.go:62-66 | appends the processor after every earlier one, keeping their order, and never changes the seal or the processors attached to the local provider |
| Telemetry.Registry.RegisterTelemetry | internal/telemetry/telemetry.go:70-81 | the first call seals the registry with a fresh provider whose attached processors are the registered list in order; every later call changes nothing |
| Telemetry.Registry.GetTracers | internal/telemetry/telemetry.go:86-94 | seals the registry if no local provider is set (keeps it otherwise), then returns exactly two tracers named "gcp.vertex.agent": the local one, then the global one |
| Telemetry.Registry.StartTrace | internal/telemetry/telemetry.go:97-105 | returns exactly two distinct fresh spans, both named traceName, not ended and without attributes; span i comes from tracer i (local, then global) |
| Telemetry.RegisterBeforeFirstTrace | telemetry/telemetry.go:24-30 | processors registered before the first trace are exactly the attached ones, in order; processors registered after it, and a later explicit registration call, attach nothing |
| Telemetry.AnnotateAndClose | internal/telemetry/telemetry.go:135-172 | every span in the list has the attribute list appended (unless it had already ended) and is ended |
| Telemetry.ToolCallSchema | internal/telemetry/telemetry.go:136-168 | a tool-call span's keys are exactly the nine-key schema, with llm_request twice and no llm_response, and all values are strings |
| Telemetry.ToolCallValues | internal/telemetry/telemetry.go:136-148 | the operation is "execute_tool"; tool name, description, "{}" request, serialized arguments and the event id are what a reader of the span sees |
| Telemetry.ToolCallIdAndResponse | internal/telemetry/telemetry.go:150-168 | the call id is the first part's function-response id when that is non-empty, the tool response is that response's serialized payload when present, and each otherwise is "<not specified>" |
| Telemetry.ToolCallReadsFirstPartOnly | internal/telemetry/telemetry.go:153-165 | events that agree on their id and on the first part's function response give the same tool-call attributes, whatever their other parts |
| Telemetry.MergedToolCallSchema | internal/telemetry/telemetry.go:113-124 | a merged-tool-call span's keys are exactly the eight-key schema, with no call id and no llm_response, and all values are strings |
| Telemetry.MergedToolCallValues | internal/telemetry/telemetry.go:113-124 | tool name and description are "(merged tools)", the arguments are "N/A", the request is "{}", and the tool response is the whole serialized event |
| Telemetry.LLMCallSchema | internal/telemetry/telemetry.go:178-194 | an LLM-call span carries the seven base keys first, then top_p exactly when the request sets it and max_tokens exactly when it is non-zero |
| Telemetry.LLMCallValues | internal/telemetry/telemetry.go:178-186 | the system, model, invocation id, session id and event id are as given; the request is the serialized inline-data-free trace and the response is the serialized LLM response |
| Telemetry.LLMCallSamplingValues | internal/telemetry/telemetry.go:188-194 | top_p is present as a float with the request's value, and max_tokens as an integer with its value, when each is set |
| Telemetry.TraceToolCall | internal/telemetry/telemetry.go:131-173 | with a nil event no span changes; otherwise every span gets the tool-call attributes and is ended |
| Telemetry.TraceMergedToolCalls | internal/telemetry/telemetry.go:108-128 | with a nil event no span changes; otherwise every span gets the merged-tool-call attributes and is ended |
| Telemetry.TraceLLMCall | internal/telemetry/telemetry.go:176-201 | every span gets the LLM-call attributes and is ended |
| Attributes.LookupSpec | internal/telemetry/telemetry.go:119-120 | a key is found exactly when some pair carries it, and then its value is that of the last such pair |
| Attributes.LookupLast | internal/telemetry/telemetry.go:144-145 | a pair with no later pair for its key is the value read for that key |
| Attributes.LookupSkipsTail | internal/telemetry/telemetry.go:188-194 | appending pairs for other keys does not change the value read for a key |
| Events.EventParts | cmd/restapi/handlers/debug.go:130 | an event's parts are present exactly when its response, content and parts are all non-nil |
| Events.Collect | cmd/restapi/handlers/debug.go:133-139 | the collected values are at most as many as the parts |
| Events.CollectAppend | cmd/restapi/handlers/debug.go:134-138 | collecting distributes over concatenation, so the values keep part order |
| Events.CollectMembership | cmd/restapi/handlers/debug.go:134-138 | a value is collected exactly when some part carries it |
| Events.CollectAll | cmd/restapi/handlers/debug.go:147-151 | when every part carries a value, there is one collected value per part, in part order |
| Events.CollectNone | cmd/restapi/handlers/debug.go:134-138 | when no part carries a value, nothing is collected |
| Debug.FunctionalCalls | cmd/restapi/handlers/debug.go:129-140 | nil exactly when the response, content or parts are nil; otherwise the function call of every part that has one, in part order |
| Debug.FunctionalResponses | cmd/restapi/handlers/debug.go:142-153 | nil exactly when the response, content or parts are nil; otherwise the function response of every part that has one, in part order |
| Debug.NamedCallPairs | cmd/restapi/handlers/debug.go:101-105 | the call loop appends one (name, author) pair per call with a non-empty name, in call order |
| Debug.NamedResponsePairs | cmd/restapi/handlers/debug.go:107-111 | the response loop appends one (name, author) pair per response with a non-empty name, in order |
| Debug.HighlightedPairs | cmd/restapi/handlers/debug.go:96-114 | the append loops compute the highlight rule: named calls if there are calls, else named responses if there are responses, else the author's self-pair |
| Debug.CallPairsAllNamed | cmd/restapi/handlers/debug.go:100-105 | when every call is named, there is one pair (name, author) per call, in call order |
| Debug.CallPairsNoneNamed | cmd/restapi/handlers/debug.go:100-105 | when no call is named, there are no pairs |
| Debug.ResponsePairsAllNamed | cmd/restapi/handlers/debug.go:106-111 | when every response is named, there is one pair (name, author) per response, in order |
| Debug.ResponsePairsNoneNamed | cmd/restapi/handlers/debug.go:106-111 | when no response is named, there are no pairs |
| Debug.CallPairsAppend | cmd/restapi/handlers/debug.go:101-105 | the pairs of two call lists in a row are the first list's pairs followed by the second's, so pairs keep call order |
| Debug.ResponsePairsAppend | cmd/restapi/handlers/debug.go:107-111 | the pairs of two response lists in a row are the first list's pairs followed by the second's, so pairs keep response order |
| Debug.CallPairsMembership | cmd/restapi/handlers/debug.go:101-105 | a pair is produced for a call list exactly when it joins the author to the non-empty name of some call, whatever the other calls' names |
| Debug.ResponsePairsMembership | cmd/restapi/handlers/debug.go:107-111 | a pair is produced for a response list exactly when it joins the author to the non-empty name of some response |
| Debug.CallPairsMixedExample | cmd/restapi/handlers/debug.go:101-105 | calls named a, empty and b give exactly (a, author) then (b, author) |
| Debug.PairsEndAtAuthor | cmd/restapi/handlers/debug.go:100-111 | every call or response pair starts at a non-empty name and ends at the author |
| Debug.HighlightCallsFirst | cmd/restapi/handlers/debug.go:100-105 | when the event has calls, they alone decide and its responses are ignored: a pair is highlighted exactly when it joins the author to a named call; one pair per call in call order if all are named; no pair if none is named |
| Debug.HighlightResponsesNext | cmd/restapi/handlers/debug.go:106-111 | without calls but with responses, they decide: a pair is highlighted exactly when it joins the author to a named response; one pair per response in order if all are named; no pair at all, not the self-pair, if none is named |
| Debug.HighlightSelfPair | cmd/restapi/handlers/debug.go:112-114 | without calls and responses: exactly the pair (author, author) |
| Debug.HighlightEndsAtAuthor | cmd/restapi/handlers/debug.go:96-114 | every highlight pair ends at the author, and the list is empty only when the event has calls or responses |
| Debug.HighlightSearchExample | cmd/restapi/handlers/debug.go:96-114 | an event whose only part calls "search", authored by agent_a, highlights exactly (search, agent_a) |
| Debug.FirstWithIdSpec | cmd/restapi/handlers/debug.go:83-89 | the search finds nothing exactly when no event has the id; otherwise it finds the earliest event with the id |
| Debug.FindEvent | cmd/restapi/handlers/debug.go:83-89 | the loop with break returns the first event with the id, or nil |
| Debug.DebugAPIController.constructor | cmd/restapi/handlers/debug.go:35-41 | the controller keeps the session service, agent loader and exporter it is given |
| Debug.DebugAPIController.TraceDict | cmd/restapi/handlers/debug.go:44-58 | an empty event_id gives 400 "event_id parameter is required"; an id the store lacks gives 404 "event not found: <id>"; otherwise 200 with exactly the stored map |
| Debug.DebugAPIController.EventGraph | cmd/restapi/handlers/debug.go:61-127 | the checks run in order and the first failure decides: session-id parse error 400, session lookup error 400, empty event_id 400, no such event 404, agent-load error 500, render error 500; otherwise 200 with {"dotSrc": graph} rendered from the event's highlight pairs; the status is always one of 200, 400, 404, 500 |
| SpanExporter.StringMapSpec | cmd/restapi/services/apiserverspanexporter.go:48-53 | the flattened map holds exactly the span's attribute keys, each with the printed value of its last pair |
| SpanExporter.SpanRecordContents | cmd/restapi/services/apiserverspanexporter.go:48-55 | a record always holds trace_id and span_id, written over any attribute of the same name; every other key is there exactly when the span has it, with its last value |
| SpanExporter.RecordIgnores | cmd/restapi/services/apiserverspanexporter.go:47-58 | a span rejected by the name filter, or one without an event id, leaves the store unchanged |
| SpanExporter.ExportAllIgnoresUncaptured | cmd/restapi/services/apiserverspanexporter.go:46-47 | a batch whose spans are all rejected by the name filter leaves the store unchanged |
| SpanExporter.ExportAllAppend | cmd/restapi/services/apiserverspanexporter.go:45-62 | exporting two batches one after the other equals exporting their concatenation |
| SpanExporter.ExportAllKeys | cmd/restapi/services/apiserverspanexporter.go:45-62 | after a batch the store's keys are exactly its old keys plus the event ids of the captured spans: nothing is evicted |
| SpanExporter.ExportAllKeepsUntouched | cmd/restapi/services/apiserverspanexporter.go:45-62 | an entry that no span of the batch is stored under keeps its previous map |
| SpanExporter.ExportAllLastWins | cmd/restapi/services/apiserverspanexporter.go:56-58 | the entry for an event id is the whole record of the last span of the batch stored under it, replacing any earlier one |
| SpanExporter.ExportToolSpanExample | cmd/restapi/services/apiserverspanexporter.go:45-62 | exporting execute_tool_search with {event_id: e1, foo: bar} into an empty store stores under e1 exactly those two attributes plus trace_id and span_id |
| SpanExporter.APIServerSpanExporter.constructor | cmd/restapi/services/apiserverspanexporter.go:33-37 | a new exporter has an empty store |
| SpanExporter.APIServerSpanExporter.GetTraceDict | cmd/restapi/services/apiserverspanexporter.go:40-42 | returns the store itself |
| SpanExporter.APIServerSpanExporter.ExportSpans | cmd/restapi/services/apiserverspanexporter.go:45-62 | returns no error, and the new store is the old one with the batch applied span by span |
| SpanExporter.APIServerSpanExporter.Shutdown | cmd/restapi/services/apiserverspanexporter.go:66-68 | returns no error and changes nothing |
| AgentLoader.DistinctCardinality | cmd/restapi/services/agentloader.go:38-44 | a list with no repeated name has as many elements as names |
| AgentLoader.StaticAgentLoader.constructor | cmd/restapi/services/agentloader.go:32-36 | the loader keeps the given map unchanged; the map is a constant, so no method mutates it |
| AgentLoader.StaticAgentLoader.ListAgents | cmd/restapi/services/agentloader.go:38-44 | every key of the agent map is listed exactly once, no other name is listed, and the length is the map's size |
| AgentLoader.StaticAgentLoader.LoadAgent | cmd/restapi/services/agentloader.go:46-51 | succeeds exactly for a known name, with the stored agent; otherwise fails with "agent <name> not found" |

## Left out

- Concurrency is not modelled: `sync.Once`, the registry's `RWMutex`, and the unsynchronized reads and writes of the trace store. The model is sequential, and the once-guard is the boolean `Registry.once`.
- OpenTelemetry SDK internals are left out: provider construction beyond the attached processor list, span processors' callbacks, the export pipeline, trace and span id generation, and `attribute.Value.AsString`. Ids enter as the strings of a `ReadOnlySpan`, and printing is the parameter `asString`.
- `json.Marshal` is not modelled; it is the parameter `marshal`. So the model cannot say what any encoding looks like. It says only which model value is handed to the encoder and when the sentinel replaces the encoding.
- `Event`, `LLMResponse`, `GenerateConfig` and `Part` keep only the fields the core reads: an event its id, invocation id, author and response; a response its content; a config its `TopP` and `MaxOutputTokens`; a part its text, inline data, function call and function response. The source hands the whole event (internal/telemetry/telemetry.go:123), the whole response (:185), the whole config (:213) and each kept part (:224) to `json.Marshal`, which prints every exported field. So `MergedToolCallValues`, `LLMCallValues` and `LLMRequestToTrace` state the encoding of the reduced value. Two values that differ only in a dropped field look the same to the model's encoder, though Go encodes them differently.
- Telemetry.LLMCallSamplingValues: `top_p` is a real. The source holds a float32, and its conversion to float64 (internal/telemetry/telemetry.go:189) is exact, so the lemma gives the stored value. What the model does not capture is that only float32 values can occur.
- HTTP plumbing is not modelled: `mux.Vars` is a map argument, `http.Error` becomes an `Error` outcome (without the trailing newline it writes), and `EncodeJSONResponse` becomes a `Json` outcome.
- Session-id parsing, the session service's `Get` and agent-graph rendering are abstract functions. Their internals are not part of this model.
- Go panics on nil pointers are not modelled. `TraceToolCall` dereferences the event's response content without a check, which the model turns into the precondition `HasContent`. `TraceMergedToolCalls` does no such dereference, so it has no precondition. `TraceLLMCall` takes the event and the request's config as values, not pointers. A nil part in a parts list, or a nil request content, is not representable.
- SpanExporter.APIServerSpanExporter.GetTraceDict: returns the store by value. The Go map is returned by reference, so a caller that mutated it would mutate the store; that aliasing is not modelled.
- AgentLoader.StaticAgentLoader.ListAgents: Go map iteration order is unspecified. The loop picks an arbitrary remaining key, and the contract states set equality, no repeats and the length, not an order.
- Spans are modelled as recording SDK spans. A span that does not record ignores `SetAttributes`, and the model does not capture that. Such spans include the global tracer's no-op span, used when no global provider is set, and a span the sampler drops. So `AnnotateAndClose` and the three annotators promise attributes on both spans of the fan-out, which holds only for recording spans.
- The annotators build their attribute list inside the per-span loop. The model builds it once and hands it to `AnnotateAndClose`. Every span gets the same value either way, because the list depends only on the arguments.
- The `AgentLoader` interface is modelled by its only implementation, `StaticAgentLoader`.
- The public `RegisterSpanProcessor` in telemetry/telemetry.go only delegates to `AddSpanProcessor`. It is covered by `Registry.AddSpanProcessor` and by `RegisterBeforeFirstTrace`, which states the late-registration rule documented there.
- Telemetry.Registry.StartTrace: builds its spans by appending to a sequence rather than filling a preallocated slice; the result is the same.
- Tool arguments, function-response payloads, function-call arguments and inline data are opaque tokens. The core only tests them for nil or hands them to the encoder.
