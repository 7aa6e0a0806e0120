/** The agent runtime's telemetry: a process-wide registry of span processors that is
    sealed into a local tracer provider on first use, a fan-out that opens one span on the
    local tracer and one on the global tracer, and the three annotators that attach a fixed
    attribute schema to those spans and close them. */
module Telemetry {
  import opened Wrappers
  import opened Events
  import opened Attributes

  // Instrumentation scope, attribute keys and sentinel values, verbatim.
  const SystemName: string := "gcp.vertex.agent"
  const GenAiOperationName: string := "gen_ai.operation.name"
  const GenAiToolDescription: string := "gen_ai.tool.description"
  const GenAiToolName: string := "gen_ai.tool.name"
  const GenAiToolCallID: string := "gen_ai.tool.call.id"
  const GenAiSystem: string := "gen_ai.system"
  const GenAiRequestModel: string := "gen_ai.request.model"
  const GenAiRequestTopP: string := "gen_ai.request.top_p"
  const GenAiRequestMaxTokens: string := "gen_ai.request.max_tokens"
  const InvocationIdKey: string := "gcp.vertex.agent.invocation_id"
  const SessionIdKey: string := "gcp.vertex.agent.session_id"
  const EventIdKey: string := "gcp.vertex.agent.event_id"
  const LLMRequestKey: string := "gcp.vertex.agent.llm_request"
  const LLMResponseKey: string := "gcp.vertex.agent.llm_response"
  const ToolCallArgsKey: string := "gcp.vertex.agent.tool_call_args"
  const ToolResponseKey: string := "gcp.vertex.agent.tool_response"

  const ExecuteTool: string := "execute_tool"
  const NotSpecified: string := "<not specified>"
  const MergedTools: string := "(merged tools)"
  const NotApplicable: string := "N/A"
  const NotSerializable: string := "<not serializable>"
  const EmptyJsonObject: string := "{}"

  // ---------------------------------------------------------------------------
  // Serialization

  /** The request as it is traced: the `config`, `model` and `content` entries of the
      map `llmRequestToTrace` builds. */
  datatype TraceRequest = TraceRequest(config: GenerateConfig, model: string, content: seq<Content>)

  /** Every kind of value the annotators hand to the JSON encoder. */
  datatype Value =
    | ArgsValue(args: Opaque)
    | ResponseValue(response: Opaque)
    | EventValue(event: Event)
    | TraceRequestValue(request: TraceRequest)
    | LLMResponseValue(llmResponse: Option<LLMResponse>)

  /** The JSON encoder: the encoding, or None when encoding fails. */
  type Marshal = Value -> Option<string>

  /** `safeSerialize`: never fails. A successful encoding is used verbatim; unless the
      encoder itself could print the sentinel text, the sentinel stands for exactly the
      failed encodings. */
  function SafeSerialize(marshal: Marshal, v: Value): (r: string)
    ensures marshal(v).Some? ==> r == marshal(v).value
    ensures marshal(v) != Some(NotSerializable) ==> (r == NotSerializable <==> marshal(v).None?)
  {
    match marshal(v)
    case Some(dump) => dump
    case None => NotSerializable
  }

  // ---------------------------------------------------------------------------
  // The traced form of an LLM request

  function KeepUnlessInline(p: Part): Option<Part> {
    if p.inlineData.None? then Some(p) else None
  }

  /** A parts list with its inline-data parts dropped. */
  function WithoutInlineData(parts: seq<Part>): seq<Part> {
    Collect(parts, KeepUnlessInline)
  }

  function TraceContent(c: Content): Content {
    Content(c.role, Some(WithoutInlineData(PartsOrEmpty(c))))
  }

  /** What `llmRequestToTrace` builds, as a value. */
  function RequestTrace(req: LLMRequest): TraceRequest {
    TraceRequest(req.config, req.model,
                 seq(|req.contents|, i requires 0 <= i < |req.contents| => TraceContent(req.contents[i])))
  }

  /** `llmRequestToTrace`: one traced content per request content, same role, and the
      parts without their inline data, in their original order. */
  method LLMRequestToTrace(req: LLMRequest) returns (r: TraceRequest)
    ensures r.config == req.config && r.model == req.model
    ensures |r.content| == |req.contents|
    ensures forall i :: 0 <= i < |req.contents| ==>
              r.content[i].role == req.contents[i].role
              && r.content[i].parts == Some(WithoutInlineData(PartsOrEmpty(req.contents[i])))
    ensures r == RequestTrace(req)
  {
    var content: seq<Content> := [];
    for i := 0 to |req.contents|
      invariant |content| == i
      invariant forall k :: 0 <= k < i ==> content[k] == TraceContent(req.contents[k])
    {
      var c := req.contents[i];
      var source := PartsOrEmpty(c);
      var parts: seq<Part> := [];
      for j := 0 to |source|
        invariant parts == WithoutInlineData(source[..j])
      {
        assert source[..j + 1][..j] == source[..j];
        if source[j].inlineData.Some? {
          continue;
        }
        parts := parts + [source[j]];
      }
      assert source[..|source|] == source;
      content := content + [Content(c.role, Some(parts))];
    }
    r := TraceRequest(req.config, req.model, content);
  }

  /** No inline-data part survives, and every other part does. */
  lemma WithoutInlineDataMembership(parts: seq<Part>, p: Part)
    ensures p in WithoutInlineData(parts) <==> p in parts && p.inlineData.None?
  {
    CollectMembership(parts, KeepUnlessInline, p);
    if p in parts && p.inlineData.None? {
      var i :| 0 <= i < |parts| && parts[i] == p;
      assert KeepUnlessInline(parts[i]) == Some(p);
    }
  }

  /** Dropping inline data keeps the parts' order: it distributes over concatenation. */
  lemma WithoutInlineDataAppend(a: seq<Part>, b: seq<Part>)
    ensures WithoutInlineData(a + b) == WithoutInlineData(a) + WithoutInlineData(b)
  {
    CollectAppend(a, b, KeepUnlessInline);
  }

  /** A parts list without inline data is traced unchanged; hence filtering is idempotent. */
  lemma WithoutInlineDataIdentity(parts: seq<Part>)
    ensures (forall i :: 0 <= i < |parts| ==> parts[i].inlineData.None?) ==> WithoutInlineData(parts) == parts
    ensures WithoutInlineData(WithoutInlineData(parts)) == WithoutInlineData(parts)
  {
    if forall i :: 0 <= i < |parts| ==> parts[i].inlineData.None? {
      CollectAll(parts, KeepUnlessInline);
    }
    var w := WithoutInlineData(parts);
    forall i | 0 <= i < |w| ensures w[i].inlineData.None? {
      WithoutInlineDataMembership(parts, w[i]);
    }
    CollectAll(w, KeepUnlessInline);
  }

  // ---------------------------------------------------------------------------
  // Span processors, tracer providers, tracers and spans

  /** An opaque span processor; only its identity and registration order matter. */
  datatype SpanProcessor = SpanProcessor(id: nat)

  /** A tracer provider with the processors attached to it, in attachment order. */
  class TracerProvider {
    var processors: seq<SpanProcessor>

    constructor ()
      ensures processors == []
    {
      processors := [];
    }

    method RegisterSpanProcessor(p: SpanProcessor)
      modifies this
      ensures processors == old(processors) + [p]
    {
      processors := processors + [p];
    }
  }

  /** Where a tracer comes from: the local provider, or the process's global one. */
  datatype TracerSource = Local(provider: TracerProvider) | Global

  datatype Tracer = Tracer(source: TracerSource, scope: string)

  /** A live span. As in the OpenTelemetry SDK, an ended span no longer records
      attributes, and ending it again changes nothing. */
  class Span {
    const name: string
    const tracer: Tracer
    var attributes: seq<KeyValue>
    var ended: bool

    /** `tracer.Start(ctx, name)`. */
    constructor Start(tracer: Tracer, name: string)
      ensures this.tracer == tracer && this.name == name
      ensures attributes == [] && !ended
    {
      this.tracer := tracer;
      this.name := name;
      attributes := [];
      ended := false;
    }

    method SetAttributes(kvs: seq<KeyValue>)
      modifies this
      ensures ended == old(ended)
      ensures attributes == if old(ended) then old(attributes) else old(attributes) + kvs
    {
      if !ended {
        attributes := attributes + kvs;
      }
    }

    method End()
      modifies this
      ensures ended && attributes == old(attributes)
    {
      ended := true;
    }
  }

  /** The package state: the registered processors, the once-guard, and the local
      tracer provider (null until the guard has run). Unsealed while `once` is false,
      sealed forever after. */
  class Registry {
    var spanProcessors: seq<SpanProcessor>
    var once: bool
    var localTracer: TracerProvider?

    ghost predicate Valid()
      reads this
    {
      once <==> localTracer != null
    }

    /** The processors attached to the local provider. */
    function Attached(): seq<SpanProcessor>
      reads this, localTracer
    {
      if localTracer == null then [] else localTracer.processors
    }

    constructor ()
      ensures Valid() && !once && spanProcessors == [] && Attached() == []
    {
      spanProcessors := [];
      once := false;
      localTracer := null;
    }

    /** `AddSpanProcessor`: appends, and never touches the sealed provider. */
    method AddSpanProcessor(processor: SpanProcessor)
      requires Valid()
      modifies this`spanProcessors
      ensures Valid()
      ensures spanProcessors == old(spanProcessors) + [processor]
      ensures once == old(once) && localTracer == old(localTracer) && Attached() == old(Attached())
    {
      spanProcessors := spanProcessors + [processor];
    }

    /** `RegisterTelemetry`: the first call builds the local provider from a snapshot of
        the registered processors; every later call does nothing. */
    method RegisterTelemetry()
      requires Valid()
      modifies this`once, this`localTracer
      ensures Valid() && once && spanProcessors == old(spanProcessors)
      ensures old(once) ==> localTracer == old(localTracer) && Attached() == old(Attached())
      ensures !old(once) ==> fresh(localTracer) && Attached() == spanProcessors
    {
      if once {
        return;
      }
      var traceProvider := new TracerProvider();
      var snapshot := spanProcessors;
      for i := 0 to |snapshot|
        invariant traceProvider.processors == snapshot[..i]
      {
        traceProvider.RegisterSpanProcessor(snapshot[i]);
      }
      assert snapshot[..|snapshot|] == snapshot;
      localTracer := traceProvider;
      once := true;
    }

    /** `getTracers`: seals the registry if the local provider is unset, then returns the
        local tracer and the global tracer, in that order. */
    method GetTracers() returns (tracers: seq<Tracer>)
      requires Valid()
      modifies this`once, this`localTracer
      ensures Valid() && once && spanProcessors == old(spanProcessors)
      ensures old(localTracer) != null ==> localTracer == old(localTracer) && Attached() == old(Attached())
      ensures old(localTracer) == null ==> fresh(localTracer) && Attached() == spanProcessors
      ensures tracers == [Tracer(Local(localTracer), SystemName), Tracer(Global, SystemName)]
    {
      if localTracer == null {
        RegisterTelemetry();
      }
      tracers := [Tracer(Local(localTracer), SystemName), Tracer(Global, SystemName)];
    }

    /** `StartTrace`: one fresh, unended span per tracer, all named `traceName`; the
        first from the local tracer, the second from the global one. */
    method StartTrace(traceName: string) returns (spans: seq<Span>)
      requires Valid()
      modifies this`once, this`localTracer
      ensures Valid() && once && spanProcessors == old(spanProcessors)
      ensures old(localTracer) != null ==> localTracer == old(localTracer) && Attached() == old(Attached())
      ensures old(localTracer) == null ==> fresh(localTracer) && Attached() == spanProcessors
      ensures |spans| == 2 && spans[0] != spans[1]
      ensures spans[0].tracer == Tracer(Local(localTracer), SystemName)
      ensures spans[1].tracer == Tracer(Global, SystemName)
      ensures forall i :: 0 <= i < |spans| ==>
                fresh(spans[i]) && spans[i].name == traceName && spans[i].attributes == [] && !spans[i].ended
    {
      var tracers := GetTracers();
      spans := [];
      for i := 0 to |tracers|
        modifies {}
        invariant |spans| == i
        invariant forall k :: 0 <= k < i ==>
                    fresh(spans[k]) && spans[k].tracer == tracers[k] && spans[k].name == traceName
                    && spans[k].attributes == [] && !spans[k].ended
        invariant forall k, l :: 0 <= k < l < i ==> spans[k] != spans[l]
      {
        var span := new Span.Start(tracers[i], traceName);
        spans := spans + [span];
      }
    }
  }

  /** Processors registered before the first trace are all attached, in registration
      order; those registered after it, and any later explicit registration call,
      change nothing. */
  method RegisterBeforeFirstTrace(early: seq<SpanProcessor>, late: seq<SpanProcessor>, traceName: string)
    returns (attached: seq<SpanProcessor>)
    ensures attached == early
  {
    var registry := new Registry();
    for i := 0 to |early|
      invariant registry.Valid() && !registry.once
      invariant registry.spanProcessors == early[..i]
    {
      registry.AddSpanProcessor(early[i]);
    }
    assert early[..|early|] == early;
    var spans := registry.StartTrace(traceName);
    for i := 0 to |late|
      invariant registry.Valid() && registry.once
      invariant registry.Attached() == early
    {
      registry.AddSpanProcessor(late[i]);
    }
    registry.RegisterTelemetry();
    attached := registry.Attached();
  }

  // ---------------------------------------------------------------------------
  // Annotate and close

  /** `s` got `attrs` (unless it had already ended) and is now ended. */
  twostate predicate Closed(s: Span, attrs: seq<KeyValue>)
    reads s
  {
    s.ended && s.attributes == (if old(s.ended) then old(s.attributes) else old(s.attributes) + attrs)
  }

  twostate predicate Untouched(s: Span)
    reads s
  {
    s.ended == old(s.ended) && s.attributes == old(s.attributes)
  }

  /** The loop every annotator runs: set the attributes on each span, then end it. */
  method AnnotateAndClose(spans: seq<Span>, attrs: seq<KeyValue>)
    modifies spans
    ensures forall s | s in spans :: Closed(s, attrs)
  {
    for i := 0 to |spans|
      invariant forall s | s in spans[..i] :: Closed(s, attrs)
      invariant forall s | s in spans && s !in spans[..i] :: Untouched(s)
    {
      var span := spans[i];
      ghost var wasEnded, hadAttributes := span.ended, span.attributes;
      span.SetAttributes(attrs);
      span.End();
      assert span.attributes == if wasEnded then hadAttributes else hadAttributes + attrs;
      assert Closed(span, attrs) by {
        if span in spans[..i] {
          assert wasEnded;
        } else {
          assert wasEnded == old(span.ended) && hadAttributes == old(span.attributes);
        }
      }
      assert spans[..i + 1] == spans[..i] + [span];
    }
    assert spans[..|spans|] == spans;
  }

  /** A tool descriptor: `tool.Name()` and `tool.Description()`. */
  datatype Tool = Tool(name: string, description: string)

  /** The tool-call annotator reads `LLMResponse.Content.Parts` without a nil check. */
  predicate HasContent(e: Event) {
    e.llmResponse.Some? && e.llmResponse.value.content.Some?
  }

  function ResponseParts(e: Event): seq<Part>
    requires HasContent(e)
  {
    PartsOrEmpty(e.llmResponse.value.content.value)
  }

  /** The function response of the first part, if there is a first part. */
  function FirstFunctionResponse(e: Event): Option<FunctionResponse>
    requires HasContent(e)
  {
    if |ResponseParts(e)| > 0 then ResponseParts(e)[0].functionResponse else None
  }

  /** The seven attributes a tool-call span gets before its call id and response. */
  function ToolCallBaseAttributes(tool: Tool, args: Opaque, e: Event, marshal: Marshal): seq<KeyValue> {
    [ Str(GenAiOperationName, ExecuteTool),
      Str(GenAiToolName, tool.name),
      Str(GenAiToolDescription, tool.description),
      Str(LLMRequestKey, EmptyJsonObject),
      Str(LLMRequestKey, EmptyJsonObject),
      Str(ToolCallArgsKey, SafeSerialize(marshal, ArgsValue(args))),
      Str(EventIdKey, e.id) ]
  }

  /** The attribute list of a tool-call span. */
  function ToolCallAttributes(tool: Tool, args: Opaque, e: Event, marshal: Marshal): seq<KeyValue>
    requires HasContent(e)
  {
    var fr := FirstFunctionResponse(e);
    var callId := if fr.Some? && fr.value.id != "" then fr.value.id else NotSpecified;
    var response := if fr.Some? && fr.value.response.Some?
                    then SafeSerialize(marshal, ResponseValue(fr.value.response.value)) else NotSpecified;
    ToolCallBaseAttributes(tool, args, e, marshal) + [Str(GenAiToolCallID, callId), Str(ToolResponseKey, response)]
  }

  /** The attribute list of a merged-tool-call span. */
  function MergedToolCallAttributes(e: Event, marshal: Marshal): seq<KeyValue> {
    [ Str(GenAiOperationName, ExecuteTool),
      Str(GenAiToolName, MergedTools),
      Str(GenAiToolDescription, MergedTools),
      Str(LLMRequestKey, EmptyJsonObject),
      Str(LLMRequestKey, EmptyJsonObject),
      Str(ToolCallArgsKey, NotApplicable),
      Str(EventIdKey, e.id),
      Str(ToolResponseKey, SafeSerialize(marshal, EventValue(e))) ]
  }

  /** The seven attributes every LLM-call span gets. */
  function LLMCallBaseAttributes(req: LLMRequest, sessionId: string, e: Event, marshal: Marshal): seq<KeyValue> {
    [ Str(GenAiSystem, SystemName),
      Str(GenAiRequestModel, req.model),
      Str(InvocationIdKey, e.invocationId),
      Str(SessionIdKey, sessionId),
      Str(EventIdKey, e.id),
      Str(LLMRequestKey, SafeSerialize(marshal, TraceRequestValue(RequestTrace(req)))),
      Str(LLMResponseKey, SafeSerialize(marshal, LLMResponseValue(e.llmResponse))) ]
  }

  /** The sampling attributes: `top_p` when set, `max_tokens` when non-zero. */
  function SamplingAttributes(config: GenerateConfig): seq<KeyValue> {
    (if config.topP.Some? then [KeyValue(GenAiRequestTopP, Float64Value(config.topP.value))] else [])
    + (if config.maxOutputTokens != 0 then [KeyValue(GenAiRequestMaxTokens, IntValue(config.maxOutputTokens))] else [])
  }

  /** The attribute list of an LLM-call span. */
  function LLMCallAttributes(req: LLMRequest, sessionId: string, e: Event, marshal: Marshal): seq<KeyValue> {
    LLMCallBaseAttributes(req, sessionId, e, marshal) + SamplingAttributes(req.config)
  }

  /** The key schema of a tool-call span. `llm_request` is set twice and `llm_response`
      never, as in the source. */
  const ToolCallKeys: seq<string> :=
    [GenAiOperationName, GenAiToolName, GenAiToolDescription, LLMRequestKey, LLMRequestKey,
     ToolCallArgsKey, EventIdKey, GenAiToolCallID, ToolResponseKey]

  const MergedToolCallKeys: seq<string> :=
    [GenAiOperationName, GenAiToolName, GenAiToolDescription, LLMRequestKey, LLMRequestKey,
     ToolCallArgsKey, EventIdKey, ToolResponseKey]

  /** The seven keys every LLM-call span carries, before the optional sampling keys. */
  const LLMCallBaseKeys: seq<string> :=
    [GenAiSystem, GenAiRequestModel, InvocationIdKey, SessionIdKey, EventIdKey, LLMRequestKey, LLMResponseKey]

  /** A tool-call span carries the fixed key schema, with string values only. */
  lemma ToolCallSchema(tool: Tool, args: Opaque, e: Event, marshal: Marshal)
    requires HasContent(e)
    ensures Keys(ToolCallAttributes(tool, args, e, marshal)) == ToolCallKeys
    ensures LLMResponseKey !in Keys(ToolCallAttributes(tool, args, e, marshal))
    ensures forall kv | kv in ToolCallAttributes(tool, args, e, marshal) :: kv.value.StringValue?
  {
  }

  /** The values a reader of a tool-call span's attributes sees for the fixed keys. */
  lemma ToolCallValues(tool: Tool, args: Opaque, e: Event, marshal: Marshal)
    requires HasContent(e)
    ensures Lookup(ToolCallAttributes(tool, args, e, marshal), GenAiOperationName) == Some(StringValue(ExecuteTool))
    ensures Lookup(ToolCallAttributes(tool, args, e, marshal), GenAiToolName) == Some(StringValue(tool.name))
    ensures Lookup(ToolCallAttributes(tool, args, e, marshal), GenAiToolDescription) == Some(StringValue(tool.description))
    ensures Lookup(ToolCallAttributes(tool, args, e, marshal), LLMRequestKey) == Some(StringValue(EmptyJsonObject))
    ensures Lookup(ToolCallAttributes(tool, args, e, marshal), ToolCallArgsKey)
            == Some(StringValue(SafeSerialize(marshal, ArgsValue(args))))
    ensures Lookup(ToolCallAttributes(tool, args, e, marshal), EventIdKey) == Some(StringValue(e.id))
  {
    var base := ToolCallBaseAttributes(tool, args, e, marshal);
    var attrs := ToolCallAttributes(tool, args, e, marshal);
    var tail := attrs[7..];
    assert attrs == base + tail;
    forall i | 0 <= i < 7 && i != 3
      ensures Lookup(attrs, base[i].key) == Some(base[i].value)
    {
      LookupSkipsTail(base, tail, base[i].key);
      LookupLast(base, i);
    }
    assert base[0].key == GenAiOperationName;
    assert base[1].key == GenAiToolName;
    assert base[2].key == GenAiToolDescription;
    assert base[4].key == LLMRequestKey;
    assert base[5].key == ToolCallArgsKey;
    assert base[6].key == EventIdKey;
  }

  /** Only the first response part is inspected: the call id is its function response's
      id, the tool response its serialized payload, each defaulting to the sentinel. */
  lemma ToolCallIdAndResponse(tool: Tool, args: Opaque, e: Event, marshal: Marshal)
    requires HasContent(e)
    ensures var attrs := ToolCallAttributes(tool, args, e, marshal);
      var parts := ResponseParts(e);
      && (|parts| == 0 || parts[0].functionResponse.None? ==>
            Lookup(attrs, GenAiToolCallID) == Some(StringValue(NotSpecified))
            && Lookup(attrs, ToolResponseKey) == Some(StringValue(NotSpecified)))
      && (|parts| > 0 && parts[0].functionResponse.Some? ==>
            var fr := parts[0].functionResponse.value;
            && Lookup(attrs, GenAiToolCallID) == Some(StringValue(if fr.id != "" then fr.id else NotSpecified))
            && Lookup(attrs, ToolResponseKey)
               == Some(StringValue(if fr.response.Some? then SafeSerialize(marshal, ResponseValue(fr.response.value))
                                   else NotSpecified)))
  {
  }

  /** Two events that agree on their id and on the first part's function response give
      the same tool-call attributes, whatever their other parts. */
  lemma ToolCallReadsFirstPartOnly(tool: Tool, args: Opaque, e1: Event, e2: Event, marshal: Marshal)
    requires HasContent(e1) && HasContent(e2) && e1.id == e2.id
    requires |ResponseParts(e1)| > 0 && |ResponseParts(e2)| > 0
    requires ResponseParts(e1)[0].functionResponse == ResponseParts(e2)[0].functionResponse
    ensures ToolCallAttributes(tool, args, e1, marshal) == ToolCallAttributes(tool, args, e2, marshal)
  {
  }

  /** A merged-tool-call span carries the placeholder schema: no call id. */
  lemma MergedToolCallSchema(e: Event, marshal: Marshal)
    ensures Keys(MergedToolCallAttributes(e, marshal)) == MergedToolCallKeys
    ensures LLMResponseKey !in Keys(MergedToolCallAttributes(e, marshal))
    ensures GenAiToolCallID !in Keys(MergedToolCallAttributes(e, marshal))
    ensures forall kv | kv in MergedToolCallAttributes(e, marshal) :: kv.value.StringValue?
  {
  }

  /** The placeholder values of a merged-tool-call span, and the whole event serialized
      as its tool response. */
  lemma MergedToolCallValues(e: Event, marshal: Marshal)
    ensures Lookup(MergedToolCallAttributes(e, marshal), GenAiOperationName) == Some(StringValue(ExecuteTool))
    ensures Lookup(MergedToolCallAttributes(e, marshal), GenAiToolName) == Some(StringValue(MergedTools))
    ensures Lookup(MergedToolCallAttributes(e, marshal), GenAiToolDescription) == Some(StringValue(MergedTools))
    ensures Lookup(MergedToolCallAttributes(e, marshal), LLMRequestKey) == Some(StringValue(EmptyJsonObject))
    ensures Lookup(MergedToolCallAttributes(e, marshal), ToolCallArgsKey) == Some(StringValue(NotApplicable))
    ensures Lookup(MergedToolCallAttributes(e, marshal), EventIdKey) == Some(StringValue(e.id))
    ensures Lookup(MergedToolCallAttributes(e, marshal), ToolResponseKey)
            == Some(StringValue(SafeSerialize(marshal, EventValue(e))))
  {
    var attrs := MergedToolCallAttributes(e, marshal);
    forall i | 0 <= i < 8 && i != 3
      ensures Lookup(attrs, attrs[i].key) == Some(attrs[i].value)
    {
      LookupLast(attrs, i);
    }
    assert attrs[0].key == GenAiOperationName;
    assert attrs[1].key == GenAiToolName;
    assert attrs[2].key == GenAiToolDescription;
    assert attrs[4].key == LLMRequestKey;
    assert attrs[5].key == ToolCallArgsKey;
    assert attrs[6].key == EventIdKey;
    assert attrs[7].key == ToolResponseKey;
  }

  /** An LLM-call span carries the seven base keys, then `top_p` exactly when the
      request sets it and `max_tokens` exactly when it is non-zero. */
  lemma LLMCallSchema(req: LLMRequest, sessionId: string, e: Event, marshal: Marshal)
    ensures |LLMCallAttributes(req, sessionId, e, marshal)|
            == 7 + (if req.config.topP.Some? then 1 else 0) + (if req.config.maxOutputTokens != 0 then 1 else 0)
    ensures Keys(LLMCallAttributes(req, sessionId, e, marshal))[..7] == LLMCallBaseKeys
    ensures GenAiRequestTopP in Keys(LLMCallAttributes(req, sessionId, e, marshal)) <==> req.config.topP.Some?
    ensures GenAiRequestMaxTokens in Keys(LLMCallAttributes(req, sessionId, e, marshal))
            <==> req.config.maxOutputTokens != 0
  {
    var attrs := LLMCallAttributes(req, sessionId, e, marshal);
    assert Keys(attrs)[..7] == LLMCallBaseKeys;
    if req.config.topP.Some? {
      assert Keys(attrs)[7] == GenAiRequestTopP;
    }
    if req.config.maxOutputTokens != 0 {
      assert Keys(attrs)[|attrs| - 1] == GenAiRequestMaxTokens;
    }
  }

  /** The values of an LLM-call span's base keys: among them the request traced without
      inline data and the serialized response. */
  lemma LLMCallValues(req: LLMRequest, sessionId: string, e: Event, marshal: Marshal)
    ensures Lookup(LLMCallAttributes(req, sessionId, e, marshal), GenAiSystem) == Some(StringValue(SystemName))
    ensures Lookup(LLMCallAttributes(req, sessionId, e, marshal), GenAiRequestModel) == Some(StringValue(req.model))
    ensures Lookup(LLMCallAttributes(req, sessionId, e, marshal), InvocationIdKey) == Some(StringValue(e.invocationId))
    ensures Lookup(LLMCallAttributes(req, sessionId, e, marshal), SessionIdKey) == Some(StringValue(sessionId))
    ensures Lookup(LLMCallAttributes(req, sessionId, e, marshal), EventIdKey) == Some(StringValue(e.id))
    ensures Lookup(LLMCallAttributes(req, sessionId, e, marshal), LLMRequestKey)
            == Some(StringValue(SafeSerialize(marshal, TraceRequestValue(RequestTrace(req)))))
    ensures Lookup(LLMCallAttributes(req, sessionId, e, marshal), LLMResponseKey)
            == Some(StringValue(SafeSerialize(marshal, LLMResponseValue(e.llmResponse))))
  {
    var base := LLMCallBaseAttributes(req, sessionId, e, marshal);
    var tail := SamplingAttributes(req.config);
    forall i | 0 <= i < 7
      ensures Lookup(base + tail, base[i].key) == Some(base[i].value)
    {
      LookupSkipsTail(base, tail, base[i].key);
      LookupLast(base, i);
    }
    assert base[0].key == GenAiSystem;
    assert base[1].key == GenAiRequestModel;
    assert base[2].key == InvocationIdKey;
    assert base[3].key == SessionIdKey;
    assert base[4].key == EventIdKey;
    assert base[5].key == LLMRequestKey;
    assert base[6].key == LLMResponseKey;
  }

  /** The sampling parameters of an LLM-call span, when the request sets them. */
  lemma LLMCallSamplingValues(req: LLMRequest, sessionId: string, e: Event, marshal: Marshal)
    ensures req.config.topP.Some? ==>
              Lookup(LLMCallAttributes(req, sessionId, e, marshal), GenAiRequestTopP) == Some(Float64Value(req.config.topP.value))
    ensures req.config.maxOutputTokens != 0 ==>
              Lookup(LLMCallAttributes(req, sessionId, e, marshal), GenAiRequestMaxTokens)
              == Some(IntValue(req.config.maxOutputTokens))
  {
    var attrs := LLMCallAttributes(req, sessionId, e, marshal);
    if req.config.topP.Some? {
      LookupLast(attrs, 7);
    }
    if req.config.maxOutputTokens != 0 {
      LookupLast(attrs, |attrs| - 1);
    }
  }

  /** `TraceToolCall`: nothing happens for a nil event; otherwise every span gets the
      tool-call attributes and is ended. */
  method TraceToolCall(spans: seq<Span>, tool: Tool, fnArgs: Opaque, fnResponseEvent: Option<Event>, marshal: Marshal)
    requires fnResponseEvent.Some? ==> HasContent(fnResponseEvent.value)
    modifies spans
    ensures fnResponseEvent.None? ==> forall s | s in spans :: Untouched(s)
    ensures fnResponseEvent.Some? ==>
              forall s | s in spans :: Closed(s, ToolCallAttributes(tool, fnArgs, fnResponseEvent.value, marshal))
  {
    if fnResponseEvent.None? {
      return;
    }
    var e := fnResponseEvent.value;
    var attributes := [ Str(GenAiOperationName, ExecuteTool),
                        Str(GenAiToolName, tool.name),
                        Str(GenAiToolDescription, tool.description),
                        Str(LLMRequestKey, EmptyJsonObject),
                        Str(LLMRequestKey, EmptyJsonObject),
                        Str(ToolCallArgsKey, SafeSerialize(marshal, ArgsValue(fnArgs))),
                        Str(EventIdKey, e.id) ];
    var toolCallID := NotSpecified;
    var toolResponse := NotSpecified;
    var responseParts := ResponseParts(e);
    if |responseParts| > 0 {
      var functionResponse := responseParts[0].functionResponse;
      if functionResponse.Some? {
        if functionResponse.value.id != "" {
          toolCallID := functionResponse.value.id;
        }
        if functionResponse.value.response.Some? {
          toolResponse := SafeSerialize(marshal, ResponseValue(functionResponse.value.response.value));
        }
      }
    }
    attributes := attributes + [Str(GenAiToolCallID, toolCallID)];
    attributes := attributes + [Str(ToolResponseKey, toolResponse)];
    AnnotateAndClose(spans, attributes);
  }

  /** `TraceMergedToolCalls`: nothing happens for a nil event; otherwise every span gets
      the merged-tool-call attributes and is ended. */
  method TraceMergedToolCalls(spans: seq<Span>, fnResponseEvent: Option<Event>, marshal: Marshal)
    modifies spans
    ensures fnResponseEvent.None? ==> forall s | s in spans :: Untouched(s)
    ensures fnResponseEvent.Some? ==>
              forall s | s in spans :: Closed(s, MergedToolCallAttributes(fnResponseEvent.value, marshal))
  {
    if fnResponseEvent.None? {
      return;
    }
    var e := fnResponseEvent.value;
    var attributes := [ Str(GenAiOperationName, ExecuteTool),
                        Str(GenAiToolName, MergedTools),
                        Str(GenAiToolDescription, MergedTools),
                        Str(LLMRequestKey, EmptyJsonObject),
                        Str(LLMRequestKey, EmptyJsonObject),
                        Str(ToolCallArgsKey, NotApplicable),
                        Str(EventIdKey, e.id),
                        Str(ToolResponseKey, SafeSerialize(marshal, EventValue(e))) ];
    AnnotateAndClose(spans, attributes);
  }

  /** `TraceLLMCall`: every span gets the LLM-call attributes and is ended. */
  method TraceLLMCall(spans: seq<Span>, sessionId: string, llmRequest: LLMRequest, event: Event, marshal: Marshal)
    modifies spans
    ensures forall s | s in spans :: Closed(s, LLMCallAttributes(llmRequest, sessionId, event, marshal))
  {
    var traced := LLMRequestToTrace(llmRequest);
    var attributes := [ Str(GenAiSystem, SystemName),
                        Str(GenAiRequestModel, llmRequest.model),
                        Str(InvocationIdKey, event.invocationId),
                        Str(SessionIdKey, sessionId),
                        Str(EventIdKey, event.id),
                        Str(LLMRequestKey, SafeSerialize(marshal, TraceRequestValue(traced))),
                        Str(LLMResponseKey, SafeSerialize(marshal, LLMResponseValue(event.llmResponse))) ];
    if llmRequest.config.topP.Some? {
      attributes := attributes + [KeyValue(GenAiRequestTopP, Float64Value(llmRequest.config.topP.value))];
    }
    if llmRequest.config.maxOutputTokens != 0 {
      attributes := attributes + [KeyValue(GenAiRequestMaxTokens, IntValue(llmRequest.config.maxOutputTokens))];
    }
    AnnotateAndClose(spans, attributes);
  }
}
