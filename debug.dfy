/** The debug API: the attribute map stored for one event, and the agent graph of a
    session with the nodes of one event highlighted. HTTP responses are modelled as
    `Outcome` values carrying the status code and either the error text or the JSON body. */
module Debug {
  import opened Wrappers
  import opened Events
  import opened AgentLoader
  import opened SpanExporter

  const StatusOK: int := 200
  const StatusBadRequest: int := 400
  const StatusNotFound: int := 404
  const StatusInternalServerError: int := 500

  const EventIdVar: string := "event_id"
  const EventIdRequired: string := "event_id parameter is required"
  const EventNotFound: string := "event not found"
  const DotSrc: string := "dotSrc"

  /** What a handler writes: `http.Error(rw, message, status)` or a JSON object. */
  datatype Outcome = Error(status: int, message: string) | Json(status: int, body: map<string, string>)

  datatype SessionID = SessionID(appName: string, userId: string, id: string)

  /** A (from, to) pair of graph node names to highlight. */
  type Pair = (string, string)

  /** A route variable; a missing one reads as the empty string, as a Go map lookup does. */
  function RouteVar(vars: map<string, string>, name: string): string {
    if name in vars then vars[name] else ""
  }

  // ---------------------------------------------------------------------------
  // Function calls and responses of an event

  function CallOf(p: Part): Option<FunctionCall> {
    p.functionCall
  }

  function ResponseOf(p: Part): Option<FunctionResponse> {
    p.functionResponse
  }

  /** The calls of an event's parts, in part order (none when the parts are nil). */
  function EventCalls(e: Event): seq<FunctionCall> {
    match EventParts(e)
    case None => []
    case Some(parts) => Collect(parts, CallOf)
  }

  function EventResponses(e: Event): seq<FunctionResponse> {
    match EventParts(e)
    case None => []
    case Some(parts) => Collect(parts, ResponseOf)
  }

  /** `functionalCalls`: nil when the response, its content or its parts are nil;
      otherwise the function call of every part that has one, in part order. */
  method FunctionalCalls(event: Event) returns (fc: Option<seq<FunctionCall>>)
    ensures fc.None? <==> EventParts(event).None?
    ensures fc.Some? ==> fc.value == Collect(EventParts(event).value, CallOf)
  {
    if event.llmResponse.None? || event.llmResponse.value.content.None?
       || event.llmResponse.value.content.value.parts.None? {
      return None;
    }
    var parts := event.llmResponse.value.content.value.parts.value;
    var calls: seq<FunctionCall> := [];
    for i := 0 to |parts|
      invariant calls == Collect(parts[..i], CallOf)
    {
      assert parts[..i + 1][..i] == parts[..i];
      if parts[i].functionCall.Some? {
        calls := calls + [parts[i].functionCall.value];
      }
    }
    assert parts[..|parts|] == parts;
    fc := Some(calls);
  }

  /** `functionalResponses`: the same for function responses. */
  method FunctionalResponses(event: Event) returns (fr: Option<seq<FunctionResponse>>)
    ensures fr.None? <==> EventParts(event).None?
    ensures fr.Some? ==> fr.value == Collect(EventParts(event).value, ResponseOf)
  {
    if event.llmResponse.None? || event.llmResponse.value.content.None?
       || event.llmResponse.value.content.value.parts.None? {
      return None;
    }
    var parts := event.llmResponse.value.content.value.parts.value;
    var responses: seq<FunctionResponse> := [];
    for i := 0 to |parts|
      invariant responses == Collect(parts[..i], ResponseOf)
    {
      assert parts[..i + 1][..i] == parts[..i];
      if parts[i].functionResponse.Some? {
        responses := responses + [parts[i].functionResponse.value];
      }
    }
    assert parts[..|parts|] == parts;
    fr := Some(responses);
  }

  // ---------------------------------------------------------------------------
  // Highlight pairs

  /** One (name, author) pair per call with a non-empty name, in call order. */
  function CallPairs(calls: seq<FunctionCall>, author: string): seq<Pair> {
    if |calls| == 0 then []
    else CallPairs(calls[..|calls| - 1], author)
         + (if calls[|calls| - 1].name != "" then [(calls[|calls| - 1].name, author)] else [])
  }

  /** One (name, author) pair per response with a non-empty name, in response order. */
  function ResponsePairs(responses: seq<FunctionResponse>, author: string): seq<Pair> {
    if |responses| == 0 then []
    else ResponsePairs(responses[..|responses| - 1], author)
         + (if responses[|responses| - 1].name != "" then [(responses[|responses| - 1].name, author)] else [])
  }

  /** The pairs to highlight for an event: its calls if it has any, else its responses if
      it has any, else the author paired with itself. */
  function HighlightPairs(e: Event): seq<Pair> {
    if |EventCalls(e)| > 0 then CallPairs(EventCalls(e), e.author)
    else if |EventResponses(e)| > 0 then ResponsePairs(EventResponses(e), e.author)
    else [(e.author, e.author)]
  }

  /** The call loop of the highlight computation: one pair per named call. */
  method NamedCallPairs(calls: seq<FunctionCall>, author: string) returns (pairs: seq<Pair>)
    ensures pairs == CallPairs(calls, author)
  {
    pairs := [];
    for i := 0 to |calls|
      invariant pairs == CallPairs(calls[..i], author)
    {
      assert calls[..i + 1][..i] == calls[..i];
      if calls[i].name != "" {
        pairs := pairs + [(calls[i].name, author)];
      }
    }
    assert calls[..|calls|] == calls;
  }

  /** The response loop of the highlight computation: one pair per named response. */
  method NamedResponsePairs(responses: seq<FunctionResponse>, author: string) returns (pairs: seq<Pair>)
    ensures pairs == ResponsePairs(responses, author)
  {
    pairs := [];
    for i := 0 to |responses|
      invariant pairs == ResponsePairs(responses[..i], author)
    {
      assert responses[..i + 1][..i] == responses[..i];
      if responses[i].name != "" {
        pairs := pairs + [(responses[i].name, author)];
      }
    }
    assert responses[..|responses|] == responses;
  }

  /** The highlight computation of `EventGraph`. */
  method HighlightedPairs(event: Event) returns (pairs: seq<Pair>)
    ensures pairs == HighlightPairs(event)
  {
    var fc := FunctionalCalls(event);
    var fr := FunctionalResponses(event);
    var calls := if fc.Some? then fc.value else [];
    var responses := if fr.Some? then fr.value else [];
    assert calls == EventCalls(event) && responses == EventResponses(event);
    if |calls| > 0 {
      pairs := NamedCallPairs(calls, event.author);
    } else if |responses| > 0 {
      pairs := NamedResponsePairs(responses, event.author);
    } else {
      pairs := [(event.author, event.author)];
    }
  }

  /** With all call names non-empty there is one pair per call, in call order. */
  lemma {:induction false} CallPairsAllNamed(calls: seq<FunctionCall>, author: string)
    requires forall i :: 0 <= i < |calls| ==> calls[i].name != ""
    ensures |CallPairs(calls, author)| == |calls|
    ensures forall i :: 0 <= i < |calls| ==> CallPairs(calls, author)[i] == (calls[i].name, author)
    decreases |calls|
  {
    if |calls| > 0 {
      CallPairsAllNamed(calls[..|calls| - 1], author);
    }
  }

  lemma {:induction false} CallPairsNoneNamed(calls: seq<FunctionCall>, author: string)
    requires forall i :: 0 <= i < |calls| ==> calls[i].name == ""
    ensures CallPairs(calls, author) == []
    decreases |calls|
  {
    if |calls| > 0 {
      CallPairsNoneNamed(calls[..|calls| - 1], author);
    }
  }

  lemma {:induction false} ResponsePairsAllNamed(responses: seq<FunctionResponse>, author: string)
    requires forall i :: 0 <= i < |responses| ==> responses[i].name != ""
    ensures |ResponsePairs(responses, author)| == |responses|
    ensures forall i :: 0 <= i < |responses| ==> ResponsePairs(responses, author)[i] == (responses[i].name, author)
    decreases |responses|
  {
    if |responses| > 0 {
      ResponsePairsAllNamed(responses[..|responses| - 1], author);
    }
  }

  lemma {:induction false} ResponsePairsNoneNamed(responses: seq<FunctionResponse>, author: string)
    requires forall i :: 0 <= i < |responses| ==> responses[i].name == ""
    ensures ResponsePairs(responses, author) == []
    decreases |responses|
  {
    if |responses| > 0 {
      ResponsePairsNoneNamed(responses[..|responses| - 1], author);
    }
  }

  /** The call pairs of two call lists one after the other are the pairs of the first
      followed by those of the second: the pairs keep call order. */
  lemma {:induction false} CallPairsAppend(a: seq<FunctionCall>, b: seq<FunctionCall>, author: string)
    ensures CallPairs(a + b, author) == CallPairs(a, author) + CallPairs(b, author)
    decreases |b|
  {
    if |b| == 0 {
      assert a + b == a;
    } else {
      assert (a + b)[..|a + b| - 1] == a + b[..|b| - 1];
      assert (a + b)[|a + b| - 1] == b[|b| - 1];
      CallPairsAppend(a, b[..|b| - 1], author);
    }
  }

  lemma {:induction false} ResponsePairsAppend(a: seq<FunctionResponse>, b: seq<FunctionResponse>, author: string)
    ensures ResponsePairs(a + b, author) == ResponsePairs(a, author) + ResponsePairs(b, author)
    decreases |b|
  {
    if |b| == 0 {
      assert a + b == a;
    } else {
      assert (a + b)[..|a + b| - 1] == a + b[..|b| - 1];
      assert (a + b)[|a + b| - 1] == b[|b| - 1];
      ResponsePairsAppend(a, b[..|b| - 1], author);
    }
  }

  /** A pair is highlighted for a call list exactly when it joins the author to the
      non-empty name of some call. */
  lemma {:induction false} CallPairsMembership(calls: seq<FunctionCall>, author: string, p: Pair)
    ensures p in CallPairs(calls, author) <==>
              p.1 == author && p.0 != "" && exists i :: 0 <= i < |calls| && calls[i].name == p.0
    decreases |calls|
  {
    if |calls| > 0 {
      var init := calls[..|calls| - 1];
      CallPairsMembership(init, author, p);
      if exists i :: 0 <= i < |init| && init[i].name == p.0 {
        var i :| 0 <= i < |init| && init[i].name == p.0;
        assert calls[i] == init[i];
      }
      if exists i :: 0 <= i < |calls| && calls[i].name == p.0 {
        var i :| 0 <= i < |calls| && calls[i].name == p.0;
        if i < |init| { assert init[i] == calls[i]; }
      }
    }
  }

  lemma {:induction false} ResponsePairsMembership(responses: seq<FunctionResponse>, author: string, p: Pair)
    ensures p in ResponsePairs(responses, author) <==>
              p.1 == author && p.0 != "" && exists i :: 0 <= i < |responses| && responses[i].name == p.0
    decreases |responses|
  {
    if |responses| > 0 {
      var init := responses[..|responses| - 1];
      ResponsePairsMembership(init, author, p);
      if exists i :: 0 <= i < |init| && init[i].name == p.0 {
        var i :| 0 <= i < |init| && init[i].name == p.0;
        assert responses[i] == init[i];
      }
      if exists i :: 0 <= i < |responses| && responses[i].name == p.0 {
        var i :| 0 <= i < |responses| && responses[i].name == p.0;
        if i < |init| { assert init[i] == responses[i]; }
      }
    }
  }

  /** Calls a, "" and b, in that order, give exactly (a, author) then (b, author). */
  lemma CallPairsMixedExample(a: FunctionCall, unnamed: FunctionCall, b: FunctionCall, author: string)
    requires a.name != "" && unnamed.name == "" && b.name != ""
    ensures CallPairs([a, unnamed, b], author) == [(a.name, author), (b.name, author)]
  {
    CallPairsAppend([a, unnamed], [b], author);
    CallPairsAppend([a], [unnamed], author);
    assert [a, unnamed] + [b] == [a, unnamed, b];
    assert [a] + [unnamed] == [a, unnamed];
    assert [a][..0] == [];
    assert [unnamed][..0] == [];
    assert [b][..0] == [];
  }

  /** Every pair ends at the author and starts at a non-empty name or at the author. */
  lemma {:induction false} PairsEndAtAuthor(calls: seq<FunctionCall>, responses: seq<FunctionResponse>, author: string)
    ensures forall p | p in CallPairs(calls, author) :: p.1 == author && p.0 != ""
    ensures forall p | p in ResponsePairs(responses, author) :: p.1 == author && p.0 != ""
    decreases |calls| + |responses|
  {
    if |calls| > 0 {
      PairsEndAtAuthor(calls[..|calls| - 1], responses, author);
    }
    if |responses| > 0 {
      PairsEndAtAuthor(calls, responses[..|responses| - 1], author);
    }
  }

  /** When the event has calls, they alone decide, whatever responses it also carries:
      a pair is highlighted exactly when it joins the author to a named call; with all
      calls named, one pair per call in call order; with none named, no pair at all. */
  lemma HighlightCallsFirst(e: Event)
    requires |EventCalls(e)| > 0
    ensures forall p: Pair :: p in HighlightPairs(e) <==>
              p.1 == e.author && p.0 != "" && exists i :: 0 <= i < |EventCalls(e)| && EventCalls(e)[i].name == p.0
    ensures (forall c | c in EventCalls(e) :: c.name != "") ==>
              HighlightPairs(e) == seq(|EventCalls(e)|, i requires 0 <= i < |EventCalls(e)| => (EventCalls(e)[i].name, e.author))
    ensures (forall c | c in EventCalls(e) :: c.name == "") ==> HighlightPairs(e) == []
  {
    var calls := EventCalls(e);
    forall p: Pair {
      CallPairsMembership(calls, e.author, p);
    }
    if forall c | c in calls :: c.name != "" {
      CallPairsAllNamed(calls, e.author);
    }
    if forall c | c in calls :: c.name == "" {
      CallPairsNoneNamed(calls, e.author);
    }
  }

  /** Without calls but with responses, the responses decide: a pair is highlighted
      exactly when it joins the author to a named response; with all named, one pair
      per response in order; with none named, no pair at all (and no self-pair). */
  lemma HighlightResponsesNext(e: Event)
    requires |EventCalls(e)| == 0 && |EventResponses(e)| > 0
    ensures forall p: Pair :: p in HighlightPairs(e) <==>
              p.1 == e.author && p.0 != ""
              && exists i :: 0 <= i < |EventResponses(e)| && EventResponses(e)[i].name == p.0
    ensures (forall r | r in EventResponses(e) :: r.name != "") ==>
              HighlightPairs(e)
              == seq(|EventResponses(e)|, i requires 0 <= i < |EventResponses(e)| => (EventResponses(e)[i].name, e.author))
    ensures (forall r | r in EventResponses(e) :: r.name == "") ==> HighlightPairs(e) == []
  {
    var responses := EventResponses(e);
    forall p: Pair {
      ResponsePairsMembership(responses, e.author, p);
    }
    if forall r | r in responses :: r.name != "" {
      ResponsePairsAllNamed(responses, e.author);
    }
    if forall r | r in responses :: r.name == "" {
      ResponsePairsNoneNamed(responses, e.author);
    }
  }

  /** Without calls and responses: exactly the author's self-pair. */
  lemma HighlightSelfPair(e: Event)
    requires |EventCalls(e)| == 0 && |EventResponses(e)| == 0
    ensures HighlightPairs(e) == [(e.author, e.author)]
  {
  }

  /** Every highlight pair ends at the event's author. */
  lemma HighlightEndsAtAuthor(e: Event)
    ensures |HighlightPairs(e)| > 0 || |EventCalls(e)| > 0 || |EventResponses(e)| > 0
    ensures forall p | p in HighlightPairs(e) :: p.1 == e.author
  {
    PairsEndAtAuthor(EventCalls(e), EventResponses(e), e.author);
  }

  /** An event whose only part calls `search`, authored by `agent_a`, highlights
      exactly the pair (search, agent_a). */
  lemma HighlightSearchExample(call: FunctionCall, text: string)
    requires call.name == "search"
    ensures var part := Part(text, None, Some(call), None);
            var e := Event("e1", "inv", "agent_a", Some(LLMResponse(Some(Content("model", Some([part]))))));
            HighlightPairs(e) == [("search", "agent_a")]
  {
    var part := Part(text, None, Some(call), None);
    var e := Event("e1", "inv", "agent_a", Some(LLMResponse(Some(Content("model", Some([part]))))));
    assert [part][..0] == [];
    assert Collect([part], CallOf) == [call];
    assert EventParts(e) == Some([part]);
    assert EventCalls(e) == [call];
    assert [call][..0] == [];
    assert CallPairs([call], "agent_a") == [("search", "agent_a")];
  }

  // ---------------------------------------------------------------------------
  // Event search

  /** The first event with the given id. */
  function FirstWithId(events: seq<Event>, id: string): Option<Event> {
    if |events| == 0 then None
    else if events[0].id == id then Some(events[0])
    else FirstWithId(events[1..], id)
  }

  /** FirstWithId finds an event exactly when one has the id, and then the earliest. */
  lemma {:induction false} FirstWithIdSpec(events: seq<Event>, id: string)
    ensures FirstWithId(events, id).None? <==> forall i :: 0 <= i < |events| ==> events[i].id != id
    ensures FirstWithId(events, id).Some? ==>
              exists i :: 0 <= i < |events| && events[i] == FirstWithId(events, id).value && events[i].id == id
                          && forall j :: 0 <= j < i ==> events[j].id != id
    decreases |events|
  {
    if |events| > 0 && events[0].id != id {
      FirstWithIdSpec(events[1..], id);
      if FirstWithId(events[1..], id).Some? {
        var i :| 0 <= i < |events[1..]| && events[1..][i] == FirstWithId(events[1..], id).value
                 && events[1..][i].id == id && forall j :: 0 <= j < i ==> events[1..][j].id != id;
        assert events[i + 1] == events[1..][i];
        forall j | 0 <= j < i + 1 ensures events[j].id != id {
          if j > 0 { assert events[j] == events[1..][j - 1]; }
        }
      }
      assert forall i :: 0 < i < |events| ==> events[i] == events[1..][i - 1];
    }
  }

  /** The search loop of `EventGraph`: stops at the first event with the id. */
  method FindEvent(events: seq<Event>, eventID: string) returns (event: Option<Event>)
    ensures event == FirstWithId(events, eventID)
  {
    event := None;
    var i := 0;
    while i < |events|
      invariant 0 <= i <= |events|
      invariant FirstWithId(events, eventID) == FirstWithId(events[i..], eventID)
    {
      assert events[i..][1..] == events[i + 1..];
      if events[i].id == eventID {
        event := Some(events[i]);
        break;
      }
      i := i + 1;
    }
  }

  // ---------------------------------------------------------------------------
  // The handlers

  /** `DebugAPIController`; the session service is a function from session id to the
      session's events, or the error it reports. */
  class DebugAPIController {
    const sessionService: SessionID -> Result<seq<Event>, string>
    const agentLoader: StaticAgentLoader
    const spansExporter: APIServerSpanExporter

    constructor (sessionService: SessionID -> Result<seq<Event>, string>, agentLoader: StaticAgentLoader,
                 spansExporter: APIServerSpanExporter)
      ensures this.sessionService == sessionService
      ensures this.agentLoader == agentLoader && this.spansExporter == spansExporter
    {
      this.sessionService := sessionService;
      this.agentLoader := agentLoader;
      this.spansExporter := spansExporter;
    }

    /** `TraceDict`: 400 without an event id, 404 for an id the store lacks, otherwise
        200 with exactly the stored map. */
    method TraceDict(vars: map<string, string>) returns (out: Outcome)
      ensures RouteVar(vars, EventIdVar) == "" ==> out == Error(StatusBadRequest, EventIdRequired)
      ensures var id := RouteVar(vars, EventIdVar);
              id != "" && id !in spansExporter.traceDict ==> out == Error(StatusNotFound, "event not found: " + id)
      ensures var id := RouteVar(vars, EventIdVar);
              id != "" && id in spansExporter.traceDict ==> out == Json(StatusOK, spansExporter.traceDict[id])
    {
      var eventID := RouteVar(vars, EventIdVar);
      if eventID == "" {
        return Error(StatusBadRequest, EventIdRequired);
      }
      var traceDict := spansExporter.GetTraceDict();
      if eventID !in traceDict {
        return Error(StatusNotFound, "event not found: " + eventID);
      }
      out := Json(StatusOK, traceDict[eventID]);
    }

    /** `EventGraph`: the checks run in order (session id, session lookup, event id,
        event search, agent load, rendering) and the first that fails decides the
        outcome; if none fails, 200 with the rendered graph under `dotSrc`. */
    method EventGraph(vars: map<string, string>,
                      parseSessionID: map<string, string> -> Result<SessionID, string>,
                      render: (Agent, seq<Pair>) -> Result<string, string>)
      returns (out: Outcome)
      ensures out.status in {StatusOK, StatusBadRequest, StatusNotFound, StatusInternalServerError}
      ensures parseSessionID(vars).Failure? ==> out == Error(StatusBadRequest, parseSessionID(vars).error)
      ensures parseSessionID(vars).Success? ==>
        var sid := parseSessionID(vars).value;
        && (sessionService(sid).Failure? ==> out == Error(StatusBadRequest, sessionService(sid).error))
        && (sessionService(sid).Success? ==>
          var id := RouteVar(vars, EventIdVar);
          var found := FirstWithId(sessionService(sid).value, id);
          && (id == "" ==> out == Error(StatusBadRequest, EventIdRequired))
          && (id != "" && found.None? ==> out == Error(StatusNotFound, EventNotFound))
          && (id != "" && found.Some? ==>
            var loaded := agentLoader.LoadAgent(sid.appName);
            && (loaded.Failure? ==> out == Error(StatusInternalServerError, loaded.error))
            && (loaded.Success? ==>
              var graph := render(loaded.value, HighlightPairs(found.value));
              && (graph.Failure? ==> out == Error(StatusInternalServerError, graph.error))
              && (graph.Success? ==> out == Json(StatusOK, map[DotSrc := graph.value])))))
    {
      var sessionID := parseSessionID(vars);
      if sessionID.Failure? {
        return Error(StatusBadRequest, sessionID.error);
      }
      var resp := sessionService(sessionID.value);
      if resp.Failure? {
        return Error(StatusBadRequest, resp.error);
      }
      var eventID := RouteVar(vars, EventIdVar);
      if eventID == "" {
        return Error(StatusBadRequest, EventIdRequired);
      }
      var event := FindEvent(resp.value, eventID);
      if event.None? {
        return Error(StatusNotFound, EventNotFound);
      }
      var highlightedPairs := HighlightedPairs(event.value);
      var agent := agentLoader.LoadAgent(sessionID.value.appName);
      if agent.Failure? {
        return Error(StatusInternalServerError, agent.error);
      }
      var graph := render(agent.value, highlightedPairs);
      if graph.Failure? {
        return Error(StatusInternalServerError, graph.error);
      }
      out := Json(StatusOK, map[DotSrc := graph.value]);
    }
  }
}
