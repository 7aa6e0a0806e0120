/** The genai and session values the telemetry and debug code reads: events, their
    content parts, function calls and responses, and model requests. Each type keeps only
    the fields the core reads or tests; the other fields of the Go types are dropped.
    A few payloads the core carries without looking inside are `Opaque` tokens. */
module Events {
  import opened Wrappers

  /** A value the core carries but never inspects (tool arguments, a function response
      payload, an inline binary blob). */
  datatype Opaque = Opaque(id: nat)

  datatype FunctionCall = FunctionCall(id: string, name: string, args: Opaque)

  /** `response` is None when the Go map is nil. */
  datatype FunctionResponse = FunctionResponse(id: string, name: string, response: Option<Opaque>)

  datatype Part = Part(
    text: string,
    inlineData: Option<Opaque>,
    functionCall: Option<FunctionCall>,
    functionResponse: Option<FunctionResponse>)

  /** `parts` is None when the Go slice is nil (as opposed to empty). */
  datatype Content = Content(role: string, parts: Option<seq<Part>>)

  datatype LLMResponse = LLMResponse(content: Option<Content>)

  /** A session event; `llmResponse` is None when the embedded pointer is nil. */
  datatype Event = Event(id: string, invocationId: string, author: string, llmResponse: Option<LLMResponse>)

  /** The two sampling parameters the LLM-call annotator looks at. */
  datatype GenerateConfig = GenerateConfig(topP: Option<real>, maxOutputTokens: int)

  datatype LLMRequest = LLMRequest(model: string, contents: seq<Content>, config: GenerateConfig)

  /** The parts of an event's response content, or None when the response, its content
      or its parts are nil. */
  function EventParts(e: Event): (r: Option<seq<Part>>)
    ensures r.Some? <==> e.llmResponse.Some? && e.llmResponse.value.content.Some?
                         && e.llmResponse.value.content.value.parts.Some?
  {
    match e.llmResponse
    case None => None
    case Some(resp) =>
      match resp.content
      case None => None
      case Some(c) => c.parts
  }

  /** A nil parts slice ranges over nothing, like an empty one. */
  function PartsOrEmpty(c: Content): seq<Part> {
    match c.parts
    case None => []
    case Some(ps) => ps
  }

  /** The values `pick` finds in `parts`, in part order: the shape of every
      "append what this part carries" loop over a parts slice. */
  function Collect<T>(parts: seq<Part>, pick: Part -> Option<T>): (r: seq<T>)
    ensures |r| <= |parts|
  {
    if |parts| == 0 then []
    else
      Collect(parts[..|parts| - 1], pick)
      + match pick(parts[|parts| - 1]) case Some(x) => [x] case None => []
  }

  /** Collect distributes over concatenation, so it keeps the parts' order. */
  lemma {:induction false} CollectAppend<T>(a: seq<Part>, b: seq<Part>, pick: Part -> Option<T>)
    ensures Collect(a + b, pick) == Collect(a, pick) + Collect(b, pick)
    decreases |b|
  {
    if |b| == 0 {
      assert a + b == a;
    } else {
      var b' := b[..|b| - 1];
      assert (a + b)[..|a + b| - 1] == a + b';
      assert (a + b)[|a + b| - 1] == b[|b| - 1];
      CollectAppend(a, b', pick);
    }
  }

  /** Exactly the values some part carries are collected. */
  lemma {:induction false} CollectMembership<T>(parts: seq<Part>, pick: Part -> Option<T>, x: T)
    ensures x in Collect(parts, pick) <==> exists i :: 0 <= i < |parts| && pick(parts[i]) == Some(x)
    decreases |parts|
  {
    if |parts| > 0 {
      var init := parts[..|parts| - 1];
      CollectMembership(init, pick, x);
      if exists i :: 0 <= i < |init| && pick(init[i]) == Some(x) {
        var i :| 0 <= i < |init| && pick(init[i]) == Some(x);
        assert parts[i] == init[i];
      }
      if exists i :: 0 <= i < |parts| && pick(parts[i]) == Some(x) {
        var i :| 0 <= i < |parts| && pick(parts[i]) == Some(x);
        if i < |init| { assert init[i] == parts[i]; }
      }
    }
  }

  /** When every part carries a value, Collect keeps them all, one per part. */
  lemma {:induction false} CollectAll<T>(parts: seq<Part>, pick: Part -> Option<T>)
    requires forall i :: 0 <= i < |parts| ==> pick(parts[i]).Some?
    ensures |Collect(parts, pick)| == |parts|
    ensures forall i :: 0 <= i < |parts| ==> Some(Collect(parts, pick)[i]) == pick(parts[i])
    decreases |parts|
  {
    if |parts| > 0 {
      var init := parts[..|parts| - 1];
      CollectAll(init, pick);
    }
  }

  /** When no part carries a value, nothing is collected. */
  lemma {:induction false} CollectNone<T>(parts: seq<Part>, pick: Part -> Option<T>)
    requires forall i :: 0 <= i < |parts| ==> pick(parts[i]).None?
    ensures Collect(parts, pick) == []
    decreases |parts|
  {
    if |parts| > 0 {
      CollectNone(parts[..|parts| - 1], pick);
    }
  }
}
