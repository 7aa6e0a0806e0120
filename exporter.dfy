/** The debug trace store: a span exporter that keeps, for every event id, the flattened
    attributes of the last captured span that carried that id. */
module SpanExporter {
  import opened Wrappers
  import opened Attributes

  const CallLLM: string := "call_llm"
  const SendData: string := "send_data"
  const ExecuteToolPrefix: string := "execute_tool"
  const EventIdKey: string := "gcp.vertex.agent.event_id"
  const TraceIdKey: string := "trace_id"
  const SpanIdKey: string := "span_id"

  /** A finished span as the SDK hands it to an exporter; `traceId` and `spanId` are the
      printed forms of its trace and span identifiers. */
  datatype ReadOnlySpan = ReadOnlySpan(name: string, attributes: seq<KeyValue>, traceId: string, spanId: string)

  /** Event id to flat attribute map. */
  type TraceDict = map<string, map<string, string>>

  /** `attribute.Value.AsString`, left abstract. */
  type AsString = AttrValue -> string

  /** `strings.HasPrefix`. */
  predicate HasPrefix(s: string, prefix: string) {
    |prefix| <= |s| && s[..|prefix|] == prefix
  }

  /** The span-name filter: `call_llm`, `send_data`, or anything starting `execute_tool`. */
  predicate Captured(name: string) {
    name == CallLLM || name == SendData || HasPrefix(name, ExecuteToolPrefix)
  }

  /** The attribute list flattened into a map; a later pair overwrites an earlier one. */
  function StringMap(attrs: seq<KeyValue>, asString: AsString): map<string, string> {
    if |attrs| == 0 then map[]
    else StringMap(attrs[..|attrs| - 1], asString)[attrs[|attrs| - 1].key := asString(attrs[|attrs| - 1].value)]
  }

  /** The map stored for a captured span: its attributes, then its trace and span ids. */
  function SpanRecord(span: ReadOnlySpan, asString: AsString): map<string, string> {
    StringMap(span.attributes, asString)[TraceIdKey := span.traceId][SpanIdKey := span.spanId]
  }

  /** The store after one span of a batch. */
  function Record(dict: TraceDict, span: ReadOnlySpan, asString: AsString): TraceDict {
    var rec := SpanRecord(span, asString);
    if Captured(span.name) && EventIdKey in rec then dict[rec[EventIdKey] := rec] else dict
  }

  /** The store after a batch, span by span in batch order. */
  function ExportAll(dict: TraceDict, spans: seq<ReadOnlySpan>, asString: AsString): TraceDict {
    if |spans| == 0 then dict
    else Record(ExportAll(dict, spans[..|spans| - 1], asString), spans[|spans| - 1], asString)
  }

  /** The span is captured and stored under `key`. */
  predicate StoresUnder(span: ReadOnlySpan, key: string, asString: AsString) {
    var rec := SpanRecord(span, asString);
    Captured(span.name) && EventIdKey in rec && rec[EventIdKey] == key
  }

  /** The flattened map holds exactly the listed keys, each with the AsString of the
      value the list gives it (the last pair for that key). */
  lemma {:induction false} StringMapSpec(attrs: seq<KeyValue>, asString: AsString, k: string)
    ensures k in StringMap(attrs, asString) <==> Lookup(attrs, k).Some?
    ensures k in StringMap(attrs, asString) ==> StringMap(attrs, asString)[k] == asString(Lookup(attrs, k).value)
    decreases |attrs|
  {
    if |attrs| > 0 {
      StringMapSpec(attrs[..|attrs| - 1], asString, k);
    }
  }

  /** A stored record: `trace_id` and `span_id` always, written after (so over) any span
      attribute of the same name; every other key exactly as the span's attributes give it. */
  lemma SpanRecordContents(span: ReadOnlySpan, asString: AsString, k: string)
    ensures SpanRecord(span, asString)[TraceIdKey] == span.traceId
    ensures SpanRecord(span, asString)[SpanIdKey] == span.spanId
    ensures k != TraceIdKey && k != SpanIdKey ==>
              (k in SpanRecord(span, asString) <==> k in Keys(span.attributes))
              && (k in SpanRecord(span, asString) ==>
                    Lookup(span.attributes, k).Some?
                    && SpanRecord(span, asString)[k] == asString(Lookup(span.attributes, k).value))
  {
    StringMapSpec(span.attributes, asString, k);
    LookupSpec(span.attributes, k);
  }

  /** A span the name filter rejects, or one without an event id, changes nothing. */
  lemma RecordIgnores(dict: TraceDict, span: ReadOnlySpan, asString: AsString)
    ensures !Captured(span.name) ==> Record(dict, span, asString) == dict
    ensures EventIdKey !in Keys(span.attributes) ==> Record(dict, span, asString) == dict
  {
    SpanRecordContents(span, asString, EventIdKey);
  }

  /** A batch of rejected spans leaves the store as it was. */
  lemma {:induction false} ExportAllIgnoresUncaptured(dict: TraceDict, spans: seq<ReadOnlySpan>, asString: AsString)
    requires forall i :: 0 <= i < |spans| ==> !Captured(spans[i].name)
    ensures ExportAll(dict, spans, asString) == dict
    decreases |spans|
  {
    if |spans| > 0 {
      ExportAllIgnoresUncaptured(dict, spans[..|spans| - 1], asString);
    }
  }

  /** Two batches one after the other are one batch. */
  lemma {:induction false} ExportAllAppend(dict: TraceDict, a: seq<ReadOnlySpan>, b: seq<ReadOnlySpan>, asString: AsString)
    ensures ExportAll(dict, a + b, asString) == ExportAll(ExportAll(dict, a, asString), b, asString)
    decreases |b|
  {
    if |b| == 0 {
      assert a + b == a;
    } else {
      assert (a + b)[..|a + b| - 1] == a + b[..|b| - 1];
      ExportAllAppend(dict, a, b[..|b| - 1], asString);
    }
  }

  /** The store never evicts: after a batch it holds exactly its old keys plus the event
      ids of the captured spans. */
  lemma {:induction false} ExportAllKeys(dict: TraceDict, spans: seq<ReadOnlySpan>, asString: AsString, k: string)
    ensures k in ExportAll(dict, spans, asString) <==>
              k in dict || exists i :: 0 <= i < |spans| && StoresUnder(spans[i], k, asString)
    decreases |spans|
  {
    if |spans| > 0 {
      var init := spans[..|spans| - 1];
      ExportAllKeys(dict, init, asString, k);
      if exists i :: 0 <= i < |init| && StoresUnder(init[i], k, asString) {
        var i :| 0 <= i < |init| && StoresUnder(init[i], k, asString);
        assert spans[i] == init[i];
      }
      if exists i :: 0 <= i < |spans| && StoresUnder(spans[i], k, asString) {
        var i :| 0 <= i < |spans| && StoresUnder(spans[i], k, asString);
        if i < |init| {
          assert init[i] == spans[i];
        }
      }
    }
  }

  /** An entry no span of the batch stores under keeps its previous map. */
  lemma {:induction false} ExportAllKeepsUntouched(dict: TraceDict, spans: seq<ReadOnlySpan>, asString: AsString, k: string)
    requires k in dict
    requires forall i :: 0 <= i < |spans| ==> !StoresUnder(spans[i], k, asString)
    ensures k in ExportAll(dict, spans, asString) && ExportAll(dict, spans, asString)[k] == dict[k]
    decreases |spans|
  {
    if |spans| > 0 {
      ExportAllKeepsUntouched(dict, spans[..|spans| - 1], asString, k);
    }
  }

  /** Last write wins: the entry for `k` is the whole record of the last span of the
      batch stored under `k`, whatever was there before. */
  lemma {:induction false} ExportAllLastWins(dict: TraceDict, spans: seq<ReadOnlySpan>, asString: AsString, k: string, i: nat)
    requires i < |spans| && StoresUnder(spans[i], k, asString)
    requires forall j :: i < j < |spans| ==> !StoresUnder(spans[j], k, asString)
    ensures k in ExportAll(dict, spans, asString)
    ensures ExportAll(dict, spans, asString)[k] == SpanRecord(spans[i], asString)
    decreases |spans|
  {
    if i < |spans| - 1 {
      ExportAllLastWins(dict, spans[..|spans| - 1], asString, k, i);
    }
  }

  /** Exporting `execute_tool_search` with attributes {event_id: e1, foo: bar} stores under
      `e1` those two attributes plus the span's trace and span ids. */
  lemma ExportToolSpanExample(asString: AsString, traceId: string, spanId: string)
    requires asString(StringValue("e1")) == "e1" && asString(StringValue("bar")) == "bar"
    ensures var span := ReadOnlySpan("execute_tool_search", [Str(EventIdKey, "e1"), Str("foo", "bar")], traceId, spanId);
            ExportAll(map[], [span], asString)
            == map["e1" := map[EventIdKey := "e1", "foo" := "bar", TraceIdKey := traceId, SpanIdKey := spanId]]
  {
    var span := ReadOnlySpan("execute_tool_search", [Str(EventIdKey, "e1"), Str("foo", "bar")], traceId, spanId);
    assert HasPrefix(span.name, ExecuteToolPrefix);
    assert [span][..0] == [];
    assert span.attributes[..1][..0] == [];
    assert span.attributes[..1] == [Str(EventIdKey, "e1")];
    assert StringMap(span.attributes[..1], asString) == map[EventIdKey := "e1"];
    assert StringMap(span.attributes, asString) == map[EventIdKey := "e1"]["foo" := "bar"];
  }

  /** `APIServerSpanExporter`: the store is a field that each export batch updates in place. */
  class APIServerSpanExporter {
    var traceDict: TraceDict

    /** `NewAPIServerSpanExporter`: an empty store. */
    constructor ()
      ensures traceDict == map[]
    {
      traceDict := map[];
    }

    /** `GetTraceDict`: the store itself. */
    method GetTraceDict() returns (d: TraceDict)
      ensures d == traceDict
    {
      d := traceDict;
    }

    /** `ExportSpans`: applies the batch span by span and never fails. */
    method ExportSpans(spans: seq<ReadOnlySpan>, asString: AsString) returns (err: Option<string>)
      modifies this
      ensures err == None
      ensures traceDict == ExportAll(old(traceDict), spans, asString)
    {
      for i := 0 to |spans|
        invariant traceDict == ExportAll(old(traceDict), spans[..i], asString)
      {
        var span := spans[i];
        assert spans[..i + 1][..i] == spans[..i];
        if span.name == CallLLM || span.name == SendData || HasPrefix(span.name, ExecuteToolPrefix) {
          var attributes: map<string, string> := map[];
          for j := 0 to |span.attributes|
            invariant attributes == StringMap(span.attributes[..j], asString)
          {
            assert span.attributes[..j + 1][..j] == span.attributes[..j];
            var kv := span.attributes[j];
            attributes := attributes[kv.key := asString(kv.value)];
          }
          assert span.attributes[..|span.attributes|] == span.attributes;
          attributes := attributes[TraceIdKey := span.traceId];
          attributes := attributes[SpanIdKey := span.spanId];
          if EventIdKey in attributes {
            traceDict := traceDict[attributes[EventIdKey] := attributes];
          }
        }
      }
      assert spans[..|spans|] == spans;
      err := None;
    }

    /** `Shutdown`: nothing to close; the store is left as it is. */
    method Shutdown() returns (err: Option<string>)
      ensures err == None
    {
      err := None;
    }
  }
}
