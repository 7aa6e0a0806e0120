/** Span attributes as OpenTelemetry keeps them: an ordered list of key/value pairs in
    which a later pair for a key supersedes an earlier one. */
module Attributes {
  import opened Wrappers

  /** The three attribute kinds the annotators emit (`attribute.String`,
      `attribute.Float64`, `attribute.Int`). Floating-point values are kept as reals. */
  datatype AttrValue = StringValue(str: string) | Float64Value(f: real) | IntValue(i: int)

  datatype KeyValue = KeyValue(key: string, value: AttrValue)

  /** `attribute.String(k, v)`. */
  function Str(key: string, value: string): KeyValue {
    KeyValue(key, StringValue(value))
  }

  /** The keys of an attribute list, in order, repeats included. */
  function Keys(attrs: seq<KeyValue>): (r: seq<string>)
    ensures |r| == |attrs|
    ensures forall i :: 0 <= i < |attrs| ==> r[i] == attrs[i].key
  {
    seq(|attrs|, i requires 0 <= i < |attrs| => attrs[i].key)
  }

  /** The value the list gives `key`: that of its LAST pair with this key. */
  function Lookup(attrs: seq<KeyValue>, key: string): Option<AttrValue> {
    if |attrs| == 0 then None
    else if attrs[|attrs| - 1].key == key then Some(attrs[|attrs| - 1].value)
    else Lookup(attrs[..|attrs| - 1], key)
  }

  /** Lookup finds a key exactly when some pair carries it, and then it finds the value
      of the last such pair. */
  lemma {:induction false} LookupSpec(attrs: seq<KeyValue>, key: string)
    ensures Lookup(attrs, key).None? <==> forall i :: 0 <= i < |attrs| ==> attrs[i].key != key
    ensures Lookup(attrs, key).Some? ==>
              exists i :: 0 <= i < |attrs| && attrs[i] == KeyValue(key, Lookup(attrs, key).value)
                          && forall j :: i < j < |attrs| ==> attrs[j].key != key
    decreases |attrs|
  {
    if |attrs| > 0 && attrs[|attrs| - 1].key != key {
      var init := attrs[..|attrs| - 1];
      LookupSpec(init, key);
      if Lookup(init, key).Some? {
        var i :| 0 <= i < |init| && init[i] == KeyValue(key, Lookup(init, key).value)
                 && forall j :: i < j < |init| ==> init[j].key != key;
        assert attrs[i] == init[i];
      }
    }
  }

  /** A pair with no later pair for its key is the one Lookup finds. */
  lemma {:induction false} LookupLast(attrs: seq<KeyValue>, i: nat)
    requires i < |attrs|
    requires forall j :: i < j < |attrs| ==> attrs[j].key != attrs[i].key
    ensures Lookup(attrs, attrs[i].key) == Some(attrs[i].value)
    decreases |attrs|
  {
    if i < |attrs| - 1 {
      var init := attrs[..|attrs| - 1];
      LookupLast(init, i);
    }
  }

  /** Pairs for other keys appended after the list do not change what it gives `key`. */
  lemma {:induction false} LookupSkipsTail(a: seq<KeyValue>, b: seq<KeyValue>, key: string)
    requires forall i :: 0 <= i < |b| ==> b[i].key != key
    ensures Lookup(a + b, key) == Lookup(a, key)
    decreases |b|
  {
    if |b| == 0 {
      assert a + b == a;
    } else {
      assert (a + b)[..|a + b| - 1] == a + b[..|b| - 1];
      LookupSkipsTail(a, b[..|b| - 1], key);
    }
  }
}
