/** The static agent loader: a fixed map from application name to agent. */
module AgentLoader {
  import opened Wrappers

  /** An agent definition, opaque to the loader. */
  datatype Agent = Agent(name: string)

  /** "agent <name> not found". */
  function NotFoundMessage(name: string): string {
    "agent " + name + " not found"
  }

  /** A sequence that lists no element twice. */
  predicate Distinct(s: seq<string>) {
    forall i, j :: 0 <= i < j < |s| ==> s[i] != s[j]
  }

  /** A duplicate-free sequence has as many elements as its set. */
  lemma {:induction false} DistinctCardinality(s: seq<string>)
    requires Distinct(s)
    ensures |set x | x in s| == |s|
    decreases |s|
  {
    if |s| > 0 {
      var init := s[..|s| - 1];
      DistinctCardinality(init);
      assert (set x | x in s) == (set x | x in init) + {s[|s| - 1]};
      assert s[|s| - 1] !in (set x | x in init);
    }
  }

  /** `StaticAgentLoader`: the map is set once and never changed. */
  class StaticAgentLoader {
    const agents: map<string, Agent>

    /** `NewStaticAgentLoader`: keeps the given map as it is. */
    constructor (agents: map<string, Agent>)
      ensures this.agents == agents
    {
      this.agents := agents;
    }

    /** `ListAgents`: every application name exactly once, in no particular order. */
    method ListAgents() returns (names: seq<string>)
      ensures forall n :: n in names <==> n in agents
      ensures Distinct(names)
      ensures |names| == |agents|
    {
      names := [];
      var remaining := agents.Keys;
      while remaining != {}
        invariant remaining <= agents.Keys
        invariant forall n :: n in names <==> n in agents.Keys - remaining
        invariant Distinct(names)
        decreases remaining
      {
        var name :| name in remaining;
        assert name !in names;
        ghost var before := names;
        names := names + [name];
        assert forall i :: 0 <= i < |before| ==> names[i] == before[i];
        remaining := remaining - {name};
      }
      DistinctCardinality(names);
      assert (set x | x in names) == agents.Keys;
    }

    /** `LoadAgent`: the stored agent for a known name, the not-found error otherwise. */
    function LoadAgent(name: string): (r: Result<Agent, string>)
      ensures r.Success? <==> name in agents
      ensures r.Success? ==> r.value == agents[name]
      ensures r.Failure? ==> r.error == NotFoundMessage(name)
    {
      if name in agents then Success(agents[name]) else Failure(NotFoundMessage(name))
    }
  }
}
