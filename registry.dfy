/** The local half of `AgentFactory`: an in-memory registry of agent
    configurations keyed by a short id, kept in insertion order as a Python
    dict is, and the local chat that looks an agent up in it first. */
module Registry {
  import opened Text
  import opened Instructions

  /** `AgentConfig`. */
  datatype AgentConfig = AgentConfig(id: string, name: string, description: string,
                                     instructions: string, createdAt: string)

  /** What `chat_with_agent` hands to the agent framework for a found agent. */
  datatype LocalSession = LocalSession(projectEndpoint: string, modelDeployment: string,
                                       name: string, instructions: string)

  /** Length of the id taken from the front of a generated uuid. */
  const IdLength: nat := 8

  /** `str(uuid.uuid4())[:8]`, for the rendered uuid `u`. */
  function ShortId(u: string): (r: string)
    ensures |r| <= IdLength && |r| <= |u| && r == u[..|r|]
    ensures |u| >= IdLength ==> |r| == IdLength
  {
    if |u| <= IdLength then u else u[..IdLength]
  }

  /** `f"Error: Agente '{agent_id}' no encontrado."`. */
  function NotFoundMessage(agentId: string): (r: string)
    ensures |r| == |agentId| + 31
  {
    "Error: Agente '" + agentId + "' no encontrado."
  }

  /** The not-found message names its id: different ids give different messages. */
  lemma NotFoundMessageInjective(a: string, b: string)
    ensures NotFoundMessage(a) == NotFoundMessage(b) ==> a == b
  {
    if NotFoundMessage(a) == NotFoundMessage(b) {
      var m := NotFoundMessage(a);
      assert a == m[15..|m| - 16];
      assert b == m[15..|m| - 16];
    }
  }

  /** The configurations stored under `keys`, in the order of `keys`. */
  function ValuesInOrder(keys: seq<string>, m: map<string, AgentConfig>): (r: seq<AgentConfig>)
    requires forall k :: k in keys ==> k in m
    ensures |r| == |keys|
    ensures forall i :: 0 <= i < |keys| ==> r[i] == m[keys[i]]
  {
    if keys == [] then [] else ValuesInOrder(keys[..|keys| - 1], m) + [m[keys[|keys| - 1]]]
  }

  /** The chunk texts a stream yields: the truthy ones, in order. */
  function StreamTexts(chunks: seq<Option<string>>): (r: seq<string>)
    ensures |r| <= |chunks|
    ensures forall k :: 0 <= k < |r| ==> r[k] != ""
  {
    if chunks == [] then []
    else StreamTexts(chunks[..|chunks| - 1])
         + (var c := chunks[|chunks| - 1]; if c.Some? && c.value != "" then [c.value] else [])
  }

  /** A stream yields exactly its non-empty chunk texts. */
  lemma {:induction false} StreamTextsMembers(chunks: seq<Option<string>>, t: string)
    ensures t in StreamTexts(chunks) <==> t != "" && Some(t) in chunks
    decreases |chunks|
  {
    if chunks != [] {
      var init := chunks[..|chunks| - 1];
      StreamTextsMembers(init, t);
      assert chunks == init + [chunks[|chunks| - 1]];
    }
  }

  /** A stream's texts are those of its parts in arrival order, repeats kept. */
  lemma {:induction false} StreamTextsConcat(a: seq<Option<string>>, b: seq<Option<string>>)
    ensures StreamTexts(a + b) == StreamTexts(a) + StreamTexts(b)
    decreases |b|
  {
    if b == [] {
      assert a + b == a;
    } else {
      var init, last := b[..|b| - 1], b[|b| - 1];
      StreamTextsConcat(a, init);
      assert (a + b)[..|a + b| - 1] == a + init;
      var tail := if last.Some? && last.value != "" then [last.value] else [];
      Associative(StreamTexts(a), StreamTexts(init), tail);
    }
  }

  /** Listing every key lists exactly the stored configurations. */
  lemma ValuesInOrderCovers(keys: seq<string>, m: map<string, AgentConfig>)
    requires forall k :: k in keys <==> k in m
    ensures forall c :: c in ValuesInOrder(keys, m) <==> exists k :: k in m && m[k] == c
  {
    var r := ValuesInOrder(keys, m);
    forall c | c in r
      ensures exists k :: k in m && m[k] == c
    {
      var i :| 0 <= i < |r| && r[i] == c;
      assert keys[i] in m;
    }
    forall c | exists k :: k in m && m[k] == c
      ensures c in r
    {
      var k :| k in m && m[k] == c;
      var i :| 0 <= i < |keys| && keys[i] == k;
      assert r[i] == c;
    }
  }

  /** Appending a fresh key appends its configuration to the listing. */
  lemma ValuesInOrderAppend(keys: seq<string>, m: map<string, AgentConfig>, k: string, v: AgentConfig)
    requires forall x :: x in keys ==> x in m
    requires k !in keys
    ensures ValuesInOrder(keys + [k], m[k := v]) == ValuesInOrder(keys, m) + [v]
  {
  }

  class AgentFactory {
    const projectEndpoint: string
    const modelDeployment: string
    /** `self.agents`. */
    var agents: map<string, AgentConfig>
    /** The insertion order of `self.agents`' keys. */
    var order: seq<string>

    /** The order lists every key of the dict exactly once. */
    ghost predicate Valid()
      reads this
    {
      && (forall i, j :: 0 <= i < j < |order| ==> order[i] != order[j])
      && (forall k :: k in order <==> k in agents)
    }

    constructor (endpoint: string, deployment: string)
      ensures Valid()
      ensures projectEndpoint == endpoint && modelDeployment == deployment
      ensures agents == map[] && order == []
    {
      projectEndpoint := endpoint;
      modelDeployment := deployment;
      agents := map[];
      order := [];
    }

    /** `create_agent_config`, with the generated uuid and the current time
        as inputs. The config is stored under its id, replacing any config
        that already had that id. */
    method CreateAgentConfig(uuid: string, createdAt: string, name: string, description: string,
                             purpose: string, personality: string := DefaultPersonality,
                             caps: Option<seq<string>> := None, rules: Option<seq<string>> := None)
      returns (config: AgentConfig)
      requires Valid()
      modifies this
      ensures Valid()
      ensures config == AgentConfig(ShortId(uuid), name, description,
                                    GenerateInstructions(purpose, personality, caps, rules), createdAt)
      ensures agents == old(agents)[config.id := config]
      ensures order == if config.id in old(agents) then old(order) else old(order) + [config.id]
      ensures GetAgentConfig(config.id) == Some(config)
      ensures config.id !in old(agents) ==> ListAgents() == old(ListAgents()) + [config]
    {
      var agentId := ShortId(uuid);
      var instructions := GenerateInstructions(purpose, personality, caps, rules);
      config := AgentConfig(agentId, name, description, instructions, createdAt);
      if agentId !in agents {
        ValuesInOrderAppend(order, agents, agentId, config);
        order := order + [agentId];
      }
      agents := agents[agentId := config];
    }

    /** `get_agent_config`: `self.agents.get(agent_id)`. */
    function GetAgentConfig(agentId: string): (r: Option<AgentConfig>)
      reads this
      ensures r.Some? <==> agentId in agents
      ensures r.Some? ==> r.value == agents[agentId]
    {
      if agentId in agents then Some(agents[agentId]) else None
    }

    /** `list_agents`: `list(self.agents.values())`, in insertion order. */
    function ListAgents(): (r: seq<AgentConfig>)
      reads this
      requires Valid()
      ensures |r| == |agents|
      ensures forall c :: c in r <==> exists k :: k in agents && agents[k] == c
    {
      DistinctKeysCount(order, agents.Keys);
      ValuesInOrderCovers(order, agents);
      ValuesInOrder(order, agents)
    }

    /** `chat_with_agent`: an unknown id yields the not-found message and opens
        no session; a known one opens a session with the stored name and
        instructions and yields the truthy chunk texts of its stream. */
    method ChatWithAgent(agentId: string, message: string, chunks: seq<Option<string>>)
      returns (session: Option<LocalSession>, fragments: seq<string>)
      ensures agentId !in agents ==> session == None && fragments == [NotFoundMessage(agentId)]
      ensures agentId in agents ==>
                && session == Some(LocalSession(projectEndpoint, modelDeployment,
                                                agents[agentId].name, agents[agentId].instructions))
                && fragments == StreamTexts(chunks)
    {
      var config := GetAgentConfig(agentId);
      if config.None? {
        session := None;
        fragments := [NotFoundMessage(agentId)];
        return;
      }
      session := Some(LocalSession(projectEndpoint, modelDeployment, config.value.name, config.value.instructions));
      fragments := [];
      var i := 0;
      while i < |chunks|
        invariant 0 <= i <= |chunks|
        invariant fragments == StreamTexts(chunks[..i])
      {
        if chunks[i].Some? && chunks[i].value != "" {
          fragments := fragments + [chunks[i].value];
        }
        assert chunks[..i + 1][..i] == chunks[..i];
        i := i + 1;
      }
      assert chunks[..i] == chunks;
    }
  }

  /** A duplicate-free sequence listing exactly the keys of a set has its size. */
  lemma {:induction false} DistinctKeysCount(keys: seq<string>, s: set<string>)
    requires forall i, j :: 0 <= i < j < |keys| ==> keys[i] != keys[j]
    requires forall k :: k in keys <==> k in s
    ensures |keys| == |s|
    decreases |keys|
  {
    if keys != [] {
      var last := keys[|keys| - 1];
      var init := keys[..|keys| - 1];
      assert forall k :: k in init <==> k in s - {last} by {
        forall k ensures k in init <==> k in s - {last} {
          if k in init {
            var i :| 0 <= i < |init| && init[i] == k;
            assert keys[i] == k;
          }
          if k in s - {last} {
            assert k in keys;
            var i :| 0 <= i < |keys| && keys[i] == k;
            assert i < |keys| - 1;
            assert init[i] == k;
          }
        }
      }
      DistinctKeysCount(init, s - {last});
    } else {
      assert forall k :: k !in s;
      assert s == {};
    }
  }
}
