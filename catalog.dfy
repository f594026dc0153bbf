/** The remote-agent catalog of `AgentFactory`: `list_foundry_agents`,
    `list_foundry_tools` and `create_foundry_agent`. What the agent-hosting
    service returns is an input sequence here; the loops of the source are
    methods proved against specification functions. */
module Catalog {
  import opened Text
  import NameSanitizer

  // ---------------------------------------------------------------------------
  // The remote data model, as the service delivers it

  /** An attribute of a remote object read with `hasattr`/`getattr`: absent,
      present but `None`, or present with a value (already passed through `str`). */
  datatype Attr = Missing | Null | Value(text: string)

  /** A tool entry of a definition: a dict or an SDK object. `typ` is `None`
      when the dict has no `type` key or the object no `type` attribute. */
  datatype Tool = DictTool(typ: Option<string>) | ObjTool(typ: Option<string>)

  /** A version's definition: a dict or a `PromptAgentDefinition`-like object.
      `model` and `tools` are `None` when missing or `None` at the source. */
  datatype Definition =
    | DictDef(model: Option<string>, tools: Option<seq<Tool>>)
    | ObjDef(model: Option<string>, tools: Option<seq<Tool>>)

  /** The latest version of a remote agent. */
  datatype Version = Version(definition: Option<Definition>, description: Option<string>,
                             createdAt: Attr, version: Attr)

  /** A remote agent; `latest` is `None` when the agent has no (truthy)
      `versions` or the versions have no (truthy) `latest`. */
  datatype RemoteAgent = RemoteAgent(id: string, name: Option<string>, latest: Option<Version>)

  /** A connection of the project's connection inventory. `typeText` is
      `str(getattr(conn, 'type', ''))`. */
  datatype Connection = Connection(id: string, name: string, typeText: string, target: Option<string>)

  // ---------------------------------------------------------------------------
  // The records the factory returns

  datatype FoundryAgent = FoundryAgent(id: string, name: string, description: string, model: string,
                                       createdAt: string, hasTools: bool, toolTypes: Option<seq<string>>)

  datatype FoundryTool = FoundryTool(id: string, name: string, target: string, toolType: string)

  const UnknownToolType: string := "unknown"
  const UnnamedAgent: string := "Sin nombre"
  const RemoteToolMarker: string := "REMOTE_TOOL"
  const McpToolType: string := "mcp"
  const NeverApprove: string := "never"

  /** Python's `x or default` on an optional string: `None` and `""` are false. */
  function OrElse(x: Option<string>, default: string): string {
    if x.Some? && x.value != "" then x.value else default
  }

  /** `str(getattr(obj, attr))` when the attribute exists, `default` otherwise. */
  function AttrString(a: Attr, default: string): string {
    match a
    case Missing => default
    case Null => "None"
    case Value(s) => s
  }

  // ---------------------------------------------------------------------------
  // list_foundry_agents

  /** `t.get('type', 'unknown')` or `getattr(t, 'type', 'unknown')`. */
  function ToolTag(t: Tool): string {
    t.typ.GetOr(UnknownToolType)
  }

  /** The tags of `tools`, appended one by one in tool order. */
  function ToolTags(tools: seq<Tool>): (r: seq<string>)
    ensures |r| == |tools|
    ensures forall k :: 0 <= k < |tools| ==> r[k] == ToolTag(tools[k])
  {
    if tools == [] then [] else ToolTags(tools[..|tools| - 1]) + [ToolTag(tools[|tools| - 1])]
  }

  /** The model and tool list a definition yields, whatever its shape. */
  function DefinitionModel(d: Definition): string {
    OrElse(d.model, "")
  }

  function DefinitionTools(d: Definition): seq<Tool> {
    d.tools.GetOr([])
  }

  /** The record the source builds for one remote agent. */
  function NormalizeAgent(a: RemoteAgent): (r: FoundryAgent)
    ensures r.id == a.id && r.name != ""
    ensures r.name == OrElse(a.name, UnnamedAgent)
    ensures a.latest.Some? ==> r.description == OrElse(a.latest.value.description, "")
                               && r.createdAt == AttrString(a.latest.value.createdAt, "")
    ensures r.model == (if a.latest.Some? && a.latest.value.definition.Some?
                        then DefinitionModel(a.latest.value.definition.value) else "")
    ensures r.hasTools <==> (r.toolTypes.Some? && r.toolTypes.value != [])
    ensures r.hasTools <==> (a.latest.Some? && a.latest.value.definition.Some?
                             && DefinitionTools(a.latest.value.definition.value) != [])
    ensures !r.hasTools ==> r.toolTypes == None
    ensures a.latest.None? ==> r.model == "" && r.description == "" && r.createdAt == "" && !r.hasTools
  {
    var v := a.latest;
    var d := if v.Some? then v.value.definition else None;
    var model := if d.Some? then DefinitionModel(d.value) else "";
    var tools := if d.Some? then DefinitionTools(d.value) else [];
    var tags := ToolTags(tools);
    FoundryAgent(
      a.id,
      OrElse(a.name, UnnamedAgent),
      if v.Some? then OrElse(v.value.description, "") else "",
      model,
      if v.Some? then AttrString(v.value.createdAt, "") else "",
      tools != [],
      if tags != [] then Some(tags) else None)
  }

  /** `list_foundry_agents` over the sequence `client.agents.list()` yields. */
  method ListFoundryAgents(remote: seq<RemoteAgent>) returns (agents: seq<FoundryAgent>)
    ensures |agents| == |remote|
    ensures forall i :: 0 <= i < |remote| ==> agents[i] == NormalizeAgent(remote[i])
    ensures forall i :: 0 <= i < |agents| ==>
              (agents[i].hasTools <==> (agents[i].toolTypes.Some? && agents[i].toolTypes.value != []))
  {
    agents := [];
    var i := 0;
    while i < |remote|
      invariant 0 <= i <= |remote|
      invariant |agents| == i
      invariant forall k :: 0 <= k < i ==> agents[k] == NormalizeAgent(remote[k])
    {
      var a := remote[i];
      var model, description, createdAt := "", "", "";
      var hasTools := false;
      var toolTypes: seq<string> := [];
      if a.latest.Some? {
        var latest := a.latest.value;
        if latest.definition.Some? {
          var tools: seq<Tool>;
          match latest.definition.value {
            case DictDef(m, ts) =>
              model := OrElse(m, "");
              tools := ts.GetOr([]);
            case ObjDef(m, ts) =>
              model := OrElse(m, "");
              tools := ts.GetOr([]);
          }
          if |tools| > 0 {
            hasTools := true;
            var j := 0;
            while j < |tools|
              invariant 0 <= j <= |tools|
              invariant toolTypes == ToolTags(tools[..j])
            {
              match tools[j] {
                case DictTool(t) => toolTypes := toolTypes + [t.GetOr(UnknownToolType)];
                case ObjTool(t) => toolTypes := toolTypes + [t.GetOr(UnknownToolType)];
              }
              assert tools[..j + 1][..j] == tools[..j];
              j := j + 1;
            }
            assert tools[..j] == tools;
          }
        }
        description := OrElse(latest.description, "");
        createdAt := AttrString(latest.createdAt, "");
      }
      agents := agents + [FoundryAgent(a.id, OrElse(a.name, UnnamedAgent), description, model,
                                       createdAt, hasTools, if toolTypes != [] then Some(toolTypes) else None)];
      i := i + 1;
    }
    forall k | 0 <= k < |agents|
      ensures agents[k].hasTools <==> (agents[k].toolTypes.Some? && agents[k].toolTypes.value != [])
    {
      HasToolsAgrees(remote[k]);
    }
  }

  /** `has_tools` and `tool_types` never disagree; a definition with tools
      reports them, with one tag per tool, in tool order, "unknown" for an
      untagged tool; an agent without tools reports no tags at all. */
  lemma HasToolsAgrees(a: RemoteAgent)
    ensures var r := NormalizeAgent(a);
      r.hasTools <==> (r.toolTypes.Some? && r.toolTypes.value != [])
    ensures var r := NormalizeAgent(a);
      a.latest.Some? && a.latest.value.definition.Some? && DefinitionTools(a.latest.value.definition.value) != [] ==>
        && r.hasTools && r.toolTypes.Some?
        && var tools := DefinitionTools(a.latest.value.definition.value);
           && |r.toolTypes.value| == |tools|
           && forall k :: 0 <= k < |tools| ==>
                r.toolTypes.value[k] == (if tools[k].typ.Some? then tools[k].typ.value else UnknownToolType)
    ensures var r := NormalizeAgent(a);
      !(a.latest.Some? && a.latest.value.definition.Some? && DefinitionTools(a.latest.value.definition.value) != []) ==>
        !r.hasTools && r.toolTypes == None
  {
  }

  /** A dict-shaped and an object-shaped definition with the same model and
      tools yield the same record. */
  lemma DefinitionShapeIrrelevant(id: string, name: Option<string>, description: Option<string>,
                                  createdAt: Attr, version: Attr,
                                  model: Option<string>, tools: Option<seq<Tool>>)
    ensures NormalizeAgent(RemoteAgent(id, name, Some(Version(Some(DictDef(model, tools)), description, createdAt, version))))
         == NormalizeAgent(RemoteAgent(id, name, Some(Version(Some(ObjDef(model, tools)), description, createdAt, version))))
  {
  }

  /** A tool-bearing and a tool-free agent, as the remote-listing scenario has them. */
  lemma ListingExample(toolShape: bool, defShape: bool)
    ensures var tool := if toolShape then DictTool(Some("mcp")) else ObjTool(Some("mcp"));
      var withTools := if defShape then DictDef(Some("gpt-4o"), Some([tool])) else ObjDef(Some("gpt-4o"), Some([tool]));
      var without := if defShape then DictDef(Some("gpt-4o"), None) else ObjDef(Some("gpt-4o"), Some([]));
      var r1 := NormalizeAgent(RemoteAgent("a1", Some("faq"), Some(Version(Some(withTools), None, Missing, Missing))));
      var r2 := NormalizeAgent(RemoteAgent("a2", None, Some(Version(Some(without), None, Null, Missing))));
      && r1.hasTools && r1.toolTypes == Some(["mcp"]) && r1.model == "gpt-4o"
      && !r2.hasTools && r2.toolTypes == None && r2.name == UnnamedAgent && r2.createdAt == "None"
  {
    var tool := if toolShape then DictTool(Some("mcp")) else ObjTool(Some("mcp"));
    assert [tool][..0] == [];
    assert ToolTags([tool]) == ["mcp"];
  }

  // ---------------------------------------------------------------------------
  // list_foundry_tools

  predicate IsRemoteTool(c: Connection) {
    Contains(c.typeText, RemoteToolMarker)
  }

  function AsTool(c: Connection): FoundryTool {
    FoundryTool(c.id, c.name, OrElse(c.target, ""), McpToolType)
  }

  /** The REMOTE_TOOL connections of `conns`, in order, as tools. */
  function RemoteTools(conns: seq<Connection>): (r: seq<FoundryTool>)
    ensures |r| <= |conns|
    ensures forall k :: 0 <= k < |r| ==> r[k].toolType == McpToolType
  {
    if conns == [] then []
    else RemoteTools(conns[..|conns| - 1])
         + (if IsRemoteTool(conns[|conns| - 1]) then [AsTool(conns[|conns| - 1])] else [])
  }

  /** `list_foundry_tools` over the sequence `client.connections.list()` yields. */
  method ListFoundryTools(conns: seq<Connection>) returns (tools: seq<FoundryTool>)
    ensures tools == RemoteTools(conns)
    ensures forall k :: 0 <= k < |tools| ==> tools[k].toolType == McpToolType
  {
    tools := [];
    var i := 0;
    while i < |conns|
      invariant 0 <= i <= |conns|
      invariant tools == RemoteTools(conns[..i])
    {
      var conn := conns[i];
      if Contains(conn.typeText, RemoteToolMarker) {
        tools := tools + [FoundryTool(conn.id, conn.name, OrElse(conn.target, ""), McpToolType)];
      }
      assert conns[..i + 1][..i] == conns[..i];
      i := i + 1;
    }
    assert conns[..i] == conns;
    RemoteToolsShape(conns);
  }

  /** Every listed tool is an "mcp" tool made from a REMOTE_TOOL connection of
      the inventory, with an empty target when the connection has none, and
      every REMOTE_TOOL connection is listed. */
  lemma {:induction false} RemoteToolsShape(conns: seq<Connection>)
    ensures forall t :: t in RemoteTools(conns) ==>
              t.toolType == McpToolType && exists c :: c in conns && IsRemoteTool(c) && t == AsTool(c)
    ensures forall c :: c in conns && IsRemoteTool(c) ==> AsTool(c) in RemoteTools(conns)
    decreases |conns|
  {
    if conns != [] {
      var init := conns[..|conns| - 1];
      RemoteToolsShape(init);
      assert conns == init + [conns[|conns| - 1]];
      forall c | c in conns && IsRemoteTool(c) ensures AsTool(c) in RemoteTools(conns) {
        if c in init {
          assert AsTool(c) in RemoteTools(init);
        }
      }
    }
  }

  /** The filter keeps the inventory's order: listing a concatenation is the
      concatenation of the listings, so no entry is reordered or merged. */
  lemma {:induction false} RemoteToolsConcat(a: seq<Connection>, b: seq<Connection>)
    ensures RemoteTools(a + b) == RemoteTools(a) + RemoteTools(b)
    decreases |b|
  {
    if b == [] {
      assert a + b == a;
    } else {
      var ib := b[..|b| - 1];
      RemoteToolsConcat(a, ib);
      assert (a + b)[..|a + b| - 1] == a + ib;
    }
  }

  /** No deduplication: a REMOTE_TOOL connection listed twice gives two tools. */
  lemma RemoteToolsNoDedup(c: Connection)
    requires IsRemoteTool(c)
    ensures RemoteTools([c, c]) == [AsTool(c), AsTool(c)]
  {
    RemoteToolsConcat([c], [c]);
    assert [c] + [c] == [c, c];
    assert RemoteTools([c]) == RemoteTools([c][..0]) + [AsTool(c)];
  }

  // ---------------------------------------------------------------------------
  // create_foundry_agent

  /** What the connection map stores for a name. */
  datatype ConnInfo = ConnInfo(id: string, url: string)

  function InfoOf(c: Connection): ConnInfo {
    ConnInfo(c.id, OrElse(c.target, ""))
  }

  /** The entry of the last connection called `name`: a later duplicate
      overwrites an earlier one in the source's dict. */
  function LastInfo(conns: seq<Connection>, name: string): (r: Option<ConnInfo>)
    ensures r.Some? <==> exists c :: c in conns && c.name == name
  {
    assert conns != [] ==> conns == conns[..|conns| - 1] + [conns[|conns| - 1]];
    if conns == [] then None
    else if conns[|conns| - 1].name == name then Some(InfoOf(conns[|conns| - 1]))
    else LastInfo(conns[..|conns| - 1], name)
  }

  /** The names of the connections. */
  function Names(conns: seq<Connection>): set<string> {
    set c | c in conns :: c.name
  }

  /** The dict `connections_map` ends up as: every connection name, mapped to
      the entry of the last connection with that name. */
  function ConnectionMapOf(conns: seq<Connection>): (r: map<string, ConnInfo>)
    ensures forall name :: name in r <==> exists c :: c in conns && c.name == name
  {
    map name | name in Names(conns) && LastInfo(conns, name).Some? :: LastInfo(conns, name).value
  }

  /** `connections_map`, filled from every connection, REMOTE_TOOL or not. */
  method ConnectionsMap(conns: seq<Connection>) returns (m: map<string, ConnInfo>)
    ensures forall name :: (name in m) == LastInfo(conns, name).Some?
    ensures forall name :: name in m ==> LastInfo(conns, name) == Some(m[name])
    ensures m == ConnectionMapOf(conns)
  {
    m := map[];
    var i := 0;
    while i < |conns|
      invariant 0 <= i <= |conns|
      invariant forall name :: (name in m) == LastInfo(conns[..i], name).Some?
      invariant forall name :: name in m ==> LastInfo(conns[..i], name) == Some(m[name])
    {
      var conn := conns[i];
      m := m[conn.name := ConnInfo(conn.id, OrElse(conn.target, ""))];
      assert conns[..i + 1][..i] == conns[..i];
      i := i + 1;
    }
    assert conns[..i] == conns;
    forall name | name in m ensures name in Names(conns) {
      LastInfoIsLast(conns, name);
    }
  }

  /** `LastInfo` finds the last connection with the name, or none exists. */
  lemma {:induction false} LastInfoIsLast(conns: seq<Connection>, name: string)
    ensures LastInfo(conns, name).None? <==> forall j :: 0 <= j < |conns| ==> conns[j].name != name
    ensures LastInfo(conns, name).Some? ==>
              exists j :: 0 <= j < |conns| && conns[j].name == name && LastInfo(conns, name) == Some(InfoOf(conns[j]))
                          && forall j' :: j < j' < |conns| ==> conns[j'].name != name
    decreases |conns|
  {
    if conns != [] {
      var n := |conns| - 1;
      var init := conns[..n];
      LastInfoIsLast(init, name);
      if conns[n].name != name {
        assert forall j :: 0 <= j < n ==> conns[j] == init[j];
        if LastInfo(conns, name).Some? {
          var j :| 0 <= j < |init| && init[j].name == name && LastInfo(init, name) == Some(InfoOf(init[j]))
                   && forall j' :: j < j' < |init| ==> init[j'].name != name;
          assert conns[j] == init[j];
        }
      }
    }
  }

  /** The connection at the last index with its name is the one `LastInfo` finds. */
  lemma {:induction false} LastInfoAt(conns: seq<Connection>, j: nat)
    requires j < |conns|
    requires forall j' :: j < j' < |conns| ==> conns[j'].name != conns[j].name
    ensures LastInfo(conns, conns[j].name) == Some(InfoOf(conns[j]))
    decreases |conns|
  {
    var n := |conns| - 1;
    if j < n {
      var init := conns[..n];
      assert init[j] == conns[j];
      LastInfoAt(init, j);
    }
  }

  /** The map has one entry per connection name, and a later duplicate name
      wins: each name maps to the last connection that carries it. */
  lemma ConnectionMapLastWins(conns: seq<Connection>)
    ensures ConnectionMapOf(conns).Keys == Names(conns)
    ensures forall j :: 0 <= j < |conns| && (forall j' :: j < j' < |conns| ==> conns[j'].name != conns[j].name)
                        ==> ConnectionMapOf(conns)[conns[j].name] == InfoOf(conns[j])
  {
    forall name | name in Names(conns) ensures LastInfo(conns, name).Some? {
      var c :| c in conns && c.name == name;
      var j :| 0 <= j < |conns| && conns[j] == c;
      LastInfoIsLast(conns, name);
    }
    forall j | 0 <= j < |conns| && (forall j' :: j < j' < |conns| ==> conns[j'].name != conns[j].name)
      ensures ConnectionMapOf(conns)[conns[j].name] == InfoOf(conns[j])
    {
      LastInfoAt(conns, j);
    }
  }

  /** The MCP tool descriptor of `create_foundry_agent`. */
  datatype McpTool = McpTool(serverLabel: string, serverUrl: string, connectionId: string,
                             allowedTools: seq<string>, requireApproval: string)

  function Descriptor(name: string, info: ConnInfo): McpTool {
    McpTool(name, info.url, info.id, [], NeverApprove)
  }

  /** The requested names that the map knows, in request order. */
  function KnownNames(names: seq<string>, m: map<string, ConnInfo>): (r: seq<string>)
    ensures forall k :: 0 <= k < |r| ==> r[k] in m
    ensures forall x :: x in r <==> x in names && x in m
  {
    if names == [] then []
    else var last := names[|names| - 1];
      var init := names[..|names| - 1];
      assert names == init + [last];
      KnownNames(init, m) + (if last in m then [last] else [])
  }

  /** The descriptors for the requested names, in request order, skipping unknown names. */
  function Resolve(names: seq<string>, m: map<string, ConnInfo>): (r: seq<McpTool>)
    ensures |r| <= |names|
    ensures forall k :: 0 <= k < |r| ==>
              r[k].serverLabel in m && r[k].allowedTools == [] && r[k].requireApproval == NeverApprove
  {
    if names == [] then []
    else var last := names[|names| - 1];
      Resolve(names[..|names| - 1], m) + (if last in m then [Descriptor(last, m[last])] else [])
  }

  /** The resolved descriptors are exactly the known requested names, in order,
      each labelled with its name and carrying the url and id of its entry, no
      tool restriction and the "never" approval policy. */
  lemma {:induction false} ResolveIsKnownNames(names: seq<string>, m: map<string, ConnInfo>)
    ensures var r, known := Resolve(names, m), KnownNames(names, m);
      |r| == |known| &&
      forall k :: 0 <= k < |r| ==>
        r[k] == McpTool(known[k], m[known[k]].url, m[known[k]].id, [], NeverApprove)
    decreases |names|
  {
    if names != [] {
      ResolveIsKnownNames(names[..|names| - 1], m);
    }
  }

  /** Filtering keeps request order and repeats: the known names of a
      concatenation are the known names of its parts, one after the other. */
  lemma {:induction false} KnownNamesConcat(a: seq<string>, b: seq<string>, m: map<string, ConnInfo>)
    ensures KnownNames(a + b, m) == KnownNames(a, m) + KnownNames(b, m)
    decreases |b|
  {
    if b == [] {
      assert a + b == a;
    } else {
      var init, last := b[..|b| - 1], b[|b| - 1];
      KnownNamesConcat(a, init, m);
      assert (a + b)[..|a + b| - 1] == a + init;
      Associative(KnownNames(a, m), KnownNames(init, m), if last in m then [last] else []);
    }
  }

  /** Resolving a concatenation resolves its parts one after the other: a name
      requested twice yields two descriptors. */
  lemma {:induction false} ResolveConcat(a: seq<string>, b: seq<string>, m: map<string, ConnInfo>)
    ensures Resolve(a + b, m) == Resolve(a, m) + Resolve(b, m)
    decreases |b|
  {
    if b == [] {
      assert a + b == a;
    } else {
      var init, last := b[..|b| - 1], b[|b| - 1];
      ResolveConcat(a, init, m);
      assert (a + b)[..|a + b| - 1] == a + init;
      Associative(Resolve(a, m), Resolve(init, m), if last in m then [Descriptor(last, m[last])] else []);
    }
  }

  /** An unknown name is skipped without failure, wherever it stands in the request. */
  lemma ResolveSkipsUnknown(before: seq<string>, unknown: string, after: seq<string>, m: map<string, ConnInfo>)
    requires unknown !in m
    ensures Resolve(before + [unknown] + after, m) == Resolve(before + after, m)
  {
    ResolveConcat(before + [unknown], after, m);
    ResolveConcat(before, [unknown], m);
    ResolveConcat(before, after, m);
    assert [unknown][..0] == [];
  }

  /** The tool-loop of `create_foundry_agent` over the requested names. */
  method ResolveTools(names: seq<string>, m: map<string, ConnInfo>) returns (tools: seq<McpTool>)
    ensures tools == Resolve(names, m)
  {
    tools := [];
    var i := 0;
    while i < |names|
      invariant 0 <= i <= |names|
      invariant tools == Resolve(names[..i], m)
    {
      var toolName := names[i];
      if toolName in m {
        var info := m[toolName];
        tools := tools + [McpTool(toolName, info.url, info.id, [], NeverApprove)];
      }
      assert names[..i + 1][..i] == names[..i];
      i := i + 1;
    }
    assert names[..i] == names;
  }

  /** `tools if tools else None`: the service tells an absent list from an empty one. */
  function NoneIfEmpty(tools: seq<McpTool>): (r: Option<seq<McpTool>>)
    ensures r.Some? ==> r.value == tools && tools != []
    ensures r.None? <==> tools == []
  {
    if tools == [] then None else Some(tools)
  }

  /** `PromptAgentDefinition(model, instructions, tools)`. */
  datatype AgentDefinition = AgentDefinition(model: string, instructions: string, tools: Option<seq<McpTool>>)

  /** The call `client.agents.create(name, definition)`. */
  datatype CreateRequest = CreateRequest(name: string, definition: AgentDefinition)

  /** What the service answers to the create call. */
  datatype CreatedAgent = CreatedAgent(id: string, name: Option<string>)

  /** `create_foundry_agent`: the request it submits and the summary it returns,
      given the connection inventory and the service's answer. */
  method CreateFoundryAgent(name: string, instructions: string, model: string,
                            toolNames: Option<seq<string>>, conns: seq<Connection>,
                            created: CreatedAgent)
    returns (request: CreateRequest, summary: FoundryAgent)
    ensures request.name == NameSanitizer.Sanitize(name)
    ensures NameSanitizer.ValidAgentName(request.name)
    ensures request.definition.model == model && request.definition.instructions == instructions
    ensures !(toolNames.Some? && toolNames.value != []) ==> request.definition.tools == None
    ensures toolNames.Some? && toolNames.value != [] ==>
              request.definition.tools == NoneIfEmpty(Resolve(toolNames.value, ConnectionMapOf(conns)))
    ensures summary == FoundryAgent(created.id, OrElse(created.name, request.name), "", model, "", false, None)
  {
    var sanitized := NameSanitizer.Sanitize(name);
    var tools: seq<McpTool> := [];
    if toolNames.Some? && toolNames.value != [] {
      var m := ConnectionsMap(conns);
      tools := ResolveTools(toolNames.value, m);
    }
    var definition := AgentDefinition(model, instructions, if tools != [] then Some(tools) else None);
    request := CreateRequest(sanitized, definition);
    summary := FoundryAgent(created.id, OrElse(created.name, sanitized), "", model, "", false, None);
  }

  /** Requesting a known and an unknown tool attaches exactly the known one. */
  lemma ResolveExample(known: string, unknown: string, c: Connection)
    requires c.name == known && known != unknown
    ensures Resolve([known, unknown], ConnectionMapOf([c])) == [Descriptor(known, InfoOf(c))]
  {
    var m := ConnectionMapOf([c]);
    assert Names([c]) == {known};
    assert LastInfo([c], known) == Some(InfoOf(c));
    assert m == map[known := InfoOf(c)];
    assert unknown !in m;
    assert [known, unknown][..1] == [known];
    assert [known][..0] == [];
    assert Resolve([known], m) == [Descriptor(known, InfoOf(c))];
  }
}
