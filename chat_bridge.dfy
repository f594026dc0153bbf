/** `AgentFactory.chat_with_foundry_agent`: chats with a remote catalog agent
    through the responses API, addressing it by an agent reference, and turns
    the structured response (or the failure) into an ordered sequence of text
    fragments. The fetched agent and the outcome of the remote call are inputs. */
module ChatBridge {
  import opened Text
  import opened Catalog

  // ---------------------------------------------------------------------------
  // The response as the service delivers it

  /** A content part; `text` is `None` when the part has no `text` attribute. */
  datatype Part = Part(text: Option<string>)

  /** The `content` of an output item: no attribute, an attribute set to
      `None`, or a list of parts. */
  datatype Content = NoContent | NullContent | Parts(parts: seq<Part>)

  /** An output item; `typ` is `None` when it has no `type` attribute. */
  datatype OutputItem = OutputItem(content: Content, typ: Option<string>)

  /** The response; `output` is `None` when it is missing or `None`. */
  datatype Response = Response(output: Option<seq<OutputItem>>)

  /** The outcome of `openai_client.responses.create`: a response, or the
      text of the exception it raised. */
  datatype Reply = Replied(response: Response) | Raised(message: string)

  /** `{"type": "agent_reference", "name": ..., "version": ...}`. */
  datatype AgentReference = AgentReference(name: Option<string>, version: string)

  /** The call made to the responses API: one user message, addressed to an
      agent reference and never to a model. */
  datatype ResponseRequest = ResponseRequest(role: string, content: string, agent: AgentReference)

  const DefaultVersion: string := "1"
  const MessageType: string := "message"
  const ServerErrorMarker: string := "500"
  const ChatErrorPrefix: string := "Error al chatear con el agente: "
  /** The notice shown for a server error of an agent with MCP tools. */
  const McpNotice: string := McpNoticeHead + McpNoticeBody
  const McpNoticeHead: string := "⚠️ Error del servidor (500): "
  const McpNoticeBody: string :=
    "Este agente tiene MCP tools configuradas. Actualmente hay un problema conocido con la API de Azure AI Foundry al chatear con agentes que tienen MCP tools a través del SDK. Por favor, prueba con este agente directamente en el portal de Azure AI Foundry."
  /** `str(e)` of the `TypeError` raised by iterating over `None`. */
  const NoneNotIterable: string := "'NoneType' object is not iterable"

  // ---------------------------------------------------------------------------
  // Agent version and MCP detection

  /** `str(agent.versions.latest.version)` when there is one, "1" otherwise. */
  function AgentVersion(a: RemoteAgent): (r: string)
    ensures a.latest.None? ==> r == DefaultVersion
    ensures a.latest.Some? && a.latest.value.version.Missing? ==> r == DefaultVersion
    ensures a.latest.Some? && a.latest.value.version.Null? ==> r == "None"
    ensures a.latest.Some? && a.latest.value.version.Value? ==> r == a.latest.value.version.text
  {
    if a.latest.Some? then AttrString(a.latest.value.version, DefaultVersion) else DefaultVersion
  }

  /** `has_mcp_tools`: only a dict-shaped definition is inspected, and in it
      only dict-shaped tools. */
  function HasMcpTools(a: RemoteAgent): (r: bool)
    ensures r <==> (a.latest.Some? && a.latest.value.definition.Some?
                    && a.latest.value.definition.value.DictDef?
                    && exists t :: t in DefinitionTools(a.latest.value.definition.value)
                                   && t.DictTool? && t.typ == Some(McpToolType))
  {
    if a.latest.Some? && a.latest.value.definition.Some? then
      match a.latest.value.definition.value
      case DictDef(_, tools) => tools.Some? && AnyMcpDictTool(tools.value)
      case ObjDef(_, _) => false
    else false
  }

  /** `any(t.get('type') == 'mcp' for t in tools if isinstance(t, dict))`. */
  function AnyMcpDictTool(tools: seq<Tool>): (r: bool)
    ensures r <==> exists t :: t in tools && t.DictTool? && t.typ == Some(McpToolType)
  {
    if tools == [] then false
    else (tools[0].DictTool? && tools[0].typ == Some(McpToolType)) || AnyMcpDictTool(tools[1..])
  }

  // ---------------------------------------------------------------------------
  // Failure classification

  /** The single fragment emitted for a failure with text `msg`. */
  function ErrorFragment(msg: string, hasMcp: bool): (r: string)
    ensures r == McpNotice <==> Contains(msg, ServerErrorMarker) && hasMcp
    ensures r != McpNotice ==> r == ChatErrorPrefix + msg
  {
    if Contains(msg, ServerErrorMarker) && hasMcp then McpNotice
    else
      assert McpNotice[0] == McpNoticeHead[0] == '⚠' && (ChatErrorPrefix + msg)[0] == 'E';
      ChatErrorPrefix + msg
  }

  /** The known-defect notice is only chosen for a "500" failure of an agent
      with a dict-shaped MCP tool; the same failure of a tool-free agent shows
      the raw error. */
  lemma ClassificationExample(id: string, name: Option<string>, msg: string)
    requires Contains(msg, ServerErrorMarker)
    ensures var withMcp := RemoteAgent(id, name, Some(Version(Some(DictDef(Some("gpt-4o"), Some([DictTool(Some("mcp"))]))), None, Missing, Missing)));
      var without := RemoteAgent(id, name, Some(Version(Some(DictDef(Some("gpt-4o"), None)), None, Missing, Missing)));
      && ErrorFragment(msg, HasMcpTools(withMcp)) == McpNotice
      && ErrorFragment(msg, HasMcpTools(without)) == ChatErrorPrefix + msg
  {
    assert DictTool(Some("mcp")) in [DictTool(Some("mcp"))];
  }

  // ---------------------------------------------------------------------------
  // Text extraction

  /** The texts of the parts that have a `text` attribute, in part order. */
  function PartTexts(parts: seq<Part>): (r: seq<string>)
    ensures |r| <= |parts|
    ensures forall t :: t in r <==> Part(Some(t)) in parts
  {
    assert parts != [] ==> parts == parts[..|parts| - 1] + [parts[|parts| - 1]];
    if parts == [] then []
    else PartTexts(parts[..|parts| - 1])
         + (if parts[|parts| - 1].text.Some? then [parts[|parts| - 1].text.value] else [])
  }

  /** The `elif output_item.type == 'message'` branch iterates over a content
      that is `None`, which raises. */
  predicate Crashes(item: OutputItem) {
    item.content.NullContent? && item.typ == Some(MessageType)
  }

  /** The texts one output item yields: only a non-empty part list yields any. */
  function ItemTexts(item: OutputItem): (r: seq<string>)
    ensures r != [] ==> item.content.Parts? && |r| <= |item.content.parts|
    ensures item.content.Parts? && item.content.parts != [] ==> r == PartTexts(item.content.parts)
  {
    if item.content.Parts? && item.content.parts != [] then PartTexts(item.content.parts) else []
  }

  /** The texts of `items`, in item order and within an item in part order. */
  function AllTexts(items: seq<OutputItem>): (r: seq<string>)
    ensures forall t :: t in r <==> exists k :: 0 <= k < |items| && t in ItemTexts(items[k])
  {
    assert items != [] ==> forall k :: 0 <= k < |items| - 1 ==> items[..|items| - 1][k] == items[k];
    if items == [] then [] else AllTexts(items[..|items| - 1]) + ItemTexts(items[|items| - 1])
  }

  /** The fragments of a response whose items are processed until the first
      item that raises; `onRaise`, the fragment for the raised error, is then
      the last one. */
  function ResponseFragments(items: seq<OutputItem>, onRaise: string): (r: seq<string>)
    ensures (exists k :: 0 <= k < |items| && Crashes(items[k])) ==> r != [] && r[|r| - 1] == onRaise
  {
    if items == [] then []
    else if Crashes(items[0]) then [onRaise]
    else
      assert forall k :: 1 <= k < |items| ==> items[k] == items[1..][k - 1];
      ItemTexts(items[0]) + ResponseFragments(items[1..], onRaise)
  }

  /** The fragments `chat_with_foundry_agent` yields for the outcome `reply`
      of the remote call. */
  function ChatFragments(agent: RemoteAgent, reply: Reply): (r: seq<string>)
    ensures reply.Replied? && reply.response.output.None? ==> r == []
  {
    match reply
    case Raised(msg) => [ErrorFragment(msg, HasMcpTools(agent))]
    case Replied(response) =>
      if response.output.Some? then
        ResponseFragments(response.output.value, ErrorFragment(NoneNotIterable, HasMcpTools(agent)))
      else []
  }

  /** `chat_with_foundry_agent` given the fetched agent and the outcome of the
      remote call: the request sent and the fragments yielded, in order. */
  method ChatWithFoundryAgent(agent: RemoteAgent, message: string, reply: Reply)
    returns (request: ResponseRequest, fragments: seq<string>)
    ensures request == ResponseRequest("user", message, AgentReference(agent.name, AgentVersion(agent)))
    ensures fragments == ChatFragments(agent, reply)
    ensures reply.Raised? ==> fragments == [ErrorFragment(reply.message, HasMcpTools(agent))]
    ensures reply.Replied? && reply.response.output.None? ==> fragments == []
    ensures reply.Replied? && reply.response.output.Some? ==>
              fragments == ResponseFragments(reply.response.output.value,
                                             ErrorFragment(NoneNotIterable, HasMcpTools(agent)))
  {
    var version := DefaultVersion;
    var hasMcp := false;
    if agent.latest.Some? {
      var latest := agent.latest.value;
      if !latest.version.Missing? {
        version := AttrString(latest.version, DefaultVersion);
      }
      if latest.definition.Some? && latest.definition.value.DictDef? {
        var tools := latest.definition.value.tools;
        if tools.Some? && tools.value != [] {
          hasMcp := AnyMcpDictTool(tools.value);
        }
      }
    }
    request := ResponseRequest("user", message, AgentReference(agent.name, version));
    match reply {
      case Raised(msg) =>
        fragments := [ErrorFragment(msg, hasMcp)];
      case Replied(response) =>
        fragments := [];
        if response.output.Some? {
          fragments := ExtractTexts(response.output.value, ErrorFragment(NoneNotIterable, hasMcp));
        }
    }
  }

  /** The nested loops over output items and content parts. */
  method ExtractTexts(items: seq<OutputItem>, onRaise: string) returns (fragments: seq<string>)
    ensures fragments == ResponseFragments(items, onRaise)
  {
    fragments := [];
    var i := 0;
    while i < |items|
      invariant 0 <= i <= |items|
      invariant forall k :: 0 <= k < i ==> !Crashes(items[k])
      invariant fragments == AllTexts(items[..i])
    {
      var item := items[i];
      if item.content.Parts? && item.content.parts != [] {
        var texts := ExtractPartTexts(item.content.parts);
        fragments := fragments + texts;
      } else if item.typ == Some(MessageType) {
        if item.content.NullContent? {
          // iterating over None raises inside the try block
          FragmentsUpToCrash(items, i, onRaise);
          fragments := fragments + [onRaise];
          return;
        }
      }
      assert items[..i + 1][..i] == items[..i];
      i := i + 1;
    }
    assert items[..i] == items;
    FragmentsWithoutCrash(items, onRaise);
  }

  /** The inner loop over the content parts of one output item. */
  method ExtractPartTexts(parts: seq<Part>) returns (texts: seq<string>)
    ensures texts == PartTexts(parts)
  {
    texts := [];
    var j := 0;
    while j < |parts|
      invariant 0 <= j <= |parts|
      invariant texts == PartTexts(parts[..j])
    {
      if parts[j].text.Some? {
        texts := texts + [parts[j].text.value];
      }
      assert parts[..j + 1][..j] == parts[..j];
      j := j + 1;
    }
    assert parts[..j] == parts;
  }

  /** Without a raising item, the fragments are all the texts in order. */
  lemma {:induction false} FragmentsWithoutCrash(items: seq<OutputItem>, onRaise: string)
    requires forall k :: 0 <= k < |items| ==> !Crashes(items[k])
    ensures ResponseFragments(items, onRaise) == AllTexts(items)
    decreases |items|
  {
    if items != [] {
      FragmentsWithoutCrash(items[1..], onRaise);
      AllTextsCons(items);
    }
  }

  /** The fragments up to the first raising item, then its error. */
  lemma {:induction false} FragmentsUpToCrash(items: seq<OutputItem>, i: nat, onRaise: string)
    requires i < |items| && Crashes(items[i])
    requires forall k :: 0 <= k < i ==> !Crashes(items[k])
    ensures ResponseFragments(items, onRaise) == AllTexts(items[..i]) + [onRaise]
    decreases i
  {
    if i == 0 {
      assert items[..0] == [];
    } else {
      var rest := items[1..];
      assert ResponseFragments(items, onRaise) == ItemTexts(items[0]) + ResponseFragments(rest, onRaise);
      assert forall k :: 0 <= k < i - 1 ==> rest[k] == items[k + 1];
      FragmentsUpToCrash(rest, i - 1, onRaise);
      assert rest[..i - 1] == items[..i][1..];
      AllTextsCons(items[..i]);
      Associative(ItemTexts(items[0]), AllTexts(rest[..i - 1]), [onRaise]);
    }
  }

  lemma AllTextsCons(items: seq<OutputItem>)
    requires items != []
    ensures AllTexts(items) == ItemTexts(items[0]) + AllTexts(items[1..])
  {
    var x, rest := items[0], items[1..];
    AllTextsConcat([x], rest);
    assert [x] + rest == items;
    assert AllTexts([x]) == ItemTexts(x) by {
      assert [x][..0] == [];
    }
  }

  lemma AllTextsSnoc(items: seq<OutputItem>, item: OutputItem)
    ensures AllTexts(items + [item]) == AllTexts(items) + ItemTexts(item)
  {
    assert (items + [item])[..|items|] == items;
  }

  /** The texts keep the response's order: the texts of two runs of items are
      the texts of the first run followed by those of the second. */
  lemma {:induction false} AllTextsConcat(a: seq<OutputItem>, b: seq<OutputItem>)
    ensures AllTexts(a + b) == AllTexts(a) + AllTexts(b)
    decreases |b|
  {
    if b == [] {
      assert a + b == a;
    } else {
      var init, last := b[..|b| - 1], b[|b| - 1];
      var x, y, z := AllTexts(a), AllTexts(init), ItemTexts(last);
      assert AllTexts(a + b) == AllTexts(a + init) + z by {
        assert a + b == (a + init) + [last];
        AllTextsSnoc(a + init, last);
      }
      AllTextsConcat(a, init);
      Associative(x, y, z);
    }
  }

  /** Within an item the texts keep the order of its parts. */
  lemma {:induction false} PartTextsConcat(a: seq<Part>, b: seq<Part>)
    ensures PartTexts(a + b) == PartTexts(a) + PartTexts(b)
    decreases |b|
  {
    if b == [] {
      assert a + b == a;
    } else {
      PartTextsConcat(a, b[..|b| - 1]);
      assert (a + b)[..|a + b| - 1] == a + b[..|b| - 1];
    }
  }

  /** A typed message with an empty or missing content yields no text and
      does not raise; a non-empty part list yields the same texts whether or
      not the item is typed "message". */
  lemma MessageBranchAddsNothing(parts: seq<Part>, typ: Option<string>)
    ensures ItemTexts(OutputItem(Parts([]), Some(MessageType))) == []
    ensures ItemTexts(OutputItem(NoContent, Some(MessageType))) == []
    ensures !Crashes(OutputItem(Parts([]), Some(MessageType)))
    ensures ItemTexts(OutputItem(Parts(parts), typ)) == ItemTexts(OutputItem(Parts(parts), Some(MessageType)))
  {
  }

  /** Only a typed message whose content is `None` raises; it yields no text,
      and every other item neither raises nor is skipped for its type. */
  lemma OnlyNullMessageCrashes(item: OutputItem)
    ensures Crashes(item) ==> ItemTexts(item) == []
    ensures item.content.Parts? || item.content.NoContent? ==> !Crashes(item)
    ensures item.typ != Some(MessageType) ==> !Crashes(item)
  {
  }

  /** A failing call yields exactly one fragment: the notice when the failure
      text holds "500" and the agent carries an MCP tool, the raw error otherwise. */
  lemma FailureYieldsOneFragment(agent: RemoteAgent, msg: string)
    ensures var f := ChatFragments(agent, Raised(msg));
      && |f| == 1
      && (f[0] == McpNotice <==> Contains(msg, ServerErrorMarker) && HasMcpTools(agent))
      && (f[0] != McpNotice ==> f[0] == ChatErrorPrefix + msg)
  {
  }

  /** A response without a raising item yields all its texts, item by item
      and part by part; one with a raising item ends with that error. */
  lemma ReplyFragments(agent: RemoteAgent, items: seq<OutputItem>)
    ensures (forall k :: 0 <= k < |items| ==> !Crashes(items[k])) ==>
              ChatFragments(agent, Replied(Response(Some(items)))) == AllTexts(items)
    ensures (exists k :: 0 <= k < |items| && Crashes(items[k])) ==>
              var f := ChatFragments(agent, Replied(Response(Some(items))));
              f != [] && f[|f| - 1] == ErrorFragment(NoneNotIterable, HasMcpTools(agent))
  {
    if forall k :: 0 <= k < |items| ==> !Crashes(items[k]) {
      FragmentsWithoutCrash(items, ErrorFragment(NoneNotIterable, HasMcpTools(agent)));
    }
  }
}
