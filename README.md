# Agent factory, modelled in Dafny

`AgentFactory` (agent_factory.py) creates and manages conversational agents.
It does two things:

- **Locally**, it composes an instruction document for an agent from a
  purpose, a personality, capabilities and rules, and keeps the resulting
  configurations in an in-memory dict keyed by a short id.
- **Remotely**, for the Azure AI Foundry agent catalog, it:
  - lists agents and normalises their two possible shapes, a dict or an
    object, into one record;
  - lists the connections whose type marks them as MCP servers
    (`REMOTE_TOOL`);
  - creates an agent under a sanitised, service-legal name, attaching MCP
    tools resolved by connection name;
  - chats with an agent through the responses API, turning either the
    structured response or the failure into an ordered sequence of text
    fragments.

The model has six modules, one file each:

| file | module | models |
|---|---|---|
| text.dfy | `Text` | `Option`, Python's `sub in s`, `str(n)`, `sep.join`, and a `split` used only to state the line layout of the joined sections |
| name_sanitizer.dfy | `NameSanitizer` | `_sanitize_agent_name` |
| instructions.dfy | `Instructions` | `generate_agent_instructions` |
| catalog.dfy | `Catalog` | `list_foundry_agents`, `list_foundry_tools`, `create_foundry_agent` |
| chat_bridge.dfy | `ChatBridge` | `chat_with_foundry_agent` |
| registry.dfy | `Registry` | the `AgentFactory` dict and its methods, and `chat_with_agent` |

How the source's forms are modelled:

- The string-only parts (the sanitiser and the composer) are functions with
  lemmas.
- Each loop of the source (the nested listing loops, the connection filter,
  the connection map, tool resolution, fragment extraction and stream
  consumption) is a method with a loop. Each such method is proved equal to
  a specification function, and the source's promises are proved as lemmas
  about that function.
- The dict `self.agents` is a `map` field of the class
  `Registry.AgentFactory`. A second field, `order`, holds Python's key
  insertion order, which `list_agents` returns.

Everything that crosses the network is an input instead:

- the remote agent sequence;
- the connection inventory;
- the service's answer to the create call;
- the outcome of the responses call (a response, or the text of the
  exception it raised);
- the stream's chunks.

These are also inputs: the generated uuid, the current time and the fetched
agent.

The remote shapes keep the distinctions the code tests:

- an attribute that is missing, versus one present with the value `None`;
- a dict versus an object carrying the same fields;
- an empty list versus an absent one.

## Model

| member | source | states |
|---|---|---|
| NameSanitizer.Sanitize | agent_factory.py:220-240 | every result is a legal agent name: 1 to 63 characters, only ASCII letters, digits and hyphens, no two hyphens in a row, and it begins and ends with a letter or digit |
| NameSanitizer.ReplaceInvalid | agent_factory.py:228 | same length; each character outside `[A-Za-z0-9-]` becomes a hyphen and every other character is kept |
| NameSanitizer.CollapseHyphens | agent_factory.py:230 | no two hyphens in a row afterwards; never longer than the input; a non-empty input keeps its first character |
| NameSanitizer.CollapseRun | agent_factory.py:230 | wherever it stands, a double hyphen collapses exactly as a single hyphen does, so a run of hyphens becomes one hyphen and is never dropped |
| NameSanitizer.StripLeading | agent_factory.py:232 | the result is a suffix of the input; the removed prefix is all hyphens; the result does not start with a hyphen |
| NameSanitizer.StripTrailing | agent_factory.py:232-236 | the result is a prefix of the input; the removed suffix is all hyphens; the result does not end with a hyphen |
| NameSanitizer.Truncate | agent_factory.py:234 | the result is a prefix of the input; an input of 63 characters or fewer is unchanged, and a longer one is cut to exactly its first 63 characters |
| NameSanitizer.TrimmedEmptyIff | agent_factory.py:228-238 | the steps give the empty string exactly when the input has no ASCII letter or digit |
| NameSanitizer.SanitizeKeepsAlnums | agent_factory.py:228-240 | an input without letters or digits gives "agent". Otherwise the result's letters and digits are a non-empty prefix of the input's, and all of them when the input has at most 63 characters |
| NameSanitizer.SanitizeFixesValid | agent_factory.py:220-240 | a legal agent name is returned unchanged |
| NameSanitizer.SanitizeIdempotent | agent_factory.py:220-240 | sanitising twice gives the same result as sanitising once |
| NameSanitizer.SanitizeFaqBot | agent_factory.py:228-240 | "FAQ Bot!!" becomes "FAQ-Bot" |
| NameSanitizer.SanitizeEmpty | agent_factory.py:238-239 | the empty name becomes "agent" |
| NameSanitizer.SanitizeFallbackExamples | agent_factory.py:238-239 | "!!!" becomes "agent" |
| NameSanitizer.HasAlnumIff | agent_factory.py:228-240 | a string has an ASCII letter or digit exactly when its letter-and-digit subsequence is non-empty |
| NameSanitizer.StrippedKeepsAlnums | agent_factory.py:228-232 | replacing, collapsing and stripping keep the input's letters and digits, in order |
| NameSanitizer.TrimmedKeepsAlnumPrefix | agent_factory.py:228-236 | after truncation the letters and digits are a prefix of the input's, and all of them for an input of at most 63 characters |
| Instructions.InstructionsLayout | agent_factory.py:69-88 | the five headers appear in the order purpose, personality, capabilities, rules, response format. Purpose, personality, the capability text and the rule text each stand verbatim right after their header, and the fixed response-format section ends the document |
| Instructions.GenerateInstructions | agent_factory.py:46-88 | the document contains the purpose, the personality, the capability section and the rule section verbatim; the personality defaults to "profesional y amigable" and both lists to absent |
| Instructions.OmittedArguments | agent_factory.py:46-67 | called with the purpose alone, the document carries the default personality, the default capability section and the default rule section |
| Instructions.CapabilityLines | agent_factory.py:55-56 | given capabilities without newlines, the capability text splits into one line per capability, in input order; line i is "- " followed by capability i |
| Instructions.RuleLines | agent_factory.py:61-62 | given rules without newlines, the rule text splits into one line per rule, in input order; line i is the decimal i+1, ". " and rule i |
| Instructions.DefaultsWhenAbsent | agent_factory.py:55-67 | a missing or empty capability or rule list selects the fixed default text |
| Catalog.ToolTags | agent_factory.py:176-180 | one tag per tool, in tool order |
| Catalog.NormalizeAgent | agent_factory.py:152-193 | the record keeps the agent's id; its name is the agent's name, or "Sin nombre" when that is missing or empty; the model is the latest definition's model (empty when missing), and with a latest version the description is its description (empty when missing) and the creation time its rendered `created_at` (empty when absent, "None" when `None`); `has_tools` holds exactly when the latest definition has a non-empty tool list, and exactly when `tool_types` is present and non-empty; without tools `tool_types` is absent; an agent without a latest version has an empty model, description and creation time and no tools |
| Catalog.ListFoundryAgents | agent_factory.py:149-193 | one record per remote agent, in enumeration order; each is the normalisation of its agent; `has_tools` holds exactly when `tool_types` is present and non-empty |
| Catalog.HasToolsAgrees | agent_factory.py:158-193 | `has_tools` agrees with `tool_types`. A definition with tools reports them, with one tag per tool, in order, and "unknown" for an untagged tool; an agent without tools has `has_tools` false and no `tool_types` |
| Catalog.DefinitionShapeIrrelevant | agent_factory.py:162-171 | a dict-shaped and an object-shaped definition with the same model and tools give the same record |
| Catalog.ListingExample | agent_factory.py:149-193 | an agent with one MCP tool lists as having tools of type ["mcp"] with its model. A nameless agent without tools lists as "Sin nombre", with no tools, and a `created_at` of `None` renders as "None" |
| Catalog.RemoteTools | agent_factory.py:207-216 | no more tools than connections, and every tool has type "mcp" |
| Catalog.ListFoundryTools | agent_factory.py:207-216 | the result is the ordered filter of the connections whose type text contains "REMOTE_TOOL"; every entry has tool type "mcp" |
| Catalog.RemoteToolsShape | agent_factory.py:207-216 | every listed tool comes from a `REMOTE_TOOL` connection, with its id and name and an empty target when it has none; every `REMOTE_TOOL` connection is listed |
| Catalog.RemoteToolsConcat | agent_factory.py:207-216 | the filter keeps the inventory's order: filtering a concatenation concatenates the filtered parts |
| Catalog.RemoteToolsNoDedup | agent_factory.py:207-216 | a connection listed twice gives two tools |
| Catalog.LastInfo | agent_factory.py:277-284 | there is an entry for a name exactly when some connection carries that name |
| Catalog.ConnectionMapOf | agent_factory.py:277-284 | the map has a key exactly for each name that some connection carries |
| Catalog.ConnectionsMap | agent_factory.py:277-284 | the map built from every connection holds a name exactly when some connection has it, mapped to the entry of the last such connection |
| Catalog.LastInfoIsLast | agent_factory.py:277-284 | no entry exactly when no connection has the name; otherwise the entry is that of a connection with the name, and no later connection has it |
| Catalog.ConnectionMapLastWins | agent_factory.py:277-284 | the map's keys are exactly the connection names, and each name maps to the id and target of the last connection that carries it |
| Catalog.KnownNames | agent_factory.py:287-288 | the kept names are exactly the requested names the map knows |
| Catalog.KnownNamesConcat | agent_factory.py:287-288 | the kept names keep request order and repeats: the kept names of a concatenated request are those of its first part followed by those of its second |
| Catalog.Resolve | agent_factory.py:287-298 | no more descriptors than requested names; each is labelled with a known name and has no allowed-tool list and approval "never" |
| Catalog.ResolveConcat | agent_factory.py:287-298 | resolving a concatenated request resolves its parts one after the other, so a name requested twice yields two descriptors |
| Catalog.ResolveIsKnownNames | agent_factory.py:287-298 | the descriptors are exactly the known requested names, in request order. Each is labelled with its name, carries its entry's url and id, and has no allowed-tool list and approval "never" |
| Catalog.ResolveSkipsUnknown | agent_factory.py:287-300 | an unknown name, at any position of the request, adds nothing and does not fail |
| Catalog.ResolveTools | agent_factory.py:287-298 | the loop computes the resolution of the requested names |
| Catalog.NoneIfEmpty | agent_factory.py:304 | an empty descriptor list is passed as absent, and a non-empty one as itself |
| Catalog.CreateFoundryAgent | agent_factory.py:256-319 | the request carries the sanitised, legal name, the model and the instructions. Tools are absent unless names were requested; otherwise they are the resolution against the last-wins connection map, absent when empty. The summary has the service id, the service name or else the sanitised name, the model and an empty description and creation time |
| Catalog.ResolveExample | agent_factory.py:287-300 | requesting a known and an unknown name attaches exactly the known tool |
| ChatBridge.AgentVersion | agent_factory.py:340-345 | the version is "1" without a latest version, or when the latest version has no `version` attribute; it is "None" for an attribute set to `None`, and otherwise the attribute's text |
| ChatBridge.HasMcpTools | agent_factory.py:346-351 | true exactly when the latest definition is dict-shaped and one of its dict-shaped tools has type "mcp" |
| ChatBridge.AnyMcpDictTool | agent_factory.py:351 | true exactly when some dict-shaped tool has type "mcp" |
| ChatBridge.ErrorFragment | agent_factory.py:382-387 | the fragment is the MCP notice exactly when the error text contains "500" and the agent has MCP tools; otherwise it is "Error al chatear con el agente: " followed by the error text |
| ChatBridge.ClassificationExample | agent_factory.py:382-387 | a "500" failure gives the notice for an agent with a dict MCP tool and the raw error for a tool-free agent |
| ChatBridge.ChatFragments | agent_factory.py:356-387 | a response without output yields no fragment |
| ChatBridge.FailureYieldsOneFragment | agent_factory.py:382-387 | a failing call yields exactly one fragment: the notice exactly when the text contains "500" and the agent has MCP tools, the raw error otherwise |
| ChatBridge.ReplyFragments | agent_factory.py:370-387 | a response without a raising item yields all its texts, item by item and part by part; a response with one ends with the classified error of iterating over `None` |
| ChatBridge.ChatWithFoundryAgent | agent_factory.py:336-387 | the request is one user message addressed to the agent by name and version. The fragments are those `ChatFragments` specifies: a raised call yields exactly its classified error fragment, an empty output yields nothing, and a response yields its extracted fragments |
| ChatBridge.ExtractTexts | agent_factory.py:370-381 | the nested loops yield the fragments of the response: texts up to the first item that raises, then that error's fragment |
| ChatBridge.FragmentsWithoutCrash | agent_factory.py:370-381 | when no item raises, the fragments are the part texts in item order, then part order |
| ChatBridge.FragmentsUpToCrash | agent_factory.py:370-387 | when an item raises, the fragments are the texts of the items before it, followed by one classified error fragment |
| ChatBridge.AllTextsConcat | agent_factory.py:372-376 | texts keep the output order across items |
| ChatBridge.PartTextsConcat | agent_factory.py:374-376 | texts keep the part order within an item |
| ChatBridge.PartTexts | agent_factory.py:374-376 | no more texts than parts, and a text is yielded exactly when some part carries it |
| ChatBridge.ItemTexts | agent_factory.py:373-381 | an item with a non-empty part list yields exactly the texts of its parts, in part order; any other item yields none |
| ChatBridge.AllTexts | agent_factory.py:372-381 | a text is among the response's texts exactly when some output item yields it |
| ChatBridge.ExtractPartTexts | agent_factory.py:374-376 | the inner loop yields exactly the texts of the parts that carry one, in part order |
| ChatBridge.ResponseFragments | agent_factory.py:370-387 | when some item raises, the last fragment is the error fragment |
| ChatBridge.OnlyNullMessageCrashes | agent_factory.py:377-381 | only an item typed "message" whose content is `None` raises, and it yields no text; an item with a part list or without content never raises |
| ChatBridge.MessageBranchAddsNothing | agent_factory.py:373-381 | a "message" item with empty or missing content yields no text and does not raise; a non-empty part list yields the same texts whatever the item's type |
| Registry.ShortId | agent_factory.py:111 | the id is the first 8 characters of the uuid text |
| Registry.NotFoundMessage | agent_factory.py:399 | the message is 31 characters longer than the id |
| Registry.NotFoundMessageInjective | agent_factory.py:399 | different ids give different not-found messages |
| Registry.ValuesInOrder | agent_factory.py:134-136 | one configuration per key, in key order |
| Registry.StreamTexts | agent_factory.py:416-418 | no more texts than chunks, and none of them empty |
| Registry.StreamTextsConcat | agent_factory.py:416-418 | the texts follow the chunks' arrival order and keep repeats: the texts of two runs of chunks are those of the first run followed by those of the second |
| Registry.StreamTextsMembers | agent_factory.py:416-418 | the local chat yields exactly the non-empty chunk texts |
| Registry.ValuesInOrderCovers | agent_factory.py:134-136 | listing every key gives exactly the stored configurations |
| Registry.ValuesInOrderAppend | agent_factory.py:127-136 | adding a fresh key appends its configuration to the listing |
| Registry.AgentFactory.constructor | agent_factory.py:94-97 | the endpoint and deployment are stored, and the registry starts empty |
| Registry.AgentFactory.CreateAgentConfig | agent_factory.py:99-128 | the personality defaults to "profesional y amigable" and both lists to absent. The config gets the short id, the given name and description, the composed instructions and the time. It is stored under its id, overwriting any config with that id, and every other entry is unchanged. Afterwards `get_agent_config` returns it, and a fresh id is appended to the listing |
| Registry.AgentFactory.GetAgentConfig | agent_factory.py:130-132 | absent exactly when the id is not registered; otherwise the stored config |
| Registry.AgentFactory.ListAgents | agent_factory.py:134-136 | one entry per registered id, and exactly the stored configurations |
| Registry.AgentFactory.ChatWithAgent | agent_factory.py:389-418 | an unknown id yields exactly "Error: Agente '<id>' no encontrado." and opens no session. A known id opens a session with the stored name and instructions and yields the non-empty chunk texts in order |
| Registry.DistinctKeysCount | agent_factory.py:134-136 | a duplicate-free key order has as many entries as the dict |
| Text.Contains | agent_factory.py:210 | only a string no longer than `s` can be contained in it; the empty string and `s` itself always are |
| Text.ContainsIff | agent_factory.py:210 | Python's `sub in s` holds exactly when `sub` occurs at some index of `s` |
| Text.NatToString | agent_factory.py:62 | the rendering is a non-empty string of decimal digits, with a leading zero only for zero |
| Text.NatToStringRoundTrip | agent_factory.py:62 | the decimal rendering of a rule number reads back as that number |
| Text.NatToStringInjective | agent_factory.py:62 | distinct rule numbers render differently |
| Text.Join | agent_factory.py:56-62 | a non-empty join starts with the first item and ends with the last |
| Text.SplitJoinLines | agent_factory.py:56-62 | joining newline-free lines with "\n" and splitting the result gives the lines back |

## Left out

- The Azure SDK and agent-framework calls are not modelled. Their results are inputs: agents listed or fetched, connections, the created agent, the responses outcome, stream chunks.
- Exceptions from `agents.list`, `connections.list`, `agents.create` and `agents.get` propagate to the caller and are not modelled. Only the responses call and the extraction sit inside the `try`, so only they turn into a fragment.
- async/await and async generators are not modelled: each fragment producer returns the whole sequence it yields.
- `uuid.uuid4()` and `datetime.now()` are not modelled: the uuid text and the timestamp are parameters.
- The `print` logging in `create_foundry_agent` is I/O and is left out.
- Registry.AgentFactory.ChatWithAgent: the message and `thread_id` are not modelled. The framework consumes the message, and the source never uses `thread_id`.
- The agent-framework session is reduced to the values passed to it (endpoint, deployment, name, instructions).
- A tool tag that is present but `None` would be appended as `None` to `tool_types`. The model's tag is absent or a string.
- A part `text` that is present but `None` would be yielded as `None`. The model's text is absent or a string.
- A `content` of a type other than missing, `None` or a list is not modelled.
- Python truthiness of arbitrary objects is not modelled. The model distinguishes only absent, `None`, empty and non-empty.
- Instructions.DefaultsWhenAbsent: states only that the default texts are selected. It does not state that those texts have the same bullet and numbered layout as given lists; the texts are fixed constants in the source.
- Catalog.CreateFoundryAgent: the summary reports `has_tools == false` and no `tool_types` even when tools were attached, because the source relies on the record's defaults. The model keeps this.
- app.py, favpayments_agent.py, joke_agent.py and the diagnostic scripts are not part of this model. They are HTTP/UI plumbing, console loops and scripts against a live endpoint.
