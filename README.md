# Supply-chain agent coordination, in Dafny

This project models the agent-coordination core of a three-service
supply-chain system: the orchestrator, the tool service and the knowledge
(retrieval) agent. The services talk to each other with JSON-RPC task
envelopes. The model covers:

- the envelope types;
- the orchestrator's discovery registry and session store;
- the dashboard broadcast channel;
- the shipment orchestration routine, and the logistics and compliance agents it calls;
- the tool registry and its deterministic tools;
- the task endpoints of all three services.

It proves what each of these promises. Python's dicts become `Json.Value`
objects, or `PyDict.Dict`, a dict that keeps insertion order where order is
observable. Truthiness and `and` are modelled exactly. Every remote call goes
through a `TaskTransport` parameter. Fresh ids and timestamps are parameters
too.

Modules, one per source file:

- `Protocol`: the envelope types.
- `Discovery`: the `A2ADiscoveryService` class.
- `WebSocket`: the `ConnectionManager` class.
- `Orchestration`: the routine.
- `AgentClient`, `Logistics` and `Compliance`: the agents.
- `ToolRegistry`: the `Registry` class.
- `SupplyChainTools`: the deterministic tools.
- `McpService`, `RagService` and `OrchestratorService`: the three `main.py` files.

Three further modules: `Pipeline` connects three services to state the
finding below. `Json`, `PyDict`, `Seqs` and `Wrappers` are shared helpers.
`Http` is the HTTP reply shape.

Two points where the code does less than its own descriptions suggest; the
model follows the code.

- The discovery module calls itself "Agent Discovery and Registration"
  (services/orchestrator/src/infrastructure/a2a/discovery.py:1), but
  `accept_handshake` only stores a session, and the orchestrator's handshake
  endpoint registers nobody. So `OrchestratorService.Orchestrator.Handshake`
  states that the registry is unchanged.
- The routine's `approved` field is meant to combine the documents' `valid`
  flag and the compliance check's `compliant` flag
  (services/orchestrator/src/application/use_cases/supply_chain_orchestration.py:97-100),
  but it reads both one level above where the tool service puts them (see
  "## Findings").

## Model

| member | source | states |
|---|---|---|
| Protocol.ParseAgentType | services/rag-agent/src/infrastructure/a2a/protocol.py:12-19 | the agent type is the closed set of five, each with its own wire name; parsing a wire name gives back exactly that type |
| Protocol.ResponseAdmitsMalformed | services/rag-agent/src/infrastructure/a2a/protocol.py:74-80 | a response with neither result nor error, and one with both, are values of the type: well-formedness is a handler convention |
| Protocol.Defaults | services/rag-agent/src/infrastructure/a2a/protocol.py:41-47 | capability parameters default to `{}` and `requires_auth` to false; protocol version defaults to "1.0"; correlation id is absent by default in task request and response; both discover filters are absent by default |
| Protocol.NewRequest | services/rag-agent/src/infrastructure/a2a/protocol.py:65-71 | a request carries `jsonrpc` "2.0", its method and params, and the fresh id it was given |
| Protocol.Reply | services/rag-agent/src/infrastructure/a2a/protocol.py:74-80 | a success reply is well formed and carries the result under the request's id |
| Protocol.ErrorReply | services/orchestrator/src/main.py:139-145 | an error reply is well formed, has no result, and carries code -32000 with the exception text under the request's id |
| Protocol.TaskReply | services/mcp-tool-service/src/main.py:226-231 | a task reply echoes the request id, the task type and the correlation id, with the given result and status |
| Protocol.TaskEnvelope | services/orchestrator/src/domain/services/logistics_agent.py:63-72 | an agent's task request uses method "task", the given task and fresh id, and `jsonrpc` "2.0" |
| Protocol.InnerResult | services/orchestrator/src/domain/services/compliance_agent.py:81 | a client keeps the inner task result, or `{}` when the reply has no result |
| Discovery.Discover | services/orchestrator/src/infrastructure/a2a/discovery.py:42-58 | the result is the one-pass filter of the agents by both filters together: every matching agent, duplicates included, in list order; with no type filter and no (or an empty) capability filter it is every agent |
| Discovery.DiscoveryService.constructor | services/orchestrator/src/infrastructure/a2a/discovery.py:27-30 | both the registry and the session map start empty |
| Discovery.DiscoveryService.RegisterAgent | services/orchestrator/src/infrastructure/a2a/discovery.py:32-35 | upsert: the id now maps to the descriptor, every other id is unchanged, sessions are unchanged |
| Discovery.DiscoveryService.UnregisterAgent | services/orchestrator/src/infrastructure/a2a/discovery.py:37-40 | the id is gone; nothing else changes; an absent id leaves the registry as it was; no agent listed afterwards has that id |
| Discovery.DiscoveryService.AllAgents | services/orchestrator/src/infrastructure/a2a/discovery.py:141-143 | the registry's values in registration order |
| Discovery.DiscoveryService.DiscoverAgents | services/orchestrator/src/infrastructure/a2a/discovery.py:42-58 | exactly the registered agents that match, in registry order (the one-pass filter of `get_all_agents`); with no filters it is `get_all_agents` |
| Discovery.HandshakeOutcome | services/orchestrator/src/infrastructure/a2a/discovery.py:77-97 | a session comes out exactly when the reply arrived without error, with a result and with `accepted`; the session has the target's session id and descriptor and equal timestamps; each failure gives its own error text |
| Discovery.DiscoveryService.InitiateHandshake | services/orchestrator/src/infrastructure/a2a/discovery.py:60-102 | posts a "handshake" request for the initiator to the target's handshake URL; stores the session under its id on success, and nothing on failure; the registry is unchanged |
| Discovery.DiscoveryService.AcceptHandshake | services/orchestrator/src/infrastructure/a2a/discovery.py:104-129 | stores the initiator/responder session under the fresh id with equal timestamps; returns an acceptance with that id and the responder; `get_session` then finds it; the registry is unchanged |
| Discovery.HandshakeAgreement | services/orchestrator/src/infrastructure/a2a/discovery.py:81-102 | the initiator, given the acceptance a responder returns, records the same session the responder stored |
| Discovery.DiscoveryService.GetSession | services/orchestrator/src/infrastructure/a2a/discovery.py:131-133 | the session stored under the id, or none |
| Discovery.DiscoveryService.UpdateSessionActivity | services/orchestrator/src/infrastructure/a2a/discovery.py:135-139 | for a known id only that session's last activity changes; an unknown id changes nothing; the registry is unchanged |
| Json.Contains | services/mcp-tool-service/src/application/tools/supply_chain_tools.py:60 | Python's `in`: list membership, dict key membership, and for a string an occurrence of the needle at some index; `None`, booleans and integers raise TypeError `argument of type '<type>' is not iterable` |
| Seqs.IsSubstringIff | services/mcp-tool-service/src/application/tools/supply_chain_tools.py:60 | the substring test holds exactly when the needle is the slice of the text at some index |
| WebSocket.ConnectionManager.constructor | services/orchestrator/src/infrastructure/websocket/manager.py:13-14 | no connections, nothing sent |
| WebSocket.ConnectionManager.Connect | services/orchestrator/src/infrastructure/websocket/manager.py:16-19 | the socket is appended at the end; nothing is sent |
| WebSocket.ConnectionManager.Disconnect | services/orchestrator/src/infrastructure/websocket/manager.py:21-24 | removes the first occurrence; a socket not connected leaves the list as it was |
| Seqs.RemoveFirstCounts | services/orchestrator/src/infrastructure/websocket/manager.py:21-24 | removing a socket that is connected takes away exactly one occurrence of it; every other socket keeps its count |
| WebSocket.ConnectionManager.SendPersonalMessage | services/orchestrator/src/infrastructure/websocket/manager.py:26-28 | delivers to that one socket exactly when its send does not fail, and raises otherwise; the connection list is unchanged |
| WebSocket.ConnectionManager.Broadcast | services/orchestrator/src/infrastructure/websocket/manager.py:30-41 | every socket whose send did not fail got the message, in list order; afterwards exactly the failing sockets are gone and the rest keep their order; nothing is raised |
| WebSocket.ConnectionManager.DisconnectAll | services/orchestrator/src/infrastructure/websocket/manager.py:39-41 | removing the collected failures one by one leaves exactly the sockets that did not fail, in order |
| WebSocket.EventMessage | services/orchestrator/src/infrastructure/websocket/manager.py:45-47 | an event message has exactly the keys `type`, `data` and `timestamp`, holding the arguments |
| WebSocket.ConnectionManager.BroadcastEvent | services/orchestrator/src/infrastructure/websocket/manager.py:43-48 | broadcasts that event message |
| WebSocket.BroadcastNoFailure | services/orchestrator/src/infrastructure/websocket/manager.py:30-41 | when no send fails, the broadcast keeps every connection and collects nothing |
| WebSocket.ConnectThenDisconnect | services/orchestrator/src/infrastructure/websocket/manager.py:16-24 | connecting a new socket and then disconnecting it restores the list |
| Orchestration.ShipmentId | services/orchestrator/src/application/use_cases/supply_chain_orchestration.py:28 | the record's `id`, or "unknown" |
| Orchestration.Approval | services/orchestrator/src/application/use_cases/supply_chain_orchestration.py:97-100 | truthy exactly when `valid` is truthy and `compliance_check` is a dict whose `compliant` is truthy; the right side is not evaluated when `valid` is falsy; raises exactly when `valid` is truthy and `compliance_check` is not a dict, with Python's text `'<type>' object has no attribute 'get'` |
| Orchestration.MissingKeysNotApproved | services/orchestrator/src/application/use_cases/supply_chain_orchestration.py:97-100 | a missing `valid`, `compliance_check` or `compliant` key gives a falsy approval and no error |
| Orchestration.BothTrueApproved | services/orchestrator/src/application/use_cases/supply_chain_orchestration.py:97-100 | `valid` true and `compliant` true approve |
| Orchestration.ProcessNewShipment | services/orchestrator/src/application/use_cases/supply_chain_orchestration.py:26-118 | the first event is "processing started"; calls are made in the fixed order, each with the same record, and none after a failure; on success: eight events of the fixed types, and a result with the id, "processed", the three step results unchanged and the approval also carried by the completed event; on failure, one final failed event with the error re-raised: the error of the last call made, or of the approval after all three calls succeeded; before it, a started event for every call and a completed event for every call that succeeded |
| Orchestration.TrackAndOptimize | services/orchestrator/src/application/use_cases/supply_chain_orchestration.py:120-134 | one tracking call; on success one `shipment_tracked` event with the reported status and location and the result `{"tracking": …}`; on failure no event and the error re-raised |
| Orchestration.StatusErrorNotApproved | services/orchestrator/src/domain/services/compliance_agent.py:130-133 | a status call answered with an error reply gives a compliance check of `{}`, and so a falsy approval |
| AgentClient.ToolTask | services/orchestrator/src/domain/services/compliance_agent.py:63-71 | an `execute_tool` task with exactly the tool name and its parameters |
| AgentClient.KnowledgeTask | services/orchestrator/src/domain/services/compliance_agent.py:88-97 | a `query_knowledge` task with exactly the query and the result count |
| AgentClient.TaskPost | services/orchestrator/src/domain/services/compliance_agent.py:74-78 | a POST to the service's `/a2a/task` of the task under the fresh id |
| AgentClient.Unwrap | services/orchestrator/src/domain/services/compliance_agent.py:79-81 | a transport failure propagates; otherwise the inner result, or `{}` when the reply has none |
| AgentClient.Single | services/orchestrator/src/domain/services/compliance_agent.py:74-81 | one POST, and its unwrapped result |
| AgentClient.Pair | services/orchestrator/src/domain/services/compliance_agent.py:100-133 | two POSTs in order, the second not made when the first raises; succeeds exactly when both do, with both inner results under their keys |
| AgentClient.ErrorReplyUnwrapsEmpty | services/orchestrator/src/domain/services/compliance_agent.py:81 | an error reply unwraps to `{}`, not to a failure |
| Logistics.LogisticsAgent.Info | services/orchestrator/src/domain/services/logistics_agent.py:36-56 | type logistics, the three capabilities in order with their names and descriptions, no endpoint, status active |
| Logistics.LogisticsAgent.CalculateShipping | services/orchestrator/src/domain/services/logistics_agent.py:58-109 | the cost tool call first, then the delivery tool call; the result is `{"cost", "delivery"}` holding the two inner results |
| Logistics.ShippingDefaults | services/orchestrator/src/domain/services/logistics_agent.py:63-94 | missing fields default to weight 10, distance 500 and priority "standard" |
| Logistics.ShippingToolOrder | services/orchestrator/src/domain/services/logistics_agent.py:63-104 | the two calls name `calculate_shipping_cost` then `estimate_delivery_time`, both at the tool service's task URL |
| Logistics.LogisticsAgent.OptimizeRoute | services/orchestrator/src/domain/services/logistics_agent.py:111-133 | one `optimize_route` call with the stops unchanged; the inner result or `{}` |
| Logistics.LogisticsAgent.TrackShipment | services/orchestrator/src/domain/services/logistics_agent.py:135-157 | one `track_shipment` call with the tracking number as its only parameter; the inner result or `{}` |
| Compliance.ComplianceAgent.Info | services/orchestrator/src/domain/services/compliance_agent.py:36-52 | type compliance, capabilities `validate_documentation` and `check_regulations` in that order with their descriptions, no endpoint |
| Compliance.ComplianceAgent.ValidateDocumentation | services/orchestrator/src/domain/services/compliance_agent.py:54-81 | one documents tool call with the record's `documents` (default `[]`); the inner result or `{}` |
| Compliance.ComplianceAgent.CheckCompliance | services/orchestrator/src/domain/services/compliance_agent.py:83-133 | the knowledge query (three results) first, then the status tool call; `{"compliance_check", "knowledge_base"}` holding the two inner results |
| Compliance.ComplianceAgent.GetComplianceGuidance | services/orchestrator/src/domain/services/compliance_agent.py:135-154 | one knowledge query with the text unchanged and five results; the inner result or `{}` |
| Compliance.ComplianceDefaults | services/orchestrator/src/domain/services/compliance_agent.py:88-122 | without type and destination the query is about a general shipment to US and the status call carries those defaults; without documents it sends `[]` |
| Compliance.StatusErrorGivesEmptyCheck | services/orchestrator/src/domain/services/compliance_agent.py:130-133 | an error reply from the status tool gives `compliance_check` `{}` |
| ToolRegistry.ToolJson | services/mcp-tool-service/src/infrastructure/mcp/registry.py:8-15 | a descriptor dumps to exactly its five keys, each holding the field of that name |
| ToolRegistry.Registry.constructor | services/mcp-tool-service/src/infrastructure/mcp/registry.py:21-23 | both dicts start empty |
| ToolRegistry.Registry.RegisterTool | services/mcp-tool-service/src/infrastructure/mcp/registry.py:25-32 | tool and handler are written under the tool's name, overwriting both; other names are unchanged; the two dicts keep equal key sets |
| ToolRegistry.Registry.GetTool | services/mcp-tool-service/src/infrastructure/mcp/registry.py:34-36 | the registered tool, or none for an unknown name |
| ToolRegistry.Registry.AllTools | services/mcp-tool-service/src/infrastructure/mcp/registry.py:40 | the tools in registration order |
| ToolRegistry.Registry.ListTools | services/mcp-tool-service/src/infrastructure/mcp/registry.py:38-43 | with a falsy category all tools; otherwise exactly the tools of that category, in registration order |
| ToolRegistry.Registry.ExecuteTool | services/mcp-tool-service/src/infrastructure/mcp/registry.py:45-51 | a registered name runs its handler on the parameters unchanged; an unknown name raises "Tool not found: "; a list or dict name raises TypeError `unhashable type: 'list'` (or `'dict'`) |
| SupplyChainTools.Missing | services/mcp-tool-service/src/application/tools/supply_chain_tools.py:59-62 | the required documents not provided, in the fixed order; exactly these; raises exactly when the documents value cannot be searched, with TypeError `argument of type '<type>' is not iterable` |
| SupplyChainTools.ValidateCustomsDocumentation | services/mcp-tool-service/src/application/tools/supply_chain_tools.py:57-71 | `valid` exactly when nothing is missing; the missing list and provided documents as given; the message for each case; non-dict parameters raise AttributeError `'<type>' object has no attribute 'get'`, and unsearchable documents the TypeError of `Missing` |
| SupplyChainTools.DocumentsValidIff | services/mcp-tool-service/src/application/tools/supply_chain_tools.py:59-69 | a document list is valid exactly when it contains each of the three required documents |
| SupplyChainTools.NoDocumentsAllMissing | services/mcp-tool-service/src/application/tools/supply_chain_tools.py:57-71 | no documents: all three missing, in order, with the joined message |
| SupplyChainTools.CheckComplianceStatus | services/mcp-tool-service/src/application/tools/supply_chain_tools.py:74-94 | compliant exactly when the type is not hazmat; one issue for hazmat; one warning exactly when the destination is outside US, CA and MX; non-dict parameters raise AttributeError `'<type>' object has no attribute 'get'` |
| SupplyChainTools.ComplianceStatusDefaults | services/mcp-tool-service/src/application/tools/supply_chain_tools.py:76-77 | empty parameters are a general shipment to the US: compliant, no issues, no warnings |
| SupplyChainTools.OptimizeRoute | services/mcp-tool-service/src/application/tools/supply_chain_tools.py:97-110 | the route is the stops; original and optimized counts are the stop count; savings are 5 per stop; non-dict parameters raise the `.get` AttributeError; stops other than a list or dict raise AttributeError `'<type>' object has no attribute 'copy'` |
| SupplyChainTools.TrackShipment | services/mcp-tool-service/src/application/tools/supply_chain_tools.py:113-128 | the tracking number is echoed (default ""), status "in_transit", location Chicago; non-dict parameters raise the `.get` AttributeError |
| McpService.ToolTable | services/mcp-tool-service/src/main.py:51-122 | six tools in a fixed order, each with its handler named after it and its fixed category; the cost and delivery rows carry the given handlers, the other four the deterministic tools |
| McpService.RegisterTools | services/mcp-tool-service/src/main.py:49-125 | after the loop each of the six names has its tool and handler, every other name is unchanged, and from an empty registry the tools are listed in table order |
| McpService.RegisterAll | services/mcp-tool-service/src/main.py:124-125 | the loop registers the table's rows in order |
| McpService.StartupListing | services/mcp-tool-service/src/main.py:51-125 | after startup, four logistics tools and two compliance tools (documents then status) are listed, and all six without a category |
| McpService.ListingByCategory | services/mcp-tool-service/src/infrastructure/mcp/registry.py:38-43 | any registry holding the six tools in table order lists four logistics tools and two compliance tools, documents then status |
| McpService.Capabilities | services/mcp-tool-service/src/main.py:134-141 | one capability per tool, with its name, description and parameters |
| McpService.ServiceInfo | services/mcp-tool-service/src/main.py:143-150 | the tool-service descriptor at the service's address, its capabilities derived from all registered tools |
| McpService.RegistrationPost | services/mcp-tool-service/src/main.py:152-161 | a handshake request with that descriptor, to the orchestrator's handshake URL |
| McpService.AdvertisesExactlyRegistered | services/mcp-tool-service/src/main.py:134-141 | a capability is advertised exactly when a tool of that name is registered |
| McpService.HandleTask | services/mcp-tool-service/src/main.py:214-257 | `execute_tool` completes with `{"tool_result": r}` or becomes a -32000 error with the raised text; `list_tools` completes with the tools of the payload's category; any other type fails with "Unknown task type"; the id, task type and correlation id are echoed |
| McpService.UnknownToolIsErrorReply | services/mcp-tool-service/src/main.py:221-224 | an unregistered or missing tool name is answered with a "Tool not found" error reply |
| McpService.ExecuteEndpoint | services/mcp-tool-service/src/main.py:201-211 | not found (any ValueError) is 404, any other error 500, success `{"result", "status": "success"}` |
| McpService.ListToolsEndpoint | services/mcp-tool-service/src/main.py:187-191 | all tools without a category or with an empty one, otherwise that category's |
| RagService.AddDocuments | services/rag-agent/src/main.py:91 | the store keeps its documents and gains the texts paired with their metadata, in order |
| RagService.SeedShape | services/rag-agent/src/main.py:69-89 | eight texts and eight metadata entries; the first, second, third and seventh are filed under compliance, the other four under logistics |
| RagService.KnowledgeAgent.SeedInitialData | services/rag-agent/src/main.py:59-92 | no store: nothing; a non-empty store: unchanged; an empty store: the eight seed documents |
| RagService.KnowledgeAgent.Startup | services/rag-agent/src/main.py:34-51 | the store is the existing documents, or the seed when empty; then the registration POST |
| RagService.CategoryFilter | services/rag-agent/src/main.py:162 | a filter exactly when a non-empty category is given, and it is `{"category": c}` |
| RagService.FilterMatches | services/rag-agent/src/main.py:162 | a document passes the filter exactly when no category (or an empty one) was given or the document has it |
| RagService.KnowledgeAgent.QueryEndpoint | services/rag-agent/src/main.py:156-169 | no store is a 500 "ChromaDB service not initialized"; otherwise the search's results, with the category filter |
| RagService.KnowledgeAgent.HandleTask | services/rag-agent/src/main.py:172-208 | `query_knowledge` searches with the payload's query and count and completes with `{"results": …}`; no store is a -32000 error; other types fail with "Unknown task type"; id and correlation id echoed |
| RagService.UnknownTaskIgnoresStore | services/rag-agent/src/main.py:193-199 | an unknown task gets the same answer whatever the store holds |
| RagService.RegulationsQueryReachesSearch | services/orchestrator/src/domain/services/compliance_agent.py:88-97 | the compliance agent's knowledge task reaches the search with its query text and three results, and completes with what it found |
| RagService.TaskDefaults | services/rag-agent/src/main.py:179-180 | query defaults to "" and the count to 5 |
| RagService.Info | services/rag-agent/src/main.py:98-111 | type rag, exactly one capability `query_knowledge` with its parameter types |
| RagService.RegistrationPost | services/rag-agent/src/main.py:113-122 | a handshake request with that descriptor, to the orchestrator's handshake URL |
| OrchestratorService.SelfInfo | services/orchestrator/src/main.py:50-67 | the orchestrator descriptor: its id, name, version and address, with two capabilities |
| OrchestratorService.ResponderInfo | services/orchestrator/src/main.py:115-122 | the same descriptor with no capabilities |
| OrchestratorService.Orchestrator.constructor | services/orchestrator/src/main.py:40 | an empty discovery service and connection manager |
| OrchestratorService.Orchestrator.Startup | services/orchestrator/src/main.py:68 | the orchestrator's own descriptor is registered |
| OrchestratorService.Orchestrator.Shutdown | services/orchestrator/src/main.py:76 | its id is removed; the other entries are unchanged |
| OrchestratorService.StartupShutdownRestores | services/orchestrator/src/main.py:68-76 | registering and then removing an id the registry did not know gives the registry back |
| OrchestratorService.DiscoverFindsSelf | services/orchestrator/src/main.py:148-161 | after startup, discovering by its type or one of its capabilities finds the orchestrator |
| OrchestratorService.ConnectedData | services/orchestrator/src/main.py:129-133 | the event names the initiator's id, its type and the new session id |
| OrchestratorService.Orchestrator.Handshake | services/orchestrator/src/main.py:108-138 | the session is stored with its own establishment time; `agent_connected` is broadcast with a separate clock reading as its timestamp; the acceptance is returned under the request id; the registry is unchanged |
| OrchestratorService.Orchestrator.Discover | services/orchestrator/src/main.py:148-161 | the filters are passed unchanged to `discover_agents` and its list is returned as is under the request id: exactly the matching registered agents, in registry order |
| OrchestratorService.HandleTask | services/orchestrator/src/main.py:171-190 | completed with the fixed result; id, task type and correlation id echoed |
| OrchestratorService.TaskIgnoresPayload | services/orchestrator/src/main.py:178 | the answer never depends on the payload |
| OrchestratorService.ShipmentLogistics | services/orchestrator/src/main.py:238-242 | the logistics agent `orchestrate_shipment` builds |
| OrchestratorService.ShipmentCompliance | services/orchestrator/src/main.py:244-249 | the compliance agent `orchestrate_shipment` builds |
| OrchestratorService.PrepareShipment | services/orchestrator/src/main.py:255-261 | the record with its id as text; distance 500, priority standard, the three documents, type general and the destination's country, each written over; every other field kept |
| OrchestratorService.PreparedPassesTools | services/orchestrator/src/main.py:256-261 | the prepared record passes both tools on its own: documents valid, compliant with no issues |
| OrchestratorService.RunRoutine | services/orchestrator/src/main.py:264 | everything `process_new_shipment` promises about the run (the full event list, the calls and the result or error); the result is the id, `processed`, the logistics result unchanged, the two compliance results and their approval |
| OrchestratorService.Orchestrator.OrchestrateShipment | services/orchestrator/src/main.py:230-266 | the prepared record goes through the routine with the two agents built here, with everything `process_new_shipment` promises: the events, the calls in order and the result or error, each agent's outcome being its calls through the transport |
| OrchestratorService.Echo | services/orchestrator/src/main.py:289-292 | `{"type": "echo", "data": text}` |
| OrchestratorService.Orchestrator.WebSocketSession | services/orchestrator/src/main.py:270-298 | connect, greet, echo each received frame in order, then disconnect: the connection list is as before in every case; the socket got exactly the frames of the greeting-then-echoes sequence that come before the first failing send |
| OrchestratorService.FirstFailedSend | services/orchestrator/src/main.py:276-298 | the first send whose oracle says it fails, or one past the last send when none does: no earlier send fails |
| Pipeline.ServedToolWrapped | services/mcp-tool-service/src/main.py:220-231 | a tool POST served by the tool service unwraps to `{"tool_result": r}`, or `{}` when the tool raised |
| Pipeline.AsWrittenDocumentsNeverValid | services/orchestrator/src/application/use_cases/supply_chain_orchestration.py:97-100 | as written, the documentation result has no `valid` key, so the approval is false whatever the compliance side says |
| Pipeline.AsWrittenNeverApproved | services/orchestrator/src/application/use_cases/supply_chain_orchestration.py:97-100 | as written, every `/orchestrate` result has `approved` false once the tool service serves the documents POST |
| Pipeline.PreparedShipmentRejected | services/orchestrator/src/main.py:256-264 | the prepared record gets `valid: true` from the documents tool, and yet `approved` is false |
| Pipeline.FixedDocumentsValid | services/orchestrator/src/domain/services/compliance_agent.py:81 | unwrapping `tool_result`, the documentation's `valid` is exactly "no document missing" |
| Pipeline.FixedComplianceValid | services/orchestrator/src/domain/services/compliance_agent.py:130-133 | unwrapping `tool_result`, the check's `compliant` is exactly "not hazmat" |
| Pipeline.CorrectedApproval | services/orchestrator/src/application/use_cases/supply_chain_orchestration.py:97-100 | with the unwrapping, the approval is exactly "documents complete and not hazmat" |
| Pipeline.FixedOrchestrateShipment | services/orchestrator/src/main.py:230-266 | `/orchestrate` with the unwrapping: everything `process_new_shipment` promises, with the corrected compliance-side steps; on success its result reports the corrected approval |
| Pipeline.FixedPreparedApproved | services/orchestrator/src/main.py:256-261 | with the unwrapping, the record `/orchestrate` prepares is approved |

## Left out

- HTTP, FastAPI routing, CORS and uvicorn are left out. A remote call is a `TaskTransport` (or `HandshakeTransport`) parameter that answers an envelope or raises. `raise_for_status` is part of that.
- Asyncio and the locks are left out. Each operation runs to completion and is sequential.
- The vector store is left out. The knowledge agent's store is a list of documents; the ranking query is a `Search` parameter; its count is whether the list is empty.
- `calculate_shipping_cost` and `estimate_delivery_time` compute with floats and dates, so the tool table takes them as handler parameters.
- Every clock reading and fresh id of the coordination code is a parameter of its own: session timestamps, event timestamps, session ids and request ids.
- SupplyChainTools.CheckComplianceStatus, SupplyChainTools.OptimizeRoute, SupplyChainTools.TrackShipment: their results leave out the keys that hold a clock reading or a random id (`checked_at`, `optimization_id`, `last_update` and `estimated_delivery`), because a tool is a handler from parameters to result with no clock. Every other key is stated exactly.
- JSON and Pydantic serialisation is left out. Payloads are `Json.Value` values, with no floats, and the wire form is not modelled. `Json.Format` stands for an f-string's rendering of a value, in error texts and in the knowledge query text (services/orchestrator/src/domain/services/compliance_agent.py:93). It renders `None`, booleans, integers and strings as Python does, but every list as `[...]` and every dict as `{...}`, where Python prints their repr. So the model's query text differs from the source's when `type` or `destination_country` is a list or a dict.
- The `/` and `/health` endpoints are left out: they return fixed replies.
- `/shipments/{id}` is left out: it returns the id it was given with status `pending` (services/orchestrator/src/main.py:216-220).
- `/shipments` is left out (services/orchestrator/src/main.py:201-213). It broadcasts `shipment_created` with the shipment's id, tracking number and status, and echoes the record. That broadcast is `WebSocket.ConnectionManager.BroadcastEvent`, which is modelled. The endpoint's own work is Pydantic validation and serialisation of the `Shipment` record, which this model does not have as an entity.
- `/agents` is left out (services/orchestrator/src/main.py:223-227). It returns `Discovery.DiscoveryService.AllAgents`, which is modelled, in registration order, each agent serialised by Pydantic. That serialisation is not modelled.
- OrchestratorService.Orchestrator.OrchestrateShipment: the routine's events are returned in order, not broadcast. In the source each event goes through `manager.broadcast_event` (services/orchestrator/src/application/use_cases/supply_chain_orchestration.py:32-108, 114). Each broadcast delivers to the open dashboard sockets and drops those whose send fails, as `WebSocket.ConnectionManager.BroadcastEvent` states. The model does not tie the orchestration to the shared manager, so those deliveries and removals are not captured. Each event's type and data are stated exactly.
- Logging is left out.
- The `settings.py` files, the shipment records of `supply_chain.py` and `test_system.py` are not part of this model. The three `Settings` datatypes carry that configuration's defaults.
- The error branches of the orchestrator's handshake and discover endpoints are left out. Nothing inside those endpoints raises in the model, so the branches are unreachable there.
- The knowledge agent's `handle_task` passes the payload values to the store unchecked. The model hands them to `Search` as `Json.Value`s.
- `/ws` receive loop: the frames the peer sends before closing are a parameter, and whether each send fails is an oracle over the send's ordinal. A closed connection ends the loop, and so does a send that fails.
- Discovery.DiscoveryService.UpdateSessionActivity: the session store holds session values, not shared objects. In the source, `update_session_activity` assigns `last_activity` on the stored session object (services/orchestrator/src/infrastructure/a2a/discovery.py:137-139). `initiate_handshake` returns that same object (discovery.py:99-102), so its caller sees the update. The model changes only the stored copy, and does not capture that aliasing.
- A handshake initiator's registration is not modelled because the code never does it: the orchestrator registers only itself.

## Findings

| source | as written | input that shows it | evidently intended | confidence | as-written member | corrected member |
|---|---|---|---|---|---|---|
| services/orchestrator/src/application/use_cases/supply_chain_orchestration.py:97-100 | The tool service answers every tool task as `{"tool_result": r}` (services/mcp-tool-service/src/main.py:228). The compliance agent returns that unchanged (services/orchestrator/src/domain/services/compliance_agent.py:81, 131). The routine then reads `valid` and `compliant` at the top level, so `approved` is always false. | Any `/orchestrate` call: the prepared record has all three documents and type general, the documents tool answers `valid: true`, and `approved` is false. | Read `valid` and `compliant` from the `tool_result` the tool service reports, so that approval is "documents complete and not hazmat". | not executed | Pipeline.PreparedShipmentRejected | Pipeline.CorrectedApproval |
