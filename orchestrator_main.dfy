/**
 * The orchestrator's entry points: the protocol endpoints (handshake, discover,
 * task), the shipment endpoint that prepares a record and runs the
 * orchestration routine, the dashboard socket, and the lifespan that registers
 * the orchestrator with its own discovery service and removes it at shutdown.
 * The endpoints share one discovery service and one connection manager. Here
 * the dashboard socket is the manager's only user: the orchestration routine
 * returns its events instead of broadcasting them through the manager.
 */
module OrchestratorService {
  import opened Wrappers
  import opened Json
  import opened Protocol
  import opened PyDict
  import opened Seqs
  import Discovery
  import WebSocket
  import Http
  import AgentClient
  import Logistics
  import Compliance
  import Orchestration
  import SupplyChainTools

  /** The service's configuration defaults. */
  datatype Settings = Settings(
    serviceName: string := "supply-chain-orchestrator",
    serviceVersion: string := "0.1.0",
    host: string := "0.0.0.0",
    port: nat := 8000,
    agentId: string := "orchestrator-001",
    ragAgentUrl: string := "http://localhost:8001",
    mcpToolServiceUrl: string := "http://localhost:8002")

  /** The descriptor the lifespan registers: type orchestrator, two capabilities, at the service's address. */
  function SelfInfo(settings: Settings): (info: AgentInfo)
    ensures info.agentId == settings.agentId && info.agentType == Orchestrator
    ensures info.name == settings.serviceName && info.version == settings.serviceVersion
    ensures info.endpoint == Http.Endpoint(settings.host, settings.port) && info.status == "active"
    ensures |info.capabilities| == 2
    ensures info.capabilities[0].name == "orchestrate_shipment"
    ensures info.capabilities[0].parameters == map["shipment_id" := Str("string")]
    ensures info.capabilities[1].name == "coordinate_agents" && info.capabilities[1].parameters == map[]
  {
    AgentInfo(
      agentId := settings.agentId,
      agentType := Orchestrator,
      name := settings.serviceName,
      version := settings.serviceVersion,
      capabilities := [
        AgentCapability("orchestrate_shipment", "Orchestrate shipment logistics and compliance",
          map["shipment_id" := Str("string")]),
        AgentCapability("coordinate_agents", "Coordinate between logistics and compliance agents")],
      endpoint := Http.Endpoint(settings.host, settings.port))
  }

  /** The descriptor the orchestrator answers handshakes with: the same, but advertising no capabilities. */
  function ResponderInfo(settings: Settings): (info: AgentInfo)
    ensures info == SelfInfo(settings).(capabilities := [])
  {
    AgentInfo(
      agentId := settings.agentId,
      agentType := Orchestrator,
      name := settings.serviceName,
      version := settings.serviceVersion,
      capabilities := [],
      endpoint := Http.Endpoint(settings.host, settings.port))
  }

  /** The data of the `agent_connected` event: who connected, as what, in which session. */
  function ConnectedData(initiator: AgentInfo, sessionId: string): (data: Object)
    ensures data.Keys == {"agent_id", "agent_type", "session_id"}
    ensures data["agent_id"] == Str(initiator.agentId) && data["session_id"] == Str(sessionId)
    ensures data["agent_type"] == Str(initiator.agentType.Wire())
  {
    map[
      "agent_id" := Str(initiator.agentId),
      "agent_type" := Str(initiator.agentType.Wire()),
      "session_id" := Str(sessionId)]
  }

  /** The fixed result of the orchestrator's own task endpoint. */
  const TaskProcessed: Object := map["status" := Str("processed"), "message" := Str("Task completed")]

  /** The task endpoint: every task is reported completed with the fixed result, its type and correlation id echoed. */
  function HandleTask(request: Request<TaskRequest>): (r: Response<TaskResponse>)
    ensures WellFormed(r) && r.id == request.id && r.result.Some?
    ensures r.result.value.status == "completed"
    ensures r.result.value.taskType == request.params.taskType
    ensures r.result.value.correlationId == request.params.correlationId
    ensures r.result.value.result == map["status" := Str("processed"), "message" := Str("Task completed")]
  {
    TaskReply(request, TaskProcessed, "completed")
  }

  /** The answer depends on the request's id, task type and correlation id only, never on the payload. */
  lemma TaskIgnoresPayload(a: Request<TaskRequest>, b: Request<TaskRequest>)
    requires a.id == b.id && a.params.taskType == b.params.taskType
    requires a.params.correlationId == b.params.correlationId
    ensures HandleTask(a) == HandleTask(b)
  {
  }

  /** The fixed values `orchestrate_shipment` writes over the record. */
  const PreparedKeys: set<string> := {"id", "distance_km", "priority", "documents", "type", "destination_country"}

  /** The frame the dashboard socket receives on connecting. */
  const ConnectedMessage: Object := map["type" := Str("connected"), "message" := Str("Connected to orchestrator")]

  /** The echo of one received text frame. */
  function Echo(data: string): (m: Object)
    ensures m.Keys == {"type", "data"} && m["type"] == Str("echo") && m["data"] == Str(data)
  {
    map["type" := Str("echo"), "data" := Str(data)]
  }

  /** The echoes of the frames received, in order, all sent to `ws`. */
  function Echoes<W>(ws: W, received: seq<string>): (r: seq<WebSocket.Delivery<W>>)
    ensures |r| == |received|
    ensures forall i :: 0 <= i < |r| ==> r[i] == WebSocket.Delivery(ws, Echo(received[i]))
  {
    seq(|received|, i requires 0 <= i < |received| => WebSocket.Delivery(ws, Echo(received[i])))
  }

  /** Every frame a dashboard session sends when no send fails: the greeting, then one echo per received frame. */
  function SessionFrames<W>(ws: W, received: seq<string>): (r: seq<WebSocket.Delivery<W>>)
    ensures |r| == |received| + 1
    ensures r[0] == WebSocket.Delivery(ws, ConnectedMessage)
  {
    [WebSocket.Delivery(ws, ConnectedMessage)] + Echoes(ws, received)
  }

  /**
   * The ordinal of the first send at or after `n` that fails, among sends
   * `n` to `last`; `last + 1` when none of them fails.
   */
  function FirstFailedSend(failsAt: nat -> bool, n: nat, last: nat): (r: nat)
    requires n <= last + 1
    ensures n <= r <= last + 1
    ensures forall m: nat :: n <= m < r ==> !failsAt(m)
    ensures r <= last ==> failsAt(r)
    decreases last + 1 - n
  {
    if n > last then n
    else if failsAt(n) then n
    else FirstFailedSend(failsAt, n + 1, last)
  }

  /** The frames up to the echo of `received[i]` are the frames before it, then that echo. */
  lemma SessionFramesSnoc<W>(ws: W, received: seq<string>, i: nat)
    requires i < |received|
    ensures SessionFrames(ws, received)[..i + 2]
         == SessionFrames(ws, received)[..i + 1] + [WebSocket.Delivery(ws, Echo(received[i]))]
  {
    var frames := SessionFrames(ws, received);
    assert frames[i + 1] == Echoes(ws, received)[i];
    assert frames[..i + 2] == frames[..i + 1] + [frames[i + 1]];
  }

  /** A failing send `n` with no failing send before it is the first failed send. */
  lemma FirstFailedSendAt(failsAt: nat -> bool, n: nat, last: nat)
    requires n <= last && failsAt(n)
    requires forall m: nat :: m < n ==> !failsAt(m)
    ensures FirstFailedSend(failsAt, 0, last) == n
  {
  }

  /** With no failing send, the first failed send is one past the last. */
  lemma FirstFailedSendNone(failsAt: nat -> bool, last: nat)
    requires forall m: nat :: m <= last ==> !failsAt(m)
    ensures FirstFailedSend(failsAt, 0, last) == last + 1
  {
  }

  /** The fresh request ids of the five agent calls one orchestration makes. */
  datatype RequestIds = RequestIds(cost: string, delivery: string, documents: string, knowledge: string, status: string)

  /** The agents `orchestrate_shipment` builds: they call back the orchestrator at its own address. */
  function ShipmentLogistics(settings: Settings): (agent: Logistics.LogisticsAgent)
    ensures agent.agentId == "logistics-001" && agent.mcpToolUrl == settings.mcpToolServiceUrl
    ensures agent.orchestratorUrl == Http.Endpoint(settings.host, settings.port)
  {
    Logistics.LogisticsAgent("logistics-001", Http.Endpoint(settings.host, settings.port), settings.mcpToolServiceUrl)
  }

  function ShipmentCompliance(settings: Settings): (agent: Compliance.ComplianceAgent)
    ensures agent.agentId == "compliance-001" && agent.mcpToolUrl == settings.mcpToolServiceUrl
    ensures agent.ragAgentUrl == settings.ragAgentUrl
    ensures agent.orchestratorUrl == Http.Endpoint(settings.host, settings.port)
  {
    Compliance.ComplianceAgent("compliance-001", Http.Endpoint(settings.host, settings.port),
      settings.mcpToolServiceUrl, settings.ragAgentUrl)
  }

  /** What each agent call of the routine gives back for a record. */
  function ShippingOutcome(settings: Settings, transport: TaskTransport, ids: RequestIds, s: Object): Result<Object, PyError> {
    ShipmentLogistics(settings).CalculateShipping(s, transport, ids.cost, ids.delivery).outcome
  }

  function DocumentsOutcome(settings: Settings, transport: TaskTransport, ids: RequestIds, s: Object): Result<Object, PyError> {
    ShipmentCompliance(settings).ValidateDocumentation(s, transport, ids.documents).outcome
  }

  function ComplianceOutcome(settings: Settings, transport: TaskTransport, ids: RequestIds, s: Object): Result<Object, PyError> {
    ShipmentCompliance(settings).CheckCompliance(s, transport, ids.knowledge, ids.status).outcome
  }

  /** The three agent calls `/orchestrate` hands to the routine, as routine steps. */
  function ShippingStep(settings: Settings, transport: TaskTransport, ids: RequestIds): Orchestration.Step {
    (s: Object) => ShippingOutcome(settings, transport, ids, s)
  }

  function DocumentsStep(settings: Settings, transport: TaskTransport, ids: RequestIds): Orchestration.Step {
    (s: Object) => DocumentsOutcome(settings, transport, ids, s)
  }

  function ComplianceStep(settings: Settings, transport: TaskTransport, ids: RequestIds): Orchestration.Step {
    (s: Object) => ComplianceOutcome(settings, transport, ids, s)
  }

  /**
   * `data` is `record` with its id as text, then fixed distance, priority,
   * documents and type, and the given destination country, each written over
   * whatever the record held; every other field is kept.
   */
  predicate Prepared(data: Object, record: Object, shipmentId: string, country: string) {
    && data.Keys == record.Keys + PreparedKeys
    && (forall k :: k in record && k !in PreparedKeys ==> data[k] == record[k])
    && data["id"] == Str(shipmentId) && data["distance_km"] == Int(500)
    && data["priority"] == Str("standard") && data["type"] == Str("general")
    && data["documents"] == Strings(SupplyChainTools.RequiredDocuments)
    && data["destination_country"] == Str(country)
  }

  /**
   * The record `orchestrate_shipment` prepares from the shipment's dump: its id
   * as text, then fixed distance, priority, documents and type, and the
   * destination's country, each written over whatever the dump held.
   */
  method PrepareShipment(record: Object, shipmentId: string, country: string) returns (data: Object)
    ensures Prepared(data, record, shipmentId, country)
  {
    data := record;
    data := data["id" := Str(shipmentId)];
    data := data["distance_km" := Int(500)];
    data := data["priority" := Str("standard")];
    data := data["documents" := Strings(["commercial_invoice", "packing_list", "certificate_of_origin"])];
    data := data["type" := Str("general")];
    data := data["destination_country" := Str(country)];
  }

  /**
   * A prepared record satisfies both tools on its own: its documents are
   * complete and, being a general shipment, it is compliant.
   */
  lemma PreparedPassesTools(data: Object)
    requires "documents" in data && data["documents"] == Strings(SupplyChainTools.RequiredDocuments)
    requires "type" in data && data["type"] == Str("general")
    ensures
      var docs := SupplyChainTools.ValidateCustomsDocumentation(Compliance.DocumentsTask(data).payload["parameters"]);
      docs.Ok? && docs.value["valid"] == Bool(true)
    ensures
      var status := SupplyChainTools.CheckComplianceStatus(Compliance.StatusTask(data).payload["parameters"]);
      status.Ok? && status.value["compliant"] == Bool(true) && status.value["issues"] == Arr([])
  {
    var docs := Strings(SupplyChainTools.RequiredDocuments).items;
    SupplyChainTools.DocumentsValidIff(docs);
    forall d | d in SupplyChainTools.RequiredDocuments ensures Str(d) in docs {
      var i :| 0 <= i < |SupplyChainTools.RequiredDocuments| && SupplyChainTools.RequiredDocuments[i] == d;
      assert docs[i] == Str(d);
    }
  }

  class Orchestrator<W(==)> {
    const settings: Settings
    const discovery: Discovery.DiscoveryService
    const manager: WebSocket.ConnectionManager<W>

    ghost predicate Valid()
      reads discovery
    {
      discovery.Valid()
    }

    constructor (settings: Settings)
      ensures this.settings == settings && Valid()
      ensures fresh(discovery) && discovery.registry == Empty() && discovery.sessions == map[]
      ensures fresh(manager) && manager.activeConnections == [] && manager.outbox == []
    {
      this.settings := settings;
      discovery := new Discovery.DiscoveryService();
      manager := new WebSocket.ConnectionManager<W>();
    }

    /** The startup half of the lifespan: the orchestrator registers its own descriptor. */
    method Startup()
      requires Valid()
      modifies discovery
      ensures Valid()
      ensures discovery.registry == old(discovery.registry).Put(settings.agentId, SelfInfo(settings))
      ensures discovery.registry.Get(settings.agentId) == Some(SelfInfo(settings))
      ensures discovery.sessions == old(discovery.sessions)
    {
      discovery.RegisterAgent(SelfInfo(settings));
    }

    /** The shutdown half of the lifespan: the orchestrator's id is removed. */
    method Shutdown()
      requires Valid()
      modifies discovery
      ensures Valid()
      ensures discovery.registry == old(discovery.registry).Pop(settings.agentId)
      ensures discovery.registry.Get(settings.agentId) == None
      ensures forall id :: id != settings.agentId ==> discovery.registry.Get(id) == old(discovery.registry).Get(id)
    {
      discovery.UnregisterAgent(settings.agentId);
    }

    /**
     * `/a2a/handshake`: the session is stored (established at `establishedAt`),
     * `agent_connected` is broadcast to the dashboard (stamped `sentAt`, a
     * later clock reading), and the acceptance is returned under the request's
     * id. The initiator is not added to the registry.
     */
    method Handshake(
      request: Request<HandshakeRequest>, sessionId: string, establishedAt: string, sentAt: string, fails: W -> bool)
      returns (r: Response<HandshakeResponse>)
      requires Valid()
      modifies discovery, manager
      ensures Valid()
      ensures WellFormed(r) && r.id == request.id
      ensures r.result == Some(Discovery.AcceptedResponse(ResponderInfo(settings), sessionId))
      ensures discovery.sessions == old(discovery.sessions)[sessionId :=
        Discovery.AcceptedSession(request.params, ResponderInfo(settings), sessionId, establishedAt)]
      ensures discovery.registry == old(discovery.registry)
      ensures manager.activeConnections == Filter(Not(fails), old(manager.activeConnections))
      ensures manager.outbox == old(manager.outbox) + WebSocket.Deliveries(
        WebSocket.EventMessage("agent_connected", ConnectedData(request.params.agentInfo, sessionId), sentAt),
        Filter(Not(fails), old(manager.activeConnections)))
    {
      var response := discovery.AcceptHandshake(request.params, ResponderInfo(settings), sessionId, establishedAt);
      manager.BroadcastEvent("agent_connected", ConnectedData(request.params.agentInfo, response.sessionId), sentAt, fails);
      r := Reply(request.id, response);
    }

    /**
     * `/a2a/discover`: the filters are passed on unchanged and the matches
     * returned under the request's id, in registry order.
     */
    function Discover(request: Request<DiscoverRequest>): (r: Response<DiscoverResponse>)
      reads discovery
      requires Valid()
      ensures WellFormed(r) && r.id == request.id && r.result.Some?
      ensures r.result.value.agents == discovery.DiscoverAgents(request.params.agentType, request.params.capability)
      ensures r.result.value.agents
        == Filter(Discovery.Matcher(request.params.agentType, request.params.capability), discovery.AllAgents())
      ensures forall a :: a in r.result.value.agents <==>
        a in discovery.AllAgents() && Discovery.Matches(a, request.params.agentType, request.params.capability)
    {
      var agents := discovery.DiscoverAgents(request.params.agentType, request.params.capability);
      forall a | a in discovery.AllAgents() && Discovery.Matches(a, request.params.agentType, request.params.capability)
        ensures a in agents
      {
        var i :| 0 <= i < |discovery.AllAgents()| && discovery.AllAgents()[i] == a;
      }
      Reply(request.id, DiscoverResponse(agents))
    }

    /**
     * `/orchestrate`: prepares the record and runs the routine with the two
     * agents this endpoint builds, all calls going through `transport`.
     */
    method OrchestrateShipment(record: Object, shipmentId: string, country: string, transport: TaskTransport, ids: RequestIds)
      returns (data: Object, events: seq<Orchestration.Event>, calls: seq<string>, outcome: Result<Object, PyError>)
      ensures Prepared(data, record, shipmentId, country)
      ensures Orchestration.Traced(data,
        ShippingStep(settings, transport, ids), DocumentsStep(settings, transport, ids), ComplianceStep(settings, transport, ids),
        events, calls, outcome)
      ensures events != [] && events[0].eventType == "shipment_processing_started"
      ensures
        var logistics := ShippingOutcome(settings, transport, ids, data);
        var doc := DocumentsOutcome(settings, transport, ids, data);
        var check := ComplianceOutcome(settings, transport, ids, data);
        && (outcome.Ok? <==> logistics.Ok? && doc.Ok? && check.Ok? && Orchestration.Approval(doc.value, check.value).Ok?)
        && (outcome.Ok? ==> doc.Ok? && check.Ok? && Reports(outcome.value, data, doc.value, check.value))
    {
      data := PrepareShipment(record, shipmentId, country);
      events, calls, outcome := RunRoutine(data,
        ShippingStep(settings, transport, ids), DocumentsStep(settings, transport, ids), ComplianceStep(settings, transport, ids));
    }

    /**
     * `/ws`: the socket is connected and greeted, each received text frame is
     * echoed back, and the socket is disconnected when the peer closes (after
     * `received`) or a send fails. Send number 0 is the greeting and send
     * `k + 1` the echo of `received[k]`; `failsAt(n)` says whether send `n` fails.
     * The socket gets every frame before the first failing send.
     */
    method WebSocketSession(ws: W, received: seq<string>, failsAt: nat -> bool)
      requires ws !in manager.activeConnections
      modifies manager
      ensures manager.activeConnections == old(manager.activeConnections)
      ensures manager.outbox ==
        old(manager.outbox) + SessionFrames(ws, received)[..FirstFailedSend(failsAt, 0, |received|)]
    {
      ghost var frames := SessionFrames(ws, received);
      manager.Connect(ws);
      var sent := manager.SendPersonalMessage(ConnectedMessage, ws, (_: W) => failsAt(0));
      assert frames[..1] == [frames[0]];
      var i := 0;
      while i < |received| && sent.Ok?
        invariant 0 <= i <= |received|
        invariant manager.activeConnections == old(manager.activeConnections) + [ws]
        invariant forall m: nat :: m < i ==> !failsAt(m)
        invariant sent.Ok? ==> !failsAt(i) && manager.outbox == old(manager.outbox) + frames[..i + 1]
        invariant sent.Err? ==> failsAt(i) && manager.outbox == old(manager.outbox) + frames[..i]
      {
        SessionFramesSnoc(ws, received, i);
        sent := manager.SendPersonalMessage(Echo(received[i]), ws, (_: W) => failsAt(i + 1));
        i := i + 1;
      }
      if sent.Ok? {
        FirstFailedSendNone(failsAt, |received|);
        assert frames[..i + 1] == frames;
      } else {
        FirstFailedSendAt(failsAt, i, |received|);
      }
      WebSocket.ConnectThenDisconnect(old(manager.activeConnections), ws);
      manager.Disconnect(ws);
    }
  }

  const ResultKeys: set<string> := {"shipment_id", "status", "logistics", "documentation", "compliance", "approved"}

  /**
   * A routine result that reports the shipment's id, status `processed`, the
   * two compliance-side results and the approval computed from them.
   */
  predicate Reports(result: Object, data: Object, doc: Object, check: Object) {
    && ResultKeys <= result.Keys
    && result["shipment_id"] == Orchestration.ShipmentId(data)
    && result["status"] == Str("processed")
    && result["documentation"] == Obj(doc)
    && result["compliance"] == Obj(check)
    && Orchestration.Approval(doc, check).Ok?
    && result["approved"] == Orchestration.Approval(doc, check).value
  }

  /**
   * The orchestration routine as `orchestrate_shipment` runs it: everything
   * `process_new_shipment` promises, and in particular the parts the endpoint
   * reports.
   */
  method RunRoutine(data: Object, shipping: Orchestration.Step, documents: Orchestration.Step, compliance: Orchestration.Step)
    returns (events: seq<Orchestration.Event>, calls: seq<string>, outcome: Result<Object, PyError>)
    ensures Orchestration.Traced(data, shipping, documents, compliance, events, calls, outcome)
    ensures outcome.Ok? ==> outcome.value["logistics"] == Obj(shipping(data).value)
    ensures events != [] && events[0].eventType == "shipment_processing_started"
    ensures outcome.Ok? <==>
      && shipping(data).Ok? && documents(data).Ok? && compliance(data).Ok?
      && Orchestration.Approval(documents(data).value, compliance(data).value).Ok?
    ensures outcome.Ok? ==>
        documents(data).Ok? && compliance(data).Ok? && Reports(outcome.value, data, documents(data).value, compliance(data).value)
  {
    events, calls, outcome := Orchestration.ProcessNewShipment(data, shipping, documents, compliance);
  }

  /**
   * After startup a discover request for the orchestrator's capability, or for
   * its type, finds the orchestrator itself.
   */
  lemma DiscoverFindsSelf<W>(o: Orchestrator<W>, request: Request<DiscoverRequest>)
    requires o.Valid() && o.discovery.registry.Get(o.settings.agentId) == Some(SelfInfo(o.settings))
    requires request.params.agentType.None? || request.params.agentType == Some(Orchestrator)
    requires request.params.capability.None? || request.params.capability.value in {"", "orchestrate_shipment", "coordinate_agents"}
    ensures SelfInfo(o.settings) in o.Discover(request).result.value.agents
  {
    var self := SelfInfo(o.settings);
    assert self == o.discovery.registry.entries[o.settings.agentId];
    var k := IndexOf(o.discovery.registry.keys, o.settings.agentId);
    assert o.discovery.AllAgents()[k] == self;
    if request.params.capability.Some? && request.params.capability.value != "" {
      var i := if request.params.capability.value == "orchestrate_shipment" then 0 else 1;
      assert self.capabilities[i].name == request.params.capability.value;
    }
  }

  /** Registering at startup and removing at shutdown leaves a registry that did not know the id as it was. */
  lemma {:induction false} StartupShutdownRestores(d: Dict<string, AgentInfo>, settings: Settings)
    requires d.Valid() && settings.agentId !in d.entries
    ensures d.Put(settings.agentId, SelfInfo(settings)).Pop(settings.agentId) == d
  {
    PutThenPop(d, settings.agentId, SelfInfo(settings));
  }
}
