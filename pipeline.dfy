/**
 * The orchestrator, its compliance agent and the tool service put together.
 *
 * The tool service's task endpoint reports a tool's result one level down, as
 * `{"tool_result": result}`, and the compliance agent hands that on unchanged,
 * but the orchestration routine reads `valid` and `compliant` at the top level.
 * So, as written, a shipment is never approved, whatever its documents. This
 * module proves that of the code as written, then adds the missing unwrapping
 * and proves that the approval then follows the two tools' verdicts.
 */
module Pipeline {
  import opened Wrappers
  import opened Json
  import opened Protocol
  import opened AgentClient
  import Compliance
  import Orchestration
  import SupplyChainTools
  import ToolRegistry
  import McpService
  import OrchestratorService

  /** The transport answers the POST as the tool service's task endpoint would, from `registry`. */
  predicate ServedBy(registry: ToolRegistry.Registry, transport: TaskTransport, p: Post)
    reads registry
    requires registry.Valid()
  {
    Answer(transport, p) == Ok(McpService.HandleTask(registry, p.request))
  }

  /** `name` runs exactly `tool` in `registry`. */
  ghost predicate Runs(registry: ToolRegistry.Registry, name: string, tool: ToolRegistry.Handler)
    reads registry
  {
    name in registry.handlers && registry.handlers[name] == tool
  }

  /** The documents POST of the orchestrator's compliance agent for `data`. */
  function DocumentsPost(settings: OrchestratorService.Settings, ids: OrchestratorService.RequestIds, data: Object): Post {
    TaskPost(settings.mcpToolServiceUrl, Compliance.DocumentsTask(data), ids.documents)
  }

  /** The status POST of the orchestrator's compliance agent for `data`. */
  function StatusPost(settings: OrchestratorService.Settings, ids: OrchestratorService.RequestIds, data: Object): Post {
    TaskPost(settings.mcpToolServiceUrl, Compliance.StatusTask(data), ids.status)
  }

  /** The knowledge POST of the orchestrator's compliance agent for `data`. */
  function KnowledgePost(settings: OrchestratorService.Settings, ids: OrchestratorService.RequestIds, data: Object): Post {
    TaskPost(settings.ragAgentUrl, Compliance.RegulationsTask(data), ids.knowledge)
  }

  /** The parameters a tool POST carries. */
  function Params(p: Post): Value {
    McpService.ParamsArg(p.request.params.payload)
  }

  /**
   * What a client gets back from a tool POST the tool service serves: the
   * tool's result under `tool_result`, or `{}` when the tool raised.
   */
  lemma {:induction false} ServedToolWrapped(
    registry: ToolRegistry.Registry, transport: TaskTransport, p: Post, name: string, tool: ToolRegistry.Handler)
    requires registry.Valid() && ServedBy(registry, transport, p)
    requires p.request.params.taskType == "execute_tool"
    requires McpService.ToolArg(p.request.params.payload) == Str(name) && Runs(registry, name, tool)
    ensures Unwrap(transport, p).Ok?
    ensures tool(Params(p)).Ok? ==> Unwrap(transport, p).value == map["tool_result" := Obj(tool(Params(p)).value)]
    ensures tool(Params(p)).Err? ==> Unwrap(transport, p).value == map[]
  {
    var reply := McpService.HandleTask(registry, p.request);
    assert registry.ExecuteTool(Str(name), Params(p)) == tool(Params(p));
    if tool(Params(p)).Err? {
      assert reply.error.Some?;
      assert reply.result.None?;
    }
  }

  // ----- As written -----

  /**
   * As written, whatever the tool service answers to the documents POST, the
   * agent's result has no `valid` key; so whatever the compliance side
   * returns, the approval is `False`.
   */
  lemma AsWrittenDocumentsNeverValid(
    registry: ToolRegistry.Registry, transport: TaskTransport, p: Post, check: Object)
    requires registry.Valid() && ServedBy(registry, transport, p)
    requires p.request.params.taskType == "execute_tool"
    ensures Unwrap(transport, p).Ok?
    ensures "valid" !in Unwrap(transport, p).value
    ensures Orchestration.Approval(Unwrap(transport, p).value, check) == Ok(Bool(false))
  {
    var reply := McpService.HandleTask(registry, p.request);
    assert reply.result.Some? ==> reply.result.value.result.Keys == {"tool_result"};
  }

  /**
   * As written, every result the `/orchestrate` endpoint reports has
   * `approved` false once the tool service serves the documents POST.
   */
  lemma AsWrittenNeverApproved(
    settings: OrchestratorService.Settings, transport: TaskTransport, ids: OrchestratorService.RequestIds,
    registry: ToolRegistry.Registry, data: Object, result: Object)
    requires registry.Valid() && ServedBy(registry, transport, DocumentsPost(settings, ids, data))
    requires OrchestratorService.DocumentsOutcome(settings, transport, ids, data).Ok?
    requires OrchestratorService.ComplianceOutcome(settings, transport, ids, data).Ok?
    requires OrchestratorService.Reports(result, data,
      OrchestratorService.DocumentsOutcome(settings, transport, ids, data).value,
      OrchestratorService.ComplianceOutcome(settings, transport, ids, data).value)
    ensures result["approved"] == Bool(false)
  {
    assert OrchestratorService.DocumentsOutcome(settings, transport, ids, data)
      == Unwrap(transport, DocumentsPost(settings, ids, data));
    AsWrittenDocumentsNeverValid(registry, transport, DocumentsPost(settings, ids, data),
      OrchestratorService.ComplianceOutcome(settings, transport, ids, data).value);
  }

  /**
   * The shipment `/orchestrate` prepares has the full document list and is a
   * general shipment: the documents tool itself answers `valid: true` for it,
   * and yet the reported approval is false.
   */
  lemma PreparedShipmentRejected(
    settings: OrchestratorService.Settings, transport: TaskTransport, ids: OrchestratorService.RequestIds,
    registry: ToolRegistry.Registry, record: Object, shipmentId: string, country: string,
    data: Object, result: Object)
    requires OrchestratorService.Prepared(data, record, shipmentId, country)
    requires registry.Valid() && ServedBy(registry, transport, DocumentsPost(settings, ids, data))
    requires Runs(registry, "validate_customs_documentation", SupplyChainTools.ValidateCustomsDocumentation)
    requires OrchestratorService.DocumentsOutcome(settings, transport, ids, data).Ok?
    requires OrchestratorService.ComplianceOutcome(settings, transport, ids, data).Ok?
    requires OrchestratorService.Reports(result, data,
      OrchestratorService.DocumentsOutcome(settings, transport, ids, data).value,
      OrchestratorService.ComplianceOutcome(settings, transport, ids, data).value)
    ensures
      var answer := SupplyChainTools.ValidateCustomsDocumentation(Params(DocumentsPost(settings, ids, data)));
      answer.Ok? && answer.value["valid"] == Bool(true)
    ensures result["approved"] == Bool(false)
  {
    OrchestratorService.PreparedPassesTools(data);
    AsWrittenNeverApproved(settings, transport, ids, registry, data, result);
  }

  // ----- Corrected -----

  /** The tool's own result out of a tool reply's inner result; `{}` when there is none. */
  function ToolResult(inner: Object): Object {
    if "tool_result" in inner && inner["tool_result"].Obj? then inner["tool_result"].fields else map[]
  }

  /** The documents step with the tool's result unwrapped. */
  function FixedDocumentsOutcome(
    settings: OrchestratorService.Settings, transport: TaskTransport, ids: OrchestratorService.RequestIds, s: Object
  ): Result<Object, PyError> {
    var doc :- OrchestratorService.DocumentsOutcome(settings, transport, ids, s);
    Ok(ToolResult(doc))
  }

  /** The compliance step with the status tool's result unwrapped under `compliance_check`. */
  function FixedComplianceOutcome(
    settings: OrchestratorService.Settings, transport: TaskTransport, ids: OrchestratorService.RequestIds, s: Object
  ): Result<Object, PyError> {
    var c :- OrchestratorService.ComplianceOutcome(settings, transport, ids, s);
    var check := GetOr(c, "compliance_check", Obj(map[]));
    Ok(c["compliance_check" := Obj(if check.Obj? then ToolResult(check.fields) else map[])])
  }

  /** The two corrected compliance-side calls, as routine steps. */
  function FixedDocumentsStep(
    settings: OrchestratorService.Settings, transport: TaskTransport, ids: OrchestratorService.RequestIds
  ): Orchestration.Step {
    (s: Object) => FixedDocumentsOutcome(settings, transport, ids, s)
  }

  function FixedComplianceStep(
    settings: OrchestratorService.Settings, transport: TaskTransport, ids: OrchestratorService.RequestIds
  ): Orchestration.Step {
    (s: Object) => FixedComplianceOutcome(settings, transport, ids, s)
  }

  /** No required document is missing from the shipment's `documents` (default `[]`). */
  predicate DocumentsComplete(data: Object) {
    SupplyChainTools.Missing(SupplyChainTools.RequiredDocuments, GetOr(data, "documents", Arr([]))) == Ok([])
  }

  /** The shipment's `type` (default `general`) is `hazmat`. */
  predicate Hazmat(data: Object) {
    Compliance.ShipmentType(data) == Str("hazmat")
  }

  /** The documents step reads the tool service's reply to the documents POST. */
  lemma DocumentsOutcomeIsReply(
    settings: OrchestratorService.Settings, transport: TaskTransport, ids: OrchestratorService.RequestIds, data: Object)
    ensures OrchestratorService.DocumentsOutcome(settings, transport, ids, data)
      == Unwrap(transport, DocumentsPost(settings, ids, data))
  {
  }

  /** The documents POST carries the shipment's `documents` (default `[]`) as its only parameter. */
  lemma DocumentsParams(settings: OrchestratorService.Settings, ids: OrchestratorService.RequestIds, data: Object)
    ensures Params(DocumentsPost(settings, ids, data)) == Obj(map["documents" := GetOr(data, "documents", Arr([]))])
  {
  }

  /**
   * Once the knowledge POST is answered and the status POST unwraps, the
   * compliance step succeeds and holds the status reply under `compliance_check`.
   */
  lemma ComplianceOutcomeIsReply(
    settings: OrchestratorService.Settings, transport: TaskTransport, ids: OrchestratorService.RequestIds, data: Object)
    requires Unwrap(transport, KnowledgePost(settings, ids, data)).Ok?
    requires Unwrap(transport, StatusPost(settings, ids, data)).Ok?
    ensures
      var c := OrchestratorService.ComplianceOutcome(settings, transport, ids, data);
      c.Ok? && "compliance_check" in c.value
      && c.value["compliance_check"] == Obj(Unwrap(transport, StatusPost(settings, ids, data)).value)
  {
  }

  /** The status POST carries the shipment's type (default `general`) as `shipment_type`. */
  lemma StatusParams(settings: OrchestratorService.Settings, ids: OrchestratorService.RequestIds, data: Object)
    ensures Params(StatusPost(settings, ids, data)).Obj?
    ensures GetOr(Params(StatusPost(settings, ids, data)).fields, "shipment_type", Str("general"))
      == Compliance.ShipmentType(data)
  {
  }

  /** The unwrapped result of a tool POST the tool service serves: the tool's result, or `{}` when it raised. */
  lemma ServedToolResult(
    registry: ToolRegistry.Registry, transport: TaskTransport, p: Post, name: string, tool: ToolRegistry.Handler)
    requires registry.Valid() && ServedBy(registry, transport, p)
    requires p.request.params.taskType == "execute_tool"
    requires McpService.ToolArg(p.request.params.payload) == Str(name) && Runs(registry, name, tool)
    ensures Unwrap(transport, p).Ok?
    ensures ToolResult(Unwrap(transport, p).value) == if tool(Params(p)).Ok? then tool(Params(p)).value else map[]
  {
    ServedToolWrapped(registry, transport, p, name, tool);
  }

  /** With the unwrapping, the documentation step gives the documents tool's own verdict. */
  lemma FixedDocumentsValid(
    settings: OrchestratorService.Settings, transport: TaskTransport, ids: OrchestratorService.RequestIds,
    registry: ToolRegistry.Registry, data: Object)
    requires registry.Valid() && ServedBy(registry, transport, DocumentsPost(settings, ids, data))
    requires Runs(registry, "validate_customs_documentation", SupplyChainTools.ValidateCustomsDocumentation)
    ensures FixedDocumentsOutcome(settings, transport, ids, data).Ok?
    ensures GetOr(FixedDocumentsOutcome(settings, transport, ids, data).value, "valid", Bool(false))
      == Bool(DocumentsComplete(data))
  {
    var p := DocumentsPost(settings, ids, data);
    DocumentsParams(settings, ids, data);
    DocumentsOutcomeIsReply(settings, transport, ids, data);
    assert p.request.params.taskType == "execute_tool";
    assert McpService.ToolArg(p.request.params.payload) == Str("validate_customs_documentation");
    ServedToolResult(registry, transport, p, "validate_customs_documentation",
      SupplyChainTools.ValidateCustomsDocumentation);
  }

  /** With the unwrapping, the compliance check is the status tool's own verdict. */
  lemma FixedComplianceValid(
    settings: OrchestratorService.Settings, transport: TaskTransport, ids: OrchestratorService.RequestIds,
    registry: ToolRegistry.Registry, data: Object)
    requires Unwrap(transport, KnowledgePost(settings, ids, data)).Ok?
    requires registry.Valid() && ServedBy(registry, transport, StatusPost(settings, ids, data))
    requires Runs(registry, "check_compliance_status", SupplyChainTools.CheckComplianceStatus)
    ensures FixedComplianceOutcome(settings, transport, ids, data).Ok?
    ensures
      var check := GetOr(FixedComplianceOutcome(settings, transport, ids, data).value, "compliance_check", Obj(map[]));
      check.Obj? && GetOr(check.fields, "compliant", Bool(false)) == Bool(!Hazmat(data))
  {
    var p := StatusPost(settings, ids, data);
    StatusParams(settings, ids, data);
    assert p.request.params.taskType == "execute_tool";
    assert McpService.ToolArg(p.request.params.payload) == Str("check_compliance_status");
    ServedToolResult(registry, transport, p, "check_compliance_status", SupplyChainTools.CheckComplianceStatus);
    ComplianceOutcomeIsReply(settings, transport, ids, data);
  }

  /**
   * With the unwrapping, and the two tools served by the tool service, a
   * shipment is approved exactly when its documents are complete and it is
   * not hazmat.
   */
  lemma CorrectedApproval(
    settings: OrchestratorService.Settings, transport: TaskTransport, ids: OrchestratorService.RequestIds,
    registry: ToolRegistry.Registry, data: Object)
    requires Unwrap(transport, KnowledgePost(settings, ids, data)).Ok?
    requires registry.Valid()
    requires ServedBy(registry, transport, DocumentsPost(settings, ids, data))
    requires ServedBy(registry, transport, StatusPost(settings, ids, data))
    requires Runs(registry, "validate_customs_documentation", SupplyChainTools.ValidateCustomsDocumentation)
    requires Runs(registry, "check_compliance_status", SupplyChainTools.CheckComplianceStatus)
    ensures FixedDocumentsOutcome(settings, transport, ids, data).Ok?
    ensures FixedComplianceOutcome(settings, transport, ids, data).Ok?
    ensures Orchestration.Approval(
      FixedDocumentsOutcome(settings, transport, ids, data).value,
      FixedComplianceOutcome(settings, transport, ids, data).value)
      == Ok(Bool(DocumentsComplete(data) && !Hazmat(data)))
  {
    FixedDocumentsValid(settings, transport, ids, registry, data);
    FixedComplianceValid(settings, transport, ids, registry, data);
  }

  /**
   * `/orchestrate` with the unwrapping: the same preparation and routine, with
   * the two compliance-side steps reading the tools' own results.
   */
  method FixedOrchestrateShipment(
    settings: OrchestratorService.Settings, record: Object, shipmentId: string, country: string,
    transport: TaskTransport, ids: OrchestratorService.RequestIds)
    returns (data: Object, events: seq<Orchestration.Event>, calls: seq<string>, outcome: Result<Object, PyError>)
    ensures OrchestratorService.Prepared(data, record, shipmentId, country)
    ensures Orchestration.Traced(data, OrchestratorService.ShippingStep(settings, transport, ids),
      FixedDocumentsStep(settings, transport, ids), FixedComplianceStep(settings, transport, ids), events, calls, outcome)
    ensures events != [] && events[0].eventType == "shipment_processing_started"
    ensures
      var logistics := OrchestratorService.ShippingOutcome(settings, transport, ids, data);
      var doc := FixedDocumentsOutcome(settings, transport, ids, data);
      var check := FixedComplianceOutcome(settings, transport, ids, data);
      && (outcome.Ok? <==> logistics.Ok? && doc.Ok? && check.Ok? && Orchestration.Approval(doc.value, check.value).Ok?)
      && (outcome.Ok? ==> doc.Ok? && check.Ok? && OrchestratorService.Reports(outcome.value, data, doc.value, check.value))
  {
    data := OrchestratorService.PrepareShipment(record, shipmentId, country);
    events, calls, outcome := OrchestratorService.RunRoutine(data, OrchestratorService.ShippingStep(settings, transport, ids),
      FixedDocumentsStep(settings, transport, ids), FixedComplianceStep(settings, transport, ids));
  }

  /** With the unwrapping, the shipment `/orchestrate` prepares is approved. */
  lemma FixedPreparedApproved(
    settings: OrchestratorService.Settings, transport: TaskTransport, ids: OrchestratorService.RequestIds,
    registry: ToolRegistry.Registry, record: Object, shipmentId: string, country: string,
    data: Object, result: Object)
    requires OrchestratorService.Prepared(data, record, shipmentId, country)
    requires Unwrap(transport, KnowledgePost(settings, ids, data)).Ok?
    requires registry.Valid()
    requires ServedBy(registry, transport, DocumentsPost(settings, ids, data))
    requires ServedBy(registry, transport, StatusPost(settings, ids, data))
    requires Runs(registry, "validate_customs_documentation", SupplyChainTools.ValidateCustomsDocumentation)
    requires Runs(registry, "check_compliance_status", SupplyChainTools.CheckComplianceStatus)
    requires FixedDocumentsOutcome(settings, transport, ids, data).Ok?
    requires FixedComplianceOutcome(settings, transport, ids, data).Ok?
    requires OrchestratorService.Reports(result, data,
      FixedDocumentsOutcome(settings, transport, ids, data).value,
      FixedComplianceOutcome(settings, transport, ids, data).value)
    ensures result["approved"] == Bool(true)
  {
    CorrectedApproval(settings, transport, ids, registry, data);
    OrchestratorService.PreparedPassesTools(data);
    FixedDocumentsValid(settings, transport, ids, registry, data);
  }
}
