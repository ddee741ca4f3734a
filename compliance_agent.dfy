/**
 * The compliance agent: asks the tool service to check documents and
 * regulations, and the knowledge agent for the relevant regulations.
 */
module Compliance {
  import opened Wrappers
  import opened Json
  import opened Protocol
  import opened AgentClient

  /** The documents tool task: the shipment's `documents`, `[]` when absent. */
  function DocumentsTask(shipment: Object): TaskRequest {
    ToolTask("validate_customs_documentation", map["documents" := GetOr(shipment, "documents", Arr([]))])
  }

  function ShipmentType(shipment: Object): Value {
    GetOr(shipment, "type", Str("general"))
  }

  function DestinationCountry(shipment: Object): Value {
    GetOr(shipment, "destination_country", Str("US"))
  }

  /** The natural-language question put to the knowledge agent. */
  function RegulationsQuery(shipment: Object): string {
    "compliance requirements for " + Format(ShipmentType(shipment))
      + " shipment to " + Format(DestinationCountry(shipment))
  }

  function RegulationsTask(shipment: Object): TaskRequest {
    KnowledgeTask(RegulationsQuery(shipment), 3)
  }

  function StatusTask(shipment: Object): TaskRequest {
    ToolTask("check_compliance_status", map[
      "shipment_type" := ShipmentType(shipment),
      "destination_country" := DestinationCountry(shipment)])
  }

  datatype ComplianceAgent = ComplianceAgent(
    agentId: string,
    orchestratorUrl: string,
    mcpToolUrl: string,
    ragAgentUrl: string)
  {
    /** The descriptor the agent presents: type compliance, two capabilities, no endpoint. */
    function Info(): (info: AgentInfo)
      ensures info.agentId == agentId && info.agentType == Compliance
      ensures info.name == "Compliance Agent" && info.version == "0.1.0"
      ensures info.endpoint == "" && info.status == "active"
      ensures |info.capabilities| == 2
      ensures info.capabilities[0].name == "validate_documentation"
      ensures info.capabilities[0].description == "Validate customs and compliance documentation"
      ensures info.capabilities[1].name == "check_regulations"
      ensures info.capabilities[1].description == "Check compliance with regulations"
      ensures forall i :: 0 <= i < 2 ==> info.capabilities[i].parameters == map[] && !info.capabilities[i].requiresAuth
    {
      AgentInfo(
        agentId := agentId,
        agentType := Compliance,
        name := "Compliance Agent",
        version := "0.1.0",
        capabilities := [
          AgentCapability("validate_documentation", "Validate customs and compliance documentation"),
          AgentCapability("check_regulations", "Check compliance with regulations")],
        endpoint := "")
    }

    /** Sends the shipment's documents to the documents tool and returns its inner result. */
    function ValidateDocumentation(shipment: Object, transport: TaskTransport, requestId: string): (e: Exchange)
      ensures e.posts == [TaskPost(mcpToolUrl, DocumentsTask(shipment), requestId)]
      ensures e.outcome == Unwrap(transport, e.posts[0])
    {
      Single(transport, TaskPost(mcpToolUrl, DocumentsTask(shipment), requestId))
    }

    /**
     * Asks the knowledge agent first and the status tool second, and returns
     * `{"compliance_check": …, "knowledge_base": …}`.
     */
    function CheckCompliance(shipment: Object, transport: TaskTransport, ragId: string, toolId: string): (e: Exchange)
      ensures 1 <= |e.posts| <= 2
      ensures e.posts[0] == TaskPost(ragAgentUrl, RegulationsTask(shipment), ragId)
      ensures |e.posts| == 2 ==> e.posts[1] == TaskPost(mcpToolUrl, StatusTask(shipment), toolId)
      ensures e.outcome.Ok? ==> |e.posts| == 2 && e.outcome.value.Keys == {"compliance_check", "knowledge_base"}
      ensures e.outcome.Ok? ==>
        && Unwrap(transport, e.posts[0]).Ok? && Unwrap(transport, e.posts[1]).Ok?
        && e.outcome.value["knowledge_base"] == Obj(Unwrap(transport, e.posts[0]).value)
        && e.outcome.value["compliance_check"] == Obj(Unwrap(transport, e.posts[1]).value)
      ensures Unwrap(transport, e.posts[0]).Err? ==> |e.posts| == 1 && e.outcome.Err?
    {
      Pair(transport,
        TaskPost(ragAgentUrl, RegulationsTask(shipment), ragId),
        TaskPost(mcpToolUrl, StatusTask(shipment), toolId),
        "knowledge_base", "compliance_check")
    }

    /** Sends the query unchanged, asking for five results, and returns the inner result. */
    function GetComplianceGuidance(query: string, transport: TaskTransport, requestId: string): (e: Exchange)
      ensures |e.posts| == 1 && e.posts[0].url == TaskUrl(ragAgentUrl)
      ensures e.posts[0].request.params == KnowledgeTask(query, 5)
      ensures e.outcome == Unwrap(transport, e.posts[0])
    {
      Single(transport, TaskPost(ragAgentUrl, KnowledgeTask(query, 5), requestId))
    }
  }

  /**
   * Without `type` and `destination_country` the shipment is asked about as
   * general, to the US; without `documents` it presents none.
   */
  lemma ComplianceDefaults(shipment: Object)
    requires "type" !in shipment && "destination_country" !in shipment
    ensures RegulationsQuery(shipment) == "compliance requirements for general shipment to US"
    ensures StatusTask(shipment).payload["parameters"]
      == Obj(map["shipment_type" := Str("general"), "destination_country" := Str("US")])
    ensures "documents" !in shipment ==>
      DocumentsTask(shipment).payload["parameters"] == Obj(map["documents" := Arr([])])
  {
  }

  /**
   * When the status tool answers without a result (an error reply, say), the
   * compliance check is `{}` rather than a failure.
   */
  lemma StatusErrorGivesEmptyCheck(
    agent: ComplianceAgent, shipment: Object, transport: TaskTransport, ragId: string, toolId: string, e: PyError)
    requires Unwrap(transport, TaskPost(agent.ragAgentUrl, RegulationsTask(shipment), ragId)).Ok?
    requires Answer(transport, TaskPost(agent.mcpToolUrl, StatusTask(shipment), toolId)) == Ok(ErrorReply(toolId, e))
    ensures
      var ex := agent.CheckCompliance(shipment, transport, ragId, toolId);
      ex.outcome.Ok? && ex.outcome.value["compliance_check"] == Obj(map[])
  {
    ErrorReplyUnwrapsEmpty(transport, TaskPost(agent.mcpToolUrl, StatusTask(shipment), toolId), e);
  }
}
