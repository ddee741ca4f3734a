/**
 * The agent-to-agent protocol: JSON-RPC 2.0 style envelopes and the payloads
 * carried in them. Default values are the ones the record declarations give.
 */
module Protocol {
  import opened Wrappers
  import opened Json

  /** The closed set of agent kinds, with the string each one is sent as. */
  datatype AgentType = Orchestrator | Logistics | Compliance | Rag | McpTool {
    function Wire(): string {
      match this
      case Orchestrator => "orchestrator"
      case Logistics => "logistics"
      case Compliance => "compliance"
      case Rag => "rag"
      case McpTool => "mcp_tool"
    }
  }

  /** Reading an agent type back from its wire string; anything else is refused. */
  function ParseAgentType(s: string): (r: Option<AgentType>)
    ensures r.Some? ==> r.value.Wire() == s
    ensures forall t: AgentType :: t.Wire() == s ==> r == Some(t)
  {
    if s == "orchestrator" then Some(Orchestrator)
    else if s == "logistics" then Some(Logistics)
    else if s == "compliance" then Some(Compliance)
    else if s == "rag" then Some(Rag)
    else if s == "mcp_tool" then Some(McpTool)
    else None
  }

  /** The JSON-RPC error object. */
  datatype A2AError = A2AError(code: int, message: string, data: Option<Object> := None)

  /** The error code every handler uses for an exception it caught. */
  const ServerErrorCode: int := -32000

  datatype AgentCapability = AgentCapability(
    name: string,
    description: string,
    parameters: Object := map[],
    requiresAuth: bool := false)

  datatype AgentInfo = AgentInfo(
    agentId: string,
    agentType: AgentType,
    name: string,
    version: string,
    capabilities: seq<AgentCapability>,
    endpoint: string,
    status: string := "active")

  datatype Request<T> = Request(jsonrpc: string := "2.0", methodName: string, params: T, id: string)

  /** Nothing in the declaration ties `result` to `error`: both, one or neither may be present. */
  datatype Response<T> = Response(
    jsonrpc: string := "2.0",
    result: Option<T> := None,
    error: Option<A2AError> := None,
    id: string)

  datatype HandshakeRequest = HandshakeRequest(agentInfo: AgentInfo, protocolVersion: string := "1.0")

  datatype HandshakeResponse = HandshakeResponse(
    agentInfo: AgentInfo,
    accepted: bool,
    sessionId: string,
    message: Option<string> := None)

  datatype DiscoverRequest = DiscoverRequest(agentType: Option<AgentType> := None, capability: Option<string> := None)

  datatype DiscoverResponse = DiscoverResponse(agents: seq<AgentInfo>)

  datatype TaskRequest = TaskRequest(taskType: string, payload: Object, correlationId: Option<string> := None)

  datatype TaskResponse = TaskResponse(
    taskType: string,
    result: Object,
    status: string,
    correlationId: Option<string> := None)

  /** A session; `lastActivity` is the one field that is updated after creation. */
  datatype A2ASession = A2ASession(
    sessionId: string,
    initiator: AgentInfo,
    responder: AgentInfo,
    establishedAt: string,
    lastActivity: string)

  /** Exactly one of result and error: what every handler produces, though the type does not demand it. */
  predicate WellFormed<T>(r: Response<T>) {
    r.result.Some? != r.error.Some?
  }

  /** A request with its declared defaults; `freshId` stands for the generated `uuid4` text. */
  function NewRequest<T>(methodName: string, params: T, freshId: string): (r: Request<T>)
    ensures r.jsonrpc == "2.0" && r.methodName == methodName && r.params == params && r.id == freshId
  {
    Request(methodName := methodName, params := params, id := freshId)
  }

  /** A successful response answering the request with id `id`. */
  function Reply<T>(id: string, result: T): (r: Response<T>)
    ensures WellFormed(r) && r.jsonrpc == "2.0" && r.id == id && r.result == Some(result)
  {
    Response(result := Some(result), id := id)
  }

  /** The success envelope of every task handler: task type and correlation id echoed, under the request's id. */
  function TaskReply(request: Request<TaskRequest>, result: Object, status: string): (r: Response<TaskResponse>)
    ensures WellFormed(r) && r.id == request.id
    ensures r.result == Some(TaskResponse(request.params.taskType, result, status, request.params.correlationId))
  {
    Reply(request.id, TaskResponse(request.params.taskType, result, status, request.params.correlationId))
  }

  /** The error response every handler returns for a caught exception. */
  function ErrorReply<T>(id: string, e: PyError): (r: Response<T>)
    ensures WellFormed(r) && r.jsonrpc == "2.0" && r.id == id && r.result == None
    ensures r.error == Some(A2AError(ServerErrorCode, e.message, None))
  {
    Response(error := Some(A2AError(ServerErrorCode, e.message)), id := id)
  }

  /** The response type admits envelopes with neither part and with both parts. */
  lemma ResponseAdmitsMalformed(id: string, t: TaskResponse, e: A2AError)
    ensures !WellFormed(Response<TaskResponse>.Response(id := id))
    ensures !WellFormed(Response<TaskResponse>.Response(result := Some(t), error := Some(e), id := id))
  {
  }

  /** The defaults the record declarations give. */
  lemma Defaults(name: string, description: string, info: AgentInfo, taskType: string, payload: Object)
    ensures AgentCapability(name, description).parameters == map[]
    ensures !AgentCapability(name, description).requiresAuth
    ensures HandshakeRequest(info).protocolVersion == "1.0"
    ensures TaskRequest(taskType, payload).correlationId == None
    ensures TaskResponse(taskType, payload, "completed").correlationId == None
    ensures DiscoverRequest().agentType == None && DiscoverRequest().capability == None
  {
  }

  /** A task envelope as every client builds it: method "task", a fresh id. */
  function TaskEnvelope(task: TaskRequest, freshId: string): (r: Request<TaskRequest>)
    ensures r.methodName == "task" && r.params == task && r.id == freshId && r.jsonrpc == "2.0"
  {
    NewRequest("task", task, freshId)
  }

  /** The result a task client extracts: `response.result.result if response.result else {}`. */
  function InnerResult(response: Response<TaskResponse>): (r: Object)
    ensures response.result.None? ==> r == map[]
    ensures response.result.Some? ==> r == response.result.value.result
  {
    if response.result.Some? then response.result.value.result else map[]
  }

  /** A remote task call: HTTP POST of an envelope to a URL, giving the parsed reply or raising. */
  type TaskTransport = (string, Request<TaskRequest>) -> Result<Response<TaskResponse>, PyError>

  /** The task endpoint of a service. */
  function TaskUrl(baseUrl: string): string {
    baseUrl + "/a2a/task"
  }

  /** The handshake endpoint of a service. */
  function HandshakeUrl(baseUrl: string): string {
    baseUrl + "/a2a/handshake"
  }
}
