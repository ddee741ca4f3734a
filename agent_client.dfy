/**
 * How the orchestrator's domain agents call the other services: each call
 * wraps a task in a fresh envelope, POSTs it to `<service>/a2a/task`, parses
 * the reply, and keeps the inner task result, or `{}` when the reply has none.
 * A call that fails at the transport raises, and the calls after it are not made.
 */
module AgentClient {
  import opened Wrappers
  import opened Json
  import opened Protocol

  /** One POST a client made: the URL and the envelope it sent. */
  datatype Post = Post(url: string, request: Request<TaskRequest>)

  /** The POSTs a client operation made, in order, and what it returned or raised. */
  datatype Exchange = Exchange(posts: seq<Post>, outcome: Result<Object, PyError>)

  /** The task that asks the tool service to run one tool. */
  function ToolTask(toolName: string, parameters: Object): (t: TaskRequest)
    ensures t.taskType == "execute_tool" && t.correlationId == None
    ensures t.payload.Keys == {"tool_name", "parameters"}
    ensures t.payload["tool_name"] == Str(toolName) && t.payload["parameters"] == Obj(parameters)
  {
    TaskRequest("execute_tool", map["tool_name" := Str(toolName), "parameters" := Obj(parameters)])
  }

  /** The task that asks the knowledge agent for the `nResults` closest documents. */
  function KnowledgeTask(query: string, nResults: int): (t: TaskRequest)
    ensures t.taskType == "query_knowledge" && t.correlationId == None
    ensures t.payload.Keys == {"query", "n_results"}
    ensures t.payload["query"] == Str(query) && t.payload["n_results"] == Int(nResults)
  {
    TaskRequest("query_knowledge", map["query" := Str(query), "n_results" := Int(nResults)])
  }

  /** The POST of `task` to the task endpoint of `baseUrl`, under id `freshId`. */
  function TaskPost(baseUrl: string, task: TaskRequest, freshId: string): (p: Post)
    ensures p.url == TaskUrl(baseUrl) && p.request.methodName == "task"
    ensures p.request.params == task && p.request.id == freshId
  {
    Post(TaskUrl(baseUrl), TaskEnvelope(task, freshId))
  }

  /** What the transport answers to a POST. */
  function Answer(transport: TaskTransport, p: Post): Result<Response<TaskResponse>, PyError> {
    transport(p.url, p.request)
  }

  /** What a POST contributes to the caller's result: the inner result, `{}`, or the raised error. */
  function Unwrap(transport: TaskTransport, p: Post): (r: Result<Object, PyError>)
    ensures r.Err? <==> Answer(transport, p).Err?
    ensures r.Err? ==> r.error == Answer(transport, p).error
    ensures r.Ok? && Answer(transport, p).value.result.None? ==> r.value == map[]
    ensures r.Ok? && Answer(transport, p).value.result.Some? ==>
      r.value == Answer(transport, p).value.result.value.result
  {
    var reply :- Answer(transport, p);
    Ok(InnerResult(reply))
  }

  /** An operation that makes one call and returns its inner result. */
  function Single(transport: TaskTransport, p: Post): (e: Exchange)
    ensures e.posts == [p]
    ensures e.outcome == Unwrap(transport, p)
  {
    Exchange([p], Unwrap(transport, p))
  }

  /**
   * An operation that makes two calls in order and returns the two inner results
   * under `firstKey` and `secondKey`. The second call is not made when the first raises.
   */
  function Pair(transport: TaskTransport, first: Post, second: Post, firstKey: string, secondKey: string): (e: Exchange)
    requires firstKey != secondKey
    ensures Unwrap(transport, first).Err? ==>
      e.posts == [first] && e.outcome == Err(Unwrap(transport, first).error)
    ensures Unwrap(transport, first).Ok? ==> e.posts == [first, second]
    ensures e.outcome.Ok? <==> Unwrap(transport, first).Ok? && Unwrap(transport, second).Ok?
    ensures e.outcome.Ok? ==>
      && e.outcome.value.Keys == {firstKey, secondKey}
      && e.outcome.value[firstKey] == Obj(Unwrap(transport, first).value)
      && e.outcome.value[secondKey] == Obj(Unwrap(transport, second).value)
    ensures Unwrap(transport, first).Ok? && Unwrap(transport, second).Err? ==>
      e.outcome == Err(Unwrap(transport, second).error)
  {
    match Unwrap(transport, first)
    case Err(e) => Exchange([first], Err(e))
    case Ok(a) =>
      match Unwrap(transport, second)
      case Err(e) => Exchange([first, second], Err(e))
      case Ok(b) => Exchange([first, second], Ok(map[firstKey := Obj(a), secondKey := Obj(b)]))
  }

  /** The tool a POST asks for, when it is a tool task. */
  function ToolName(p: Post): Option<Value> {
    if "tool_name" in p.request.params.payload then Some(p.request.params.payload["tool_name"]) else None
  }

  /** A reply without a result (for instance an error reply) counts as `{}`, never as a failure. */
  lemma ErrorReplyUnwrapsEmpty(transport: TaskTransport, p: Post, e: PyError)
    requires Answer(transport, p) == Ok(ErrorReply(p.request.id, e))
    ensures Unwrap(transport, p) == Ok(map[])
  {
  }
}
