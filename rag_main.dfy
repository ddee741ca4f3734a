/**
 * The knowledge agent's entry points: the task endpoint, the plain `/query`
 * endpoint, the startup seeding of the knowledge base and the capability it
 * advertises. The vector store is a list of documents; the similarity search
 * over it is a parameter, since the store's ranking cannot be seen.
 */
module RagService {
  import opened Wrappers
  import opened Json
  import opened Protocol
  import AgentClient
  import Compliance
  import Http

  /** The service's configuration defaults. */
  datatype Settings = Settings(
    serviceName: string := "supply-chain-rag-agent",
    serviceVersion: string := "0.1.0",
    host: string := "0.0.0.0",
    port: nat := 8001,
    agentId: string := "rag-agent-001",
    orchestratorUrl: string := "http://localhost:8000")

  /** One stored document with its metadata. */
  datatype Document = Document(text: string, metadata: Object)

  /**
   * The store's `query(query_text, n_results, where)` over the stored documents:
   * the search result, or what it raised. The query and count are passed as the
   * task carried them, so they need not be a string and an integer.
   */
  type Search = (seq<Document>, Value, Value, Option<Object>) -> Result<Object, PyError>

  const NotInitialised: string := "ChromaDB service not initialized"

  const SeedTexts: seq<string> := [
    "International shipping regulations require proper customs documentation including commercial invoice, packing list, and certificate of origin.",
    "Hazardous materials must be classified according to UN numbers and require special handling and documentation.",
    "Cross-border shipments must comply with import/export regulations including tariffs, duties, and trade agreements.",
    "Temperature-sensitive goods require controlled environment shipping with monitoring systems.",
    "Last-mile delivery optimization can reduce costs by 15-20% through route planning and consolidation.",
    "Supply chain visibility improves customer satisfaction and reduces support inquiries by 40%.",
    "Compliance with CTPAT (Customs-Trade Partnership Against Terrorism) provides expedited customs processing.",
    "Electronic data interchange (EDI) enables automated document exchange between supply chain partners."]

  const SeedMetadata: seq<Object> := [
    map["category" := Str("compliance"), "region" := Str("international")],
    map["category" := Str("compliance"), "type" := Str("hazmat")],
    map["category" := Str("compliance"), "region" := Str("cross-border")],
    map["category" := Str("logistics"), "type" := Str("cold-chain")],
    map["category" := Str("logistics"), "optimization" := Str("routing")],
    map["category" := Str("logistics"), "metric" := Str("visibility")],
    map["category" := Str("compliance"), "program" := Str("ctpat")],
    map["category" := Str("logistics"), "technology" := Str("edi")]]

  /** `add_documents(documents, metadatas)`: each text is stored with the metadata at the same position. */
  function AddDocuments(store: seq<Document>, texts: seq<string>, metadatas: seq<Object>): (r: seq<Document>)
    requires |texts| == |metadatas|
    ensures |r| == |store| + |texts|
    ensures r[..|store|] == store
    ensures forall i :: 0 <= i < |texts| ==> r[|store| + i] == Document(texts[i], metadatas[i])
  {
    store + seq(|texts|, i requires 0 <= i < |texts| => Document(texts[i], metadatas[i]))
  }

  /** The metadata category a document is filed under, when it has a string one. */
  predicate InCategory(d: Document, category: string) {
    "category" in d.metadata && d.metadata["category"] == Str(category)
  }

  /** Exactly the eight seed texts, each with the metadata at its position. */
  predicate IsSeed(docs: seq<Document>) {
    |docs| == 8 && forall i :: 0 <= i < 8 ==> docs[i] == Document(SeedTexts[i], SeedMetadata[i])
  }

  /** Eight texts with eight metadata entries; each is filed under compliance or logistics, four of each. */
  lemma SeedShape()
    ensures |SeedTexts| == |SeedMetadata| == 8
    ensures forall i :: 0 <= i < 8 ==>
      "category" in SeedMetadata[i]
      && SeedMetadata[i]["category"] == Str(if i in {0, 1, 2, 6} then "compliance" else "logistics")
  {
  }

  /** `{"category": category} if category else None`: a filter only for a non-empty category. */
  function CategoryFilter(category: Option<string>): (where: Option<Object>)
    ensures where.Some? <==> category.Some? && category.value != ""
    ensures where.Some? ==> where.value == map["category" := Str(category.value)]
  {
    if category.Some? && category.value != "" then Some(map["category" := Str(category.value)]) else None
  }

  /** A document matches a filter exactly when there is none, or it is filed under the requested category. */
  lemma FilterMatches(d: Document, category: Option<string>)
    ensures var where := CategoryFilter(category);
      (where.None? || (forall k :: k in where.value ==> k in d.metadata && d.metadata[k] == where.value[k]))
      <==> (category.None? || category.value == "" || InCategory(d, category.value))
  {
    var where := CategoryFilter(category);
    if where.Some? {
      assert "category" in where.value;
    }
  }

  /** The body of `/query`: `query`, `n_results` (default 5) and an optional `category`. */
  datatype QueryRequest = QueryRequest(query: string, nResults: int := 5, category: Option<string> := None)

  /** The search text a task asks for: `payload.get("query", "")`. */
  function QueryArg(payload: Object): Value {
    GetOr(payload, "query", Str(""))
  }

  /** The result count a task asks for: `payload.get("n_results", 5)`. */
  function CountArg(payload: Object): Value {
    GetOr(payload, "n_results", Int(5))
  }

  /** The descriptor the agent registers: type rag, one `query_knowledge` capability at its own address. */
  function Info(settings: Settings): (info: AgentInfo)
    ensures info.agentId == settings.agentId && info.agentType == Rag
    ensures info.name == settings.serviceName && info.version == settings.serviceVersion
    ensures info.endpoint == Http.Endpoint(settings.host, settings.port) && info.status == "active"
    ensures |info.capabilities| == 1 && info.capabilities[0].name == "query_knowledge"
    ensures info.capabilities[0].parameters == map["query" := Str("string"), "n_results" := Str("integer")]
    ensures !info.capabilities[0].requiresAuth
  {
    AgentInfo(
      agentId := settings.agentId,
      agentType := Rag,
      name := settings.serviceName,
      version := settings.serviceVersion,
      capabilities := [AgentCapability(
        "query_knowledge", "Query supply chain knowledge base",
        map["query" := Str("string"), "n_results" := Str("integer")])],
      endpoint := Http.Endpoint(settings.host, settings.port))
  }

  /** `register_with_orchestrator`: the handshake it posts, and where. Whatever the post raises is swallowed. */
  function RegistrationPost(settings: Settings, requestId: string): (post: (string, Request<HandshakeRequest>))
    ensures post.0 == HandshakeUrl(settings.orchestratorUrl)
    ensures post.1.methodName == "handshake" && post.1.id == requestId
    ensures post.1.params.agentInfo == Info(settings) && post.1.params.protocolVersion == "1.0"
  {
    (HandshakeUrl(settings.orchestratorUrl), NewRequest("handshake", HandshakeRequest(Info(settings)), requestId))
  }

  class KnowledgeAgent {
    /** The documents of the store; None while the store is not initialised. */
    var store: Option<seq<Document>>

    constructor ()
      ensures store == None
    {
      store := None;
    }

    /**
     * The task endpoint. A `query_knowledge` task searches the store with the
     * payload's query and count and no filter, and reports the result under
     * `results`; any other task type fails as unknown, whatever the store. An
     * uninitialised store, or a search that raises, gives an error reply.
     */
    function HandleTask(request: Request<TaskRequest>, search: Search): (r: Response<TaskResponse>)
      reads this
      ensures WellFormed(r) && r.id == request.id
      ensures r.result.Some? ==>
        && r.result.value.taskType == request.params.taskType
        && r.result.value.correlationId == request.params.correlationId
      ensures request.params.taskType == "query_knowledge" && store.None? ==>
        r == ErrorReply(request.id, PyError(RuntimeError, NotInitialised))
      ensures request.params.taskType == "query_knowledge" && store.Some? ==>
        match search(store.value, QueryArg(request.params.payload), CountArg(request.params.payload), None)
        case Ok(found) =>
          && r.result.Some? && r.result.value.status == "completed"
          && r.result.value.result == map["results" := Obj(found)]
        case Err(e) => r.error == Some(A2AError(ServerErrorCode, e.message, None))
      ensures request.params.taskType != "query_knowledge" ==>
        && r.result.Some? && r.result.value.status == "failed"
        && r.result.value.result == map["error" := Str("Unknown task type")]
    {
      var task := request.params;
      if task.taskType == "query_knowledge" then
        var query, count := QueryArg(task.payload), CountArg(task.payload);
        if store.None? then ErrorReply(request.id, PyError(RuntimeError, NotInitialised))
        else
          match search(store.value, query, count, None)
          case Ok(found) => TaskReply(request, map["results" := Obj(found)], "completed")
          case Err(e) => ErrorReply(request.id, e)
      else
        TaskReply(request, map["error" := Str("Unknown task type")], "failed")
    }

    /** `/query`: an uninitialised store is a 500; the category becomes a filter only when non-empty. */
    function QueryEndpoint(request: QueryRequest, search: Search): (r: Http.HttpReply)
      reads this
      ensures store.None? ==> r == Http.HttpError(500, NotInitialised)
      ensures store.Some? ==>
        match search(store.value, Str(request.query), Int(request.nResults), CategoryFilter(request.category))
        case Ok(found) => r == Http.Success(map["results" := Obj(found)])
        case Err(_) => r.HttpError? && r.status == 500
    {
      if store.None? then Http.HttpError(500, NotInitialised)
      else
        match search(store.value, Str(request.query), Int(request.nResults), CategoryFilter(request.category))
        case Ok(found) => Http.Success(map["results" := Obj(found)])
        case Err(_) => Http.HttpError(500, "Internal Server Error")
    }

    /**
     * `seed_initial_data`: nothing without a store or when it already holds
     * documents; otherwise the eight texts are added with their metadata. After
     * it the store is either absent or non-empty, so seeding again changes nothing.
     */
    method SeedInitialData()
      modifies this
      ensures old(store).None? ==> store == None
      ensures old(store).Some? && |old(store).value| > 0 ==> store == old(store)
      ensures old(store) == Some([]) ==> store.Some? && IsSeed(store.value)
      ensures store.None? || |store.value| > 0
    {
      if store.None? {
        return;
      }
      var count := |store.value|;
      if count > 0 {
        return;
      }
      SeedShape();
      store := Some(AddDocuments(store.value, SeedTexts, SeedMetadata));
    }

    /**
     * The startup half of the lifespan: the store is opened over the documents
     * it already holds, seeded, and the registration is posted.
     */
    method Startup(settings: Settings, existing: seq<Document>, requestId: string)
      returns (post: (string, Request<HandshakeRequest>))
      modifies this
      ensures existing != [] ==> store == Some(existing)
      ensures existing == [] ==> store.Some? && IsSeed(store.value)
      ensures post == RegistrationPost(settings, requestId)
    {
      store := Some(existing);
      SeedInitialData();
      post := RegistrationPost(settings, requestId);
    }
  }

  /** An unknown task type is answered the same way whether or not the store is ready. */
  lemma UnknownTaskIgnoresStore(a: KnowledgeAgent, b: KnowledgeAgent, request: Request<TaskRequest>, search: Search)
    requires request.params.taskType != "query_knowledge"
    ensures a.HandleTask(request, search) == b.HandleTask(request, search)
  {
  }

  /**
   * The compliance agent's regulations question reaches the search as its
   * query text with three results asked for, and no filter.
   */
  lemma RegulationsQueryReachesSearch(agent: KnowledgeAgent, shipment: Object, search: Search, requestId: string)
    requires agent.store.Some?
    requires search(agent.store.value, Str(Compliance.RegulationsQuery(shipment)), Int(3), None).Ok?
    ensures
      var request := TaskEnvelope(Compliance.RegulationsTask(shipment), requestId);
      var found := search(agent.store.value, Str(Compliance.RegulationsQuery(shipment)), Int(3), None).value;
      agent.HandleTask(request, search) == TaskReply(request, map["results" := Obj(found)], "completed")
  {
  }

  /** A task without `query` or `n_results` searches for the empty text with five results. */
  lemma TaskDefaults(payload: Object)
    requires "query" !in payload && "n_results" !in payload
    ensures QueryArg(payload) == Str("") && CountArg(payload) == Int(5)
  {
  }
}
