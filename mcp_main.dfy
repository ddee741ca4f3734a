/**
 * The tool service's entry points: the tool table registered at startup, the
 * capabilities it advertises to the orchestrator, the task endpoint and the
 * plain HTTP tool endpoints. The registry is the one `Registry` object every
 * endpoint reads.
 */
module McpService {
  import opened Wrappers
  import opened Json
  import opened Protocol
  import opened Seqs
  import opened ToolRegistry
  import opened PyDict
  import SupplyChainTools
  import Http
  import Discovery

  /** The service's configuration defaults. */
  datatype Settings = Settings(
    serviceName: string := "supply-chain-mcp-tool-service",
    serviceVersion: string := "0.1.0",
    host: string := "0.0.0.0",
    port: nat := 8002,
    agentId: string := "mcp-tool-001",
    orchestratorUrl: string := "http://localhost:8000")

  const ToolNames: seq<string> := [
    "calculate_shipping_cost", "estimate_delivery_time", "validate_customs_documentation",
    "check_compliance_status", "optimize_route", "track_shipment"]
  const ToolCategories: seq<string> := ["logistics", "logistics", "compliance", "compliance", "logistics", "logistics"]

  /** A parameter schema: each parameter's name with a description of its type. */
  function Schema(fields: map<string, string>): (o: Object)
    ensures o.Keys == fields.Keys
    ensures forall k :: k in fields ==> o[k] == Str(fields[k])
  {
    map k | k in fields :: Str(fields[k])
  }

  // The six tool descriptors `register_tools` creates, each tool's handler name being its own name.

  const CostTool := ToolRegistry.McpTool("calculate_shipping_cost",
    "Calculate shipping cost based on weight, distance, and priority",
    Schema(map["weight_kg" := "number", "distance_km" := "number", "priority" := "string (standard|express|overnight)"]),
    "logistics", "calculate_shipping_cost")
  const DeliveryTool := ToolRegistry.McpTool("estimate_delivery_time",
    "Estimate delivery time based on distance and priority",
    Schema(map["distance_km" := "number", "priority" := "string (standard|express|overnight)"]),
    "logistics", "estimate_delivery_time")
  const DocumentsTool := ToolRegistry.McpTool("validate_customs_documentation",
    "Validate customs documentation for international shipments",
    Schema(map["documents" := "array of strings"]),
    "compliance", "validate_customs_documentation")
  const StatusTool := ToolRegistry.McpTool("check_compliance_status",
    "Check compliance status for a shipment",
    Schema(map["shipment_type" := "string", "destination_country" := "string"]),
    "compliance", "check_compliance_status")
  const RouteTool := ToolRegistry.McpTool("optimize_route",
    "Optimize delivery route for multiple stops",
    Schema(map["stops" := "array of locations"]),
    "logistics", "optimize_route")
  const TrackingTool := ToolRegistry.McpTool("track_shipment",
    "Track shipment location and status",
    Schema(map["tracking_number" := "string"]),
    "logistics", "track_shipment")

  /**
   * The six (tool, handler) pairs `register_tools` registers, each tool's
   * handler name being its own name. `cost` and `delivery` stand for the two
   * floating-point tools, which are not modelled.
   */
  function ToolTable(cost: Handler, delivery: Handler): (table: seq<(McpTool, Handler)>)
    ensures |table| == |ToolNames|
    ensures forall i :: 0 <= i < |table| ==>
      table[i].0.name == table[i].0.handler == ToolNames[i] && table[i].0.category == ToolCategories[i]
    ensures table[0].1 == cost && table[1].1 == delivery
    ensures table[2].1 == SupplyChainTools.ValidateCustomsDocumentation
    ensures table[3].1 == SupplyChainTools.CheckComplianceStatus
    ensures table[4].1 == SupplyChainTools.OptimizeRoute
    ensures table[5].1 == SupplyChainTools.TrackShipment
  {
    [ (CostTool, cost), (DeliveryTool, delivery),
      (DocumentsTool, SupplyChainTools.ValidateCustomsDocumentation),
      (StatusTool, SupplyChainTools.CheckComplianceStatus),
      (RouteTool, SupplyChainTools.OptimizeRoute),
      (TrackingTool, SupplyChainTools.TrackShipment) ]
  }

  /** The tools of a table, without their handlers. */
  function Tools(table: seq<(McpTool, Handler)>): (tools: seq<McpTool>)
    ensures |tools| == |table|
    ensures forall i :: 0 <= i < |tools| ==> tools[i] == table[i].0
  {
    seq(|table|, i requires 0 <= i < |table| => table[i].0)
  }

  lemma ToolNamesDistinct()
    ensures forall i, j :: 0 <= i < j < |ToolNames| ==> ToolNames[i] != ToolNames[j]
  {
    assert ToolNames[0][1] != ToolNames[3][1];
    assert ToolNames[4][0] != ToolNames[5][0];
  }

  /** The tool dict after registering `table` in order into `d`. */
  function ToolsAfter(d: Dict<string, McpTool>, table: seq<(McpTool, Handler)>): (r: Dict<string, McpTool>)
    requires d.Valid()
    ensures r.Valid()
    decreases |table|
  {
    if table == [] then d
    else
      var last := table[|table| - 1];
      ToolsAfter(d, table[..|table| - 1]).Put(last.0.name, last.0)
  }

  /** The handler dict after registering `table` in order into `h`. */
  function HandlersAfter(h: map<string, Handler>, table: seq<(McpTool, Handler)>): map<string, Handler>
    decreases |table|
  {
    if table == [] then h
    else
      var last := table[|table| - 1];
      HandlersAfter(h, table[..|table| - 1])[last.0.name := last.1]
  }

  predicate DistinctNames(table: seq<(McpTool, Handler)>) {
    forall i, j :: 0 <= i < j < |table| ==> table[i].0.name != table[j].0.name
  }

  /** With distinct names, each tool of the table ends up registered under its name, with its handler. */
  lemma {:induction false} AfterLookup(d: Dict<string, McpTool>, h: map<string, Handler>, table: seq<(McpTool, Handler)>, k: nat)
    requires d.Valid() && DistinctNames(table) && k < |table|
    ensures ToolsAfter(d, table).Get(table[k].0.name) == Some(table[k].0)
    ensures table[k].0.name in HandlersAfter(h, table) && HandlersAfter(h, table)[table[k].0.name] == table[k].1
    decreases |table|
  {
    var n := |table| - 1;
    if k < n {
      var init := table[..n];
      assert init[k] == table[k];
      AfterLookup(d, h, init, k);
      assert table[n].0.name != table[k].0.name;
    }
  }

  /** A name the table does not mention keeps its tool and its handler. */
  lemma {:induction false} AfterOthers(d: Dict<string, McpTool>, h: map<string, Handler>, table: seq<(McpTool, Handler)>, name: string)
    requires d.Valid()
    requires forall i :: 0 <= i < |table| ==> table[i].0.name != name
    ensures ToolsAfter(d, table).Get(name) == d.Get(name)
    ensures name in HandlersAfter(h, table) <==> name in h
    ensures name in h ==> HandlersAfter(h, table)[name] == h[name]
    decreases |table|
  {
    if table != [] {
      var n := |table| - 1;
      AfterOthers(d, h, table[..n], name);
      assert table[n].0.name != name;
    }
  }

  function Names(table: seq<(McpTool, Handler)>): (names: seq<string>)
    ensures |names| == |table|
    ensures forall i :: 0 <= i < |table| ==> names[i] == table[i].0.name
  {
    seq(|table|, i requires 0 <= i < |table| => table[i].0.name)
  }

  /** Into an empty dict the names are inserted in table order. */
  lemma {:induction false} AfterFromEmpty(table: seq<(McpTool, Handler)>)
    requires DistinctNames(table)
    ensures ToolsAfter(Empty(), table).keys == Names(table)
    decreases |table|
  {
    if table != [] {
      var n := |table| - 1;
      var init := table[..n];
      var name := table[n].0.name;
      DistinctLast(table);
      AfterFromEmpty(init);
      NamesSnoc(table);
      assert name !in ToolsAfter(Empty(), init).keys;
    }
  }

  lemma NamesSnoc(table: seq<(McpTool, Handler)>)
    requires table != []
    ensures Names(table) == Names(table[..|table| - 1]) + [table[|table| - 1].0.name]
  {
  }

  /** The last name of a table with distinct names is not among the earlier ones, which are distinct too. */
  lemma DistinctLast(table: seq<(McpTool, Handler)>)
    requires DistinctNames(table) && table != []
    ensures DistinctNames(table[..|table| - 1])
    ensures table[|table| - 1].0.name !in Names(table[..|table| - 1])
  {
    var n := |table| - 1;
    var init := table[..n];
    forall i | 0 <= i < n ensures Names(init)[i] != table[n].0.name {
      assert init[i] == table[i];
    }
  }

  /**
   * `register_tools`: registers the table in order. Each of the six names then
   * holds its tool and handler, every other name is as before, and into an
   * empty registry the tools are listed in table order.
   */
  method RegisterTools(registry: Registry, cost: Handler, delivery: Handler)
    requires registry.Valid()
    modifies registry
    ensures registry.Valid()
    ensures registry.tools == ToolsAfter(old(registry.tools), ToolTable(cost, delivery))
    ensures registry.handlers == HandlersAfter(old(registry.handlers), ToolTable(cost, delivery))
    ensures forall i :: 0 <= i < |ToolNames| ==>
      && registry.GetTool(ToolNames[i]) == Some(ToolTable(cost, delivery)[i].0)
      && ToolNames[i] in registry.handlers
      && registry.handlers[ToolNames[i]] == ToolTable(cost, delivery)[i].1
    ensures forall n :: n !in ToolNames ==>
      && registry.GetTool(n) == old(registry.GetTool(n))
      && (n in registry.handlers <==> n in old(registry.handlers))
      && (n in registry.handlers ==> registry.handlers[n] == old(registry.handlers)[n])
    ensures old(registry.tools.keys) == [] ==> registry.AllTools() == Tools(ToolTable(cost, delivery))
  {
    var table := ToolTable(cost, delivery);
    assert Names(table) == ToolNames;
    RegisterAll(registry, table);
    TableDistinct(table);
    NamedFacts(registry, old(registry.tools), old(registry.handlers), table);
    OtherFacts(registry, old(registry.tools), old(registry.handlers), table);
    if old(registry.tools.keys) == [] {
      FromEmptyInOrder(registry, old(registry.tools), table);
    }
  }

  /** The loop of `register_tools`: one `register_tool` per entry, in order. */
  method RegisterAll(registry: Registry, table: seq<(McpTool, Handler)>)
    requires registry.Valid()
    modifies registry
    ensures registry.Valid()
    ensures registry.tools == ToolsAfter(old(registry.tools), table)
    ensures registry.handlers == HandlersAfter(old(registry.handlers), table)
  {
    for i := 0 to |table|
      invariant registry.Valid()
      invariant registry.tools == ToolsAfter(old(registry.tools), table[..i])
      invariant registry.handlers == HandlersAfter(old(registry.handlers), table[..i])
    {
      assert table[..i + 1][..i] == table[..i];
      registry.RegisterTool(table[i].0, table[i].1);
    }
    assert table[..|table|] == table;
  }

  /** Registering a table with distinct names into an empty registry lists its tools in table order. */
  lemma FromEmptyInOrder(registry: Registry, d: Dict<string, McpTool>, table: seq<(McpTool, Handler)>)
    requires d.Valid() && d.keys == [] && registry.Valid() && DistinctNames(table)
    requires registry.tools == ToolsAfter(d, table)
    ensures registry.AllTools() == Tools(table)
  {
    assert d == Empty();
    AfterFromEmpty(table);
    forall i | 0 <= i < |table| ensures registry.GetTool(Names(table)[i]) == Some(table[i].0) {
      AfterLookup(d, map[], table, i);
    }
    AllToolsInOrder(registry, table);
  }

  lemma TableDistinct(table: seq<(McpTool, Handler)>)
    requires Names(table) == ToolNames
    ensures DistinctNames(table)
  {
    ToolNamesDistinct();
    forall i, j | 0 <= i < j < |table| ensures table[i].0.name != table[j].0.name {
      assert Names(table)[i] == table[i].0.name && Names(table)[j] == table[j].0.name;
    }
  }

  lemma NamedFacts(registry: Registry, d: Dict<string, McpTool>, h: map<string, Handler>, table: seq<(McpTool, Handler)>)
    requires d.Valid() && Names(table) == ToolNames && DistinctNames(table)
    requires registry.tools == ToolsAfter(d, table)
    requires registry.handlers == HandlersAfter(h, table)
    ensures forall i :: 0 <= i < |ToolNames| ==>
      && registry.GetTool(ToolNames[i]) == Some(table[i].0)
      && ToolNames[i] in registry.handlers
      && registry.handlers[ToolNames[i]] == table[i].1
  {
    forall i | 0 <= i < |ToolNames|
      ensures registry.GetTool(ToolNames[i]) == Some(table[i].0)
      ensures ToolNames[i] in registry.handlers && registry.handlers[ToolNames[i]] == table[i].1
    {
      assert Names(table)[i] == table[i].0.name;
      AfterLookup(d, h, table, i);
    }
  }

  lemma OtherFacts(registry: Registry, d: Dict<string, McpTool>, h: map<string, Handler>, table: seq<(McpTool, Handler)>)
    requires d.Valid() && Names(table) == ToolNames
    requires registry.tools == ToolsAfter(d, table)
    requires registry.handlers == HandlersAfter(h, table)
    ensures forall n :: n !in ToolNames ==>
      && registry.GetTool(n) == d.Get(n)
      && (n in registry.handlers <==> n in h)
      && (n in registry.handlers ==> registry.handlers[n] == h[n])
  {
    forall n | n !in ToolNames
      ensures registry.GetTool(n) == d.Get(n)
      ensures n in registry.handlers <==> n in h
      ensures n in registry.handlers ==> registry.handlers[n] == h[n]
    {
      forall i | 0 <= i < |table| ensures table[i].0.name != n {
        assert Names(table)[i] == table[i].0.name;
      }
      AfterOthers(d, h, table, n);
    }
  }

  lemma AllToolsInOrder(registry: Registry, table: seq<(McpTool, Handler)>)
    requires registry.Valid() && registry.tools.keys == Names(table)
    requires forall i :: 0 <= i < |table| ==> registry.GetTool(Names(table)[i]) == Some(table[i].0)
    ensures registry.AllTools() == Tools(table)
  {
    var all := registry.AllTools();
    forall i | 0 <= i < |table| ensures all[i] == Tools(table)[i] {
      assert registry.GetTool(Names(table)[i]).value == registry.tools.entries[Names(table)[i]];
    }
  }

  /** Four of the six tools are logistics tools and two are compliance tools, each group in table order. */
  lemma CategorySplit(tools: seq<McpTool>)
    requires |tools| == |ToolCategories|
    requires forall i :: 0 <= i < |tools| ==> tools[i].category == ToolCategories[i]
    ensures Filter(CategoryIs(Str("logistics")), tools) == [tools[0], tools[1], tools[4], tools[5]]
    ensures Filter(CategoryIs(Str("compliance")), tools) == [tools[2], tools[3]]
  {
    LogisticsTools(tools);
    ComplianceTools(tools);
  }

  lemma LogisticsTools(tools: seq<McpTool>)
    requires |tools| == |ToolCategories|
    requires forall i :: 0 <= i < |tools| ==> tools[i].category == ToolCategories[i]
    ensures Filter(CategoryIs(Str("logistics")), tools) == [tools[0], tools[1], tools[4], tools[5]]
  {
    var p := CategoryIs(Str("logistics"));
    assert "logistics"[0] != "compliance"[0];
    assert p(tools[0]) && p(tools[1]) && !p(tools[2]) && !p(tools[3]) && p(tools[4]) && p(tools[5]);
    FilterOuter(p, tools);
  }

  lemma ComplianceTools(tools: seq<McpTool>)
    requires |tools| == |ToolCategories|
    requires forall i :: 0 <= i < |tools| ==> tools[i].category == ToolCategories[i]
    ensures Filter(CategoryIs(Str("compliance")), tools) == [tools[2], tools[3]]
  {
    var p := CategoryIs(Str("compliance"));
    assert "logistics"[0] != "compliance"[0];
    assert !p(tools[0]) && !p(tools[1]) && p(tools[2]) && p(tools[3]) && !p(tools[4]) && !p(tools[5]);
    FilterMiddle(p, tools);
  }

  /** Six elements of which the outer four pass. */
  lemma FilterOuter<T>(p: T -> bool, s: seq<T>)
    requires |s| == 6
    requires p(s[0]) && p(s[1]) && !p(s[2]) && !p(s[3]) && p(s[4]) && p(s[5])
    ensures Filter(p, s) == [s[0], s[1], s[4], s[5]]
  {
    assert s[..6] == s;
    FilterFirstTwo(p, s);
    FilterStep(p, s, 2, [s[0], s[1]]);
    FilterStep(p, s, 3, [s[0], s[1]]);
    FilterStep(p, s, 4, [s[0], s[1]]);
    FilterStep(p, s, 5, [s[0], s[1], s[4]]);
  }

  lemma FilterFirstTwo<T>(p: T -> bool, s: seq<T>)
    requires |s| >= 2 && p(s[0]) && p(s[1])
    ensures Filter(p, s[..2]) == [s[0], s[1]]
  {
    assert s[..0] == [];
    FilterStep(p, s, 0, []);
    FilterStep(p, s, 1, [s[0]]);
  }

  /** Six elements of which the middle two pass. */
  lemma FilterMiddle<T>(p: T -> bool, s: seq<T>)
    requires |s| == 6
    requires !p(s[0]) && !p(s[1]) && p(s[2]) && p(s[3]) && !p(s[4]) && !p(s[5])
    ensures Filter(p, s) == [s[2], s[3]]
  {
    assert s[..6] == s && s[..0] == [];
    FilterStep(p, s, 0, []);
    FilterStep(p, s, 1, []);
    FilterStep(p, s, 2, []);
    FilterStep(p, s, 3, [s[2]]);
    FilterStep(p, s, 4, [s[2], s[3]]);
    FilterStep(p, s, 5, [s[2], s[3]]);
  }

  /** One more element of a prefix, filtered. */
  lemma FilterStep<T>(p: T -> bool, s: seq<T>, k: nat, acc: seq<T>)
    requires k < |s| && Filter(p, s[..k]) == acc
    ensures Filter(p, s[..k + 1]) == if p(s[k]) then acc + [s[k]] else acc
  {
    TakeSnoc(s, k);
    FilterSnoc(p, s[..k], s[k]);
  }

  /** After startup, `list_tools` by category gives the four logistics and the two compliance tools. */
  lemma StartupListing(registry: Registry, cost: Handler, delivery: Handler)
    requires registry.Valid() && registry.AllTools() == Tools(ToolTable(cost, delivery))
    ensures |registry.ListTools(Str("logistics"))| == 4
    ensures |registry.ListTools(Str("compliance"))| == 2
    ensures registry.ListTools(Str("compliance"))[0].name == "validate_customs_documentation"
    ensures registry.ListTools(Str("compliance"))[1].name == "check_compliance_status"
    ensures registry.ListTools(Null) == Tools(ToolTable(cost, delivery))
  {
    var table := ToolTable(cost, delivery);
    var tools := registry.AllTools();
    forall i | 0 <= i < |ToolNames|
      ensures tools[i].category == ToolCategories[i] && tools[i].name == ToolNames[i]
    {
      assert tools[i] == table[i].0;
    }
    ListingByCategory(registry);
    assert !Truthy(Null);
  }

  lemma ListingByCategory(registry: Registry)
    requires registry.Valid() && |registry.AllTools()| == |ToolNames|
    requires forall i :: 0 <= i < |ToolNames| ==>
      registry.AllTools()[i].category == ToolCategories[i] && registry.AllTools()[i].name == ToolNames[i]
    ensures |registry.ListTools(Str("logistics"))| == 4
    ensures |registry.ListTools(Str("compliance"))| == 2
    ensures registry.ListTools(Str("compliance"))[0].name == "validate_customs_documentation"
    ensures registry.ListTools(Str("compliance"))[1].name == "check_compliance_status"
  {
    var tools := registry.AllTools();
    CategorySplit(tools);
    NamedCategoryIsFilter(registry, "logistics");
    NamedCategoryIsFilter(registry, "compliance");
    assert tools[2].name == ToolNames[2] && tools[3].name == ToolNames[3];
  }

  /** Listing a non-empty category name filters the registered tools by it. */
  lemma NamedCategoryIsFilter(registry: Registry, c: string)
    requires registry.Valid() && c != ""
    ensures registry.ListTools(Str(c)) == Filter(CategoryIs(Str(c)), registry.AllTools())
  {
    assert Truthy(Str(c));
  }

  /** One advertised capability per tool: same name, description and parameters. */
  function Capabilities(tools: seq<McpTool>): (caps: seq<AgentCapability>)
    ensures |caps| == |tools|
    ensures forall i :: 0 <= i < |tools| ==>
      && caps[i].name == tools[i].name && caps[i].description == tools[i].description
      && caps[i].parameters == tools[i].parameters && !caps[i].requiresAuth
  {
    seq(|tools|, i requires 0 <= i < |tools| => AgentCapability(tools[i].name, tools[i].description, tools[i].parameters))
  }

  /** The descriptor the service presents: type tool service, one capability per registered tool. */
  function ServiceInfo(settings: Settings, registry: Registry): (info: AgentInfo)
    reads registry
    requires registry.Valid()
    ensures info.agentId == settings.agentId && info.agentType == AgentType.McpTool
    ensures info.name == settings.serviceName && info.version == settings.serviceVersion
    ensures info.endpoint == Http.Endpoint(settings.host, settings.port) && info.status == "active"
    ensures info.capabilities == Capabilities(registry.ListTools(Null))
  {
    AgentInfo(
      agentId := settings.agentId,
      agentType := AgentType.McpTool,
      name := settings.serviceName,
      version := settings.serviceVersion,
      capabilities := Capabilities(registry.ListTools(Null)),
      endpoint := Http.Endpoint(settings.host, settings.port))
  }

  /**
   * `register_with_orchestrator`: the one handshake it POSTs, as (URL, envelope).
   * Whatever the orchestrator answers, or a failure to reach it, is dropped.
   */
  function RegistrationPost(settings: Settings, registry: Registry, requestId: string): (post: (string, Request<HandshakeRequest>))
    reads registry
    requires registry.Valid()
    ensures post.0 == HandshakeUrl(settings.orchestratorUrl)
    ensures post.1 == NewRequest("handshake", HandshakeRequest(ServiceInfo(settings, registry)), requestId)
    ensures post.1.params.protocolVersion == "1.0"
  {
    (HandshakeUrl(settings.orchestratorUrl), NewRequest("handshake", HandshakeRequest(ServiceInfo(settings, registry)), requestId))
  }

  /** The service advertises a capability exactly when it has a tool of that name. */
  lemma AdvertisesExactlyRegistered(settings: Settings, registry: Registry, name: string)
    requires registry.Valid()
    ensures Discovery.HasCapability(ServiceInfo(settings, registry), name) <==> registry.GetTool(name).Some?
  {
    var info := ServiceInfo(settings, registry);
    var all := registry.ListTools(Null);
    if registry.GetTool(name).Some? {
      var k := IndexOf(registry.tools.keys, name);
      assert info.capabilities[k].name == name;
    }
    if Discovery.HasCapability(info, name) {
      var i :| 0 <= i < |info.capabilities| && info.capabilities[i].name == name;
      assert all[i] == registry.tools.entries[registry.tools.keys[i]];
    }
  }

  /** The tool name a task asks for: `payload.get("tool_name", "")`. */
  function ToolArg(payload: Object): Value {
    GetOr(payload, "tool_name", Str(""))
  }

  /** The parameters a task passes: `payload.get("parameters", {})`. */
  function ParamsArg(payload: Object): Value {
    GetOr(payload, "parameters", Obj(map[]))
  }

  /** `[t.model_dump() for t in tools]` */
  function ToolsJson(tools: seq<McpTool>): (v: Value)
    ensures v.Arr? && |v.items| == |tools|
    ensures forall i :: 0 <= i < |tools| ==> v.items[i] == ToolJson(tools[i])
  {
    Arr(seq(|tools|, i requires 0 <= i < |tools| => ToolJson(tools[i])))
  }

  /**
   * The task endpoint. `execute_tool` runs the named tool and reports its result
   * under `tool_result`; `list_tools` lists the tools of the payload's category;
   * anything else fails as an unknown task type. Whatever a tool raises becomes
   * an error reply. The request id is always echoed, and the task type and
   * correlation id on every answer.
   */
  function HandleTask(registry: Registry, request: Request<TaskRequest>): (r: Response<TaskResponse>)
    reads registry
    requires registry.Valid()
    ensures WellFormed(r) && r.id == request.id
    ensures r.result.Some? ==>
      && r.result.value.taskType == request.params.taskType
      && r.result.value.correlationId == request.params.correlationId
    ensures r.error.Some? <==>
      request.params.taskType == "execute_tool"
      && registry.ExecuteTool(ToolArg(request.params.payload), ParamsArg(request.params.payload)).Err?
    ensures r.error.Some? ==> r.error.value == A2AError(ServerErrorCode,
      registry.ExecuteTool(ToolArg(request.params.payload), ParamsArg(request.params.payload)).error.message, None)
    ensures request.params.taskType == "execute_tool" && r.result.Some? ==>
      && r.result.value.status == "completed"
      && r.result.value.result == map["tool_result" :=
        Obj(registry.ExecuteTool(ToolArg(request.params.payload), ParamsArg(request.params.payload)).value)]
    ensures request.params.taskType == "list_tools" ==>
      && r.result.Some? && r.result.value.status == "completed"
      && r.result.value.result == map["tools" :=
        ToolsJson(registry.ListTools(GetOr(request.params.payload, "category", Null)))]
    ensures request.params.taskType !in {"execute_tool", "list_tools"} ==>
      && r.result.Some? && r.result.value.status == "failed"
      && r.result.value.result == map["error" := Str("Unknown task type")]
  {
    var task := request.params;
    if task.taskType == "execute_tool" then
      match registry.ExecuteTool(ToolArg(task.payload), ParamsArg(task.payload))
      case Ok(result) => TaskReply(request, map["tool_result" := Obj(result)], "completed")
      case Err(e) => ErrorReply(request.id, e)
    else if task.taskType == "list_tools" then
      TaskReply(request, map["tools" := ToolsJson(registry.ListTools(GetOr(task.payload, "category", Null)))], "completed")
    else
      TaskReply(request, map["error" := Str("Unknown task type")], "failed")
  }

  /** A tool task for an unregistered name, or with no name at all, is answered with an error, not a result. */
  lemma UnknownToolIsErrorReply(registry: Registry, request: Request<TaskRequest>)
    requires registry.Valid()
    requires request.params.taskType == "execute_tool"
    requires ToolArg(request.params.payload).Str? && ToolArg(request.params.payload).s !in registry.handlers
    ensures HandleTask(registry, request) == ErrorReply(request.id,
      PyError(ValueError, "Tool not found: " + ToolArg(request.params.payload).s))
    ensures "tool_name" !in request.params.payload ==>
      HandleTask(registry, request).error == Some(A2AError(ServerErrorCode, "Tool not found: ", None))
  {
    assert "Tool not found: " + "" == "Tool not found: ";
  }

  /** `/tools/execute`: not-found (any ValueError) is 404, any other error 500. */
  function ExecuteEndpoint(registry: Registry, toolName: string, parameters: Object): (r: Http.HttpReply)
    reads registry
    ensures toolName !in registry.handlers ==> r == Http.HttpError(404, "Tool not found: " + toolName)
    ensures toolName in registry.handlers ==>
      match registry.handlers[toolName](Obj(parameters))
      case Ok(result) => r == Http.Success(map["result" := Obj(result), "status" := Str("success")])
      case Err(e) => r == Http.HttpError(if e.kind == ValueError then 404 else 500, e.message)
  {
    match registry.ExecuteTool(Str(toolName), Obj(parameters))
    case Ok(result) => Http.Success(map["result" := Obj(result), "status" := Str("success")])
    case Err(e) => Http.HttpError(if e.kind == ValueError then 404 else 500, e.message)
  }

  /** `/tools`: the category is a filter only when given and non-empty. */
  function ListToolsEndpoint(registry: Registry, category: Option<string>): (r: Object)
    reads registry
    requires registry.Valid()
    ensures r.Keys == {"tools"}
    ensures category.None? || category == Some("") ==> r["tools"] == ToolsJson(registry.AllTools())
    ensures category.Some? ==> r["tools"] == ToolsJson(registry.ListTools(Str(category.value)))
  {
    var tools := registry.ListTools(if category.Some? then Str(category.value) else Null);
    map["tools" := ToolsJson(tools)]
  }
}
