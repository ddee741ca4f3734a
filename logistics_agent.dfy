/**
 * The logistics agent: builds tool tasks for the tool service and unwraps
 * their results. The transport is a parameter; so are the fresh request ids.
 */
module Logistics {
  import opened Wrappers
  import opened Json
  import opened Protocol
  import opened AgentClient

  datatype LogisticsAgent = LogisticsAgent(agentId: string, orchestratorUrl: string, mcpToolUrl: string) {

    /** The descriptor the agent presents: type logistics, three capabilities, no endpoint. */
    function Info(): (info: AgentInfo)
      ensures info.agentId == agentId && info.agentType == Logistics
      ensures info.name == "Logistics Agent" && info.version == "0.1.0"
      ensures info.endpoint == "" && info.status == "active"
      ensures |info.capabilities| == 3
      ensures info.capabilities[0].name == "calculate_shipping"
      ensures info.capabilities[0].description == "Calculate shipping cost and delivery time"
      ensures info.capabilities[1].name == "optimize_route"
      ensures info.capabilities[1].description == "Optimize delivery routes"
      ensures info.capabilities[2].name == "track_shipment"
      ensures info.capabilities[2].description == "Track shipment status"
      ensures forall i :: 0 <= i < 3 ==> info.capabilities[i].parameters == map[] && !info.capabilities[i].requiresAuth
    {
      AgentInfo(
        agentId := agentId,
        agentType := Logistics,
        name := "Logistics Agent",
        version := "0.1.0",
        capabilities := [
          AgentCapability("calculate_shipping", "Calculate shipping cost and delivery time"),
          AgentCapability("optimize_route", "Optimize delivery routes"),
          AgentCapability("track_shipment", "Track shipment status")],
        endpoint := "")
    }

    /**
     * Asks for the shipping cost and then for the delivery estimate, and returns
     * `{"cost": …, "delivery": …}`; a reply without a result contributes `{}`.
     */
    function CalculateShipping(shipment: Object, transport: TaskTransport, costId: string, deliveryId: string): (e: Exchange)
      ensures 1 <= |e.posts| <= 2
      ensures e.posts[0] == TaskPost(mcpToolUrl, CostTask(shipment), costId)
      ensures |e.posts| == 2 ==> e.posts[1] == TaskPost(mcpToolUrl, DeliveryTask(shipment), deliveryId)
      ensures e.outcome.Ok? ==> |e.posts| == 2 && e.outcome.value.Keys == {"cost", "delivery"}
      ensures e.outcome.Ok? ==>
        && Unwrap(transport, e.posts[0]).Ok? && Unwrap(transport, e.posts[1]).Ok?
        && e.outcome.value["cost"] == Obj(Unwrap(transport, e.posts[0]).value)
        && e.outcome.value["delivery"] == Obj(Unwrap(transport, e.posts[1]).value)
      ensures Unwrap(transport, e.posts[0]).Err? ==> |e.posts| == 1 && e.outcome.Err?
    {
      Pair(transport,
        TaskPost(mcpToolUrl, CostTask(shipment), costId),
        TaskPost(mcpToolUrl, DeliveryTask(shipment), deliveryId),
        "cost", "delivery")
    }

    /** Sends the stops unchanged to the route tool and returns its inner result. */
    function OptimizeRoute(stops: Value, transport: TaskTransport, requestId: string): (e: Exchange)
      ensures e.posts == [TaskPost(mcpToolUrl, ToolTask("optimize_route", map["stops" := stops]), requestId)]
      ensures e.outcome == Unwrap(transport, e.posts[0])
    {
      Single(transport, TaskPost(mcpToolUrl, ToolTask("optimize_route", map["stops" := stops]), requestId))
    }

    /** Sends the tracking number as the only parameter and returns the inner result. */
    function TrackShipment(trackingNumber: string, transport: TaskTransport, requestId: string): (e: Exchange)
      ensures |e.posts| == 1 && e.posts[0].url == TaskUrl(mcpToolUrl)
      ensures e.posts[0].request.params
        == ToolTask("track_shipment", map["tracking_number" := Str(trackingNumber)])
      ensures e.outcome == Unwrap(transport, e.posts[0])
    {
      Single(transport, TaskPost(mcpToolUrl, ToolTask("track_shipment", map["tracking_number" := Str(trackingNumber)]), requestId))
    }
  }

  /** The cost tool's parameters, each read from the shipment or defaulted. */
  function CostTask(shipment: Object): TaskRequest {
    ToolTask("calculate_shipping_cost", map[
      "weight_kg" := GetOr(shipment, "weight_kg", Int(10)),
      "distance_km" := GetOr(shipment, "distance_km", Int(500)),
      "priority" := GetOr(shipment, "priority", Str("standard"))])
  }

  function DeliveryTask(shipment: Object): TaskRequest {
    ToolTask("estimate_delivery_time", map[
      "distance_km" := GetOr(shipment, "distance_km", Int(500)),
      "priority" := GetOr(shipment, "priority", Str("standard"))])
  }

  /** A shipment without the three fields gets 10 kg, 500 km and standard priority. */
  lemma ShippingDefaults(shipment: Object)
    requires "weight_kg" !in shipment && "distance_km" !in shipment && "priority" !in shipment
    ensures CostTask(shipment).payload["parameters"]
      == Obj(map["weight_kg" := Int(10), "distance_km" := Int(500), "priority" := Str("standard")])
    ensures DeliveryTask(shipment).payload["parameters"]
      == Obj(map["distance_km" := Int(500), "priority" := Str("standard")])
  {
  }

  /** Shipping asks the cost tool first and the delivery tool second, both at the tool service. */
  lemma ShippingToolOrder(agent: LogisticsAgent, shipment: Object, transport: TaskTransport, costId: string, deliveryId: string)
    ensures
      var e := agent.CalculateShipping(shipment, transport, costId, deliveryId);
      && ToolName(e.posts[0]) == Some(Str("calculate_shipping_cost"))
      && (|e.posts| == 2 ==> ToolName(e.posts[1]) == Some(Str("estimate_delivery_time")))
      && (forall i :: 0 <= i < |e.posts| ==> e.posts[i].url == agent.mcpToolUrl + "/a2a/task")
  {
  }
}
