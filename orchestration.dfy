/**
 * The shipment orchestration routine: three agent calls in a fixed order,
 * each announced and reported on the dashboard channel, then the approval.
 * The channel is represented by the list of events handed to it, in order;
 * `WebSocket.ConnectionManager.BroadcastEvent` says what each one delivers.
 */
module Orchestration {
  import opened Wrappers
  import opened Json
  import opened Protocol
  import AgentClient
  import Compliance

  /** One `broadcast_event(event_type, data)` call. */
  datatype Event = Event(eventType: string, data: Object)

  /** An agent call the routine makes with the shipment record: its result, or what it raised. */
  type Step = Object -> Result<Object, PyError>

  /** The shipment's id as the events carry it: `shipment_data.get("id", "unknown")`. */
  function ShipmentId(shipment: Object): (id: Value)
    ensures "id" in shipment ==> id == shipment["id"]
    ensures "id" !in shipment ==> id == Str("unknown")
  {
    GetOr(shipment, "id", Str("unknown"))
  }

  /**
   * `doc.get("valid", False) and compliance.get("compliance_check", {}).get("compliant", False)`.
   * Python's `and` does not evaluate its right side when the left one is falsy;
   * when it does, a `compliance_check` that is not a dict raises.
   */
  function Approval(doc: Object, compliance: Object): (r: Result<Value, PyError>)
    ensures r.Err? <==>
      Truthy(GetOr(doc, "valid", Bool(false))) && !GetOr(compliance, "compliance_check", Obj(map[])).Obj?
    ensures r.Err? ==> r.error == NoAttribute(GetOr(compliance, "compliance_check", Obj(map[])), "get")
    ensures r.Ok? ==> (Truthy(r.value) <==>
      && Truthy(GetOr(doc, "valid", Bool(false)))
      && GetOr(compliance, "compliance_check", Obj(map[])).Obj?
      && Truthy(GetOr(GetOr(compliance, "compliance_check", Obj(map[])).fields, "compliant", Bool(false))))
  {
    var valid := GetOr(doc, "valid", Bool(false));
    if !Truthy(valid) then Ok(valid)
    else
      var compliant :- Get(GetOr(compliance, "compliance_check", Obj(map[])), "compliant", Bool(false));
      Ok(And(valid, compliant))
  }

  /** A missing `valid`, `compliance_check` or `compliant` key gives a falsy approval, never an error. */
  lemma MissingKeysNotApproved(doc: Object, compliance: Object)
    requires
      || "valid" !in doc
      || "compliance_check" !in compliance
      || (compliance["compliance_check"].Obj? && "compliant" !in compliance["compliance_check"].fields)
    ensures Approval(doc, compliance).Ok? && !Truthy(Approval(doc, compliance).value)
  {
  }

  /** Documents that are valid and a check that is compliant, both as booleans, approve. */
  lemma BothTrueApproved(doc: Object, compliance: Object, check: Object)
    requires "valid" in doc && doc["valid"] == Bool(true)
    requires "compliance_check" in compliance && compliance["compliance_check"] == Obj(check)
    requires "compliant" in check && check["compliant"] == Bool(true)
    ensures Approval(doc, compliance) == Ok(Bool(true))
  {
  }

  /** The agent calls, in the order the routine makes them. */
  const StepNames: seq<string> := ["calculate_shipping", "validate_documentation", "check_compliance"]
  const StepAgents: seq<string> := ["logistics", "compliance", "compliance"]

  function TaskStarted(i: nat, id: Value): Event
    requires i < 3
  {
    Event("agent_task_started", map["agent" := Str(StepAgents[i]), "task" := Str(StepNames[i]), "shipment_id" := id])
  }

  function TaskCompleted(i: nat, id: Value, result: Object): Event
    requires i < 3
  {
    Event("agent_task_completed", map[
      "agent" := Str(StepAgents[i]), "task" := Str(StepNames[i]), "shipment_id" := id, "result" := Obj(result)])
  }

  function Failed(id: Value, e: PyError): Event {
    Event("shipment_processing_failed", map["shipment_id" := id, "error" := Str(e.message)])
  }

  function Types(events: seq<Event>): (ts: seq<string>)
    ensures |ts| == |events|
    ensures forall i :: 0 <= i < |events| ==> ts[i] == events[i].eventType
  {
    seq(|events|, i requires 0 <= i < |events| => events[i].eventType)
  }

  /** The `i`-th agent call's result. */
  function Attempt(i: nat, shipment: Object, first: Step, second: Step, third: Step): Result<Object, PyError>
    requires i < 3
  {
    if i == 0 then first(shipment) else if i == 1 then second(shipment) else third(shipment)
  }

  function Started(id: Value): Event {
    Event("shipment_processing_started", map["shipment_id" := id, "status" := Str("processing")])
  }

  /** The success path's events, by type. */
  const SuccessTypes: seq<string> := [
    "shipment_processing_started",
    "agent_task_started", "agent_task_completed",
    "agent_task_started", "agent_task_completed",
    "agent_task_started", "agent_task_completed",
    "shipment_processing_completed"]

  /**
   * What `process_new_shipment` promises about one run: the events emitted,
   * the agent calls made (by name, each with the same shipment record) and
   * the final result or the error re-raised.
   */
  predicate Traced(shipment: Object, calculateShipping: Step, validateDocumentation: Step, checkCompliance: Step,
                   events: seq<Event>, calls: seq<string>, outcome: Result<Object, PyError>)
  {
    && events != [] && events[0] == Started(ShipmentId(shipment))
    && 1 <= |calls| <= 3 && calls == StepNames[..|calls|]
    && (|calls| >= 2 ==> calculateShipping(shipment).Ok?)
    && (|calls| == 3 ==> validateDocumentation(shipment).Ok?)
    && (outcome.Ok? <==>
      && calculateShipping(shipment).Ok? && validateDocumentation(shipment).Ok? && checkCompliance(shipment).Ok?
      && Approval(validateDocumentation(shipment).value, checkCompliance(shipment).value).Ok?)
    && (outcome.Ok? ==>
      var doc, compliance := validateDocumentation(shipment).value, checkCompliance(shipment).value;
      var approved := Approval(doc, compliance).value;
      && |calls| == 3
      && Types(events) == SuccessTypes
      && outcome.value == map[
        "shipment_id" := ShipmentId(shipment), "status" := Str("processed"),
        "logistics" := Obj(calculateShipping(shipment).value),
        "documentation" := Obj(doc), "compliance" := Obj(compliance),
        "approved" := approved]
      && events[7].data == map[
        "shipment_id" := ShipmentId(shipment), "status" := Str("completed"), "approved" := approved])
    && (outcome.Err? ==> events[|events| - 1] == Failed(ShipmentId(shipment), outcome.error))
    && (forall i :: 0 <= i < |events| - 1 ==> events[i].eventType != "shipment_processing_failed")
    && (outcome.Err? ==>
      var last := Attempt(|calls| - 1, shipment, calculateShipping, validateDocumentation, checkCompliance);
      if last.Err? then
        |events| == 2 * |calls| + 1 && outcome.error == last.error
      else
        && |calls| == 3 && |events| == 8
        && Approval(validateDocumentation(shipment).value, checkCompliance(shipment).value) == Err(outcome.error))
    && (forall i :: 0 <= i < |calls| ==>
      2 * i + 1 < |events| && events[2 * i + 1] == TaskStarted(i, ShipmentId(shipment)))
    && (forall i :: 0 <= i < |calls| && Attempt(i, shipment, calculateShipping, validateDocumentation, checkCompliance).Ok? ==>
      var result := Attempt(i, shipment, calculateShipping, validateDocumentation, checkCompliance);
      2 * i + 2 < |events| && events[2 * i + 2] == TaskCompleted(i, ShipmentId(shipment), result.value))
  }

  /** A run in which the logistics call raised. */
  lemma TracedFirstFails(shipment: Object, first: Step, second: Step, third: Step)
    requires first(shipment).Err?
    ensures
      var id, e := ShipmentId(shipment), first(shipment).error;
      Traced(shipment, first, second, third, [Started(id), TaskStarted(0, id), Failed(id, e)], StepNames[..1], Err(e))
  {
  }

  /** A run in which the logistics call succeeded and the documentation call raised. */
  lemma TracedSecondFails(shipment: Object, first: Step, second: Step, third: Step)
    requires first(shipment).Ok? && second(shipment).Err?
    ensures
      var id, e := ShipmentId(shipment), second(shipment).error;
      Traced(shipment, first, second, third,
        [Started(id), TaskStarted(0, id), TaskCompleted(0, id, first(shipment).value), TaskStarted(1, id), Failed(id, e)],
        StepNames[..2], Err(e))
  {
  }

  /** A run in which the first two calls succeeded and the compliance call raised. */
  lemma TracedThirdFails(shipment: Object, first: Step, second: Step, third: Step)
    requires first(shipment).Ok? && second(shipment).Ok? && third(shipment).Err?
    ensures
      var id, e := ShipmentId(shipment), third(shipment).error;
      Traced(shipment, first, second, third,
        [Started(id),
         TaskStarted(0, id), TaskCompleted(0, id, first(shipment).value),
         TaskStarted(1, id), TaskCompleted(1, id, second(shipment).value),
         TaskStarted(2, id), Failed(id, e)],
        StepNames, Err(e))
  {
    assert StepNames[..3] == StepNames;
    var id := ShipmentId(shipment);
    var fail := [Started(id),
      TaskStarted(0, id), TaskCompleted(0, id, first(shipment).value),
      TaskStarted(1, id), TaskCompleted(1, id, second(shipment).value),
      TaskStarted(2, id), Failed(id, third(shipment).error)];
    forall i | 0 <= i < 2
      ensures fail[2 * i + 1] == TaskStarted(i, id)
      ensures fail[2 * i + 2] == TaskCompleted(i, id, Attempt(i, shipment, first, second, third).value)
    {
      if i == 0 {
      } else {
      }
    }
  }

  /** The events of a run in which all three calls succeeded, before the last one. */
  function AllRan(shipment: Object, first: Step, second: Step, third: Step): (r: seq<Event>)
    requires first(shipment).Ok? && second(shipment).Ok? && third(shipment).Ok?
    ensures |r| == 7 && r[0] == Started(ShipmentId(shipment))
    ensures forall i :: 0 <= i < 7 ==> r[i].eventType != "shipment_processing_failed"
  {
    var id := ShipmentId(shipment);
    [Started(id),
     TaskStarted(0, id), TaskCompleted(0, id, first(shipment).value),
     TaskStarted(1, id), TaskCompleted(1, id, second(shipment).value),
     TaskStarted(2, id), TaskCompleted(2, id, third(shipment).value)]
  }

  /** A run in which all three calls succeeded and the approval itself raised `e`. */
  lemma TracedApprovalError(shipment: Object, first: Step, second: Step, third: Step, e: PyError)
    requires first(shipment).Ok? && second(shipment).Ok? && third(shipment).Ok?
    requires Approval(second(shipment).value, third(shipment).value) == Err(e)
    ensures
      Traced(shipment, first, second, third,
        AllRan(shipment, first, second, third) + [Failed(ShipmentId(shipment), e)], StepNames, Err(e))
  {
    assert StepNames[..3] == StepNames;
    var id := ShipmentId(shipment);
    var ran := AllRan(shipment, first, second, third);
    forall i | 0 <= i < 3
      ensures ran[2 * i + 1] == TaskStarted(i, id)
      ensures ran[2 * i + 2] == TaskCompleted(i, id, Attempt(i, shipment, first, second, third).value)
    {
      if i == 0 {
      } else if i == 1 {
      } else {
      }
    }
  }

  /** A run in which all three calls and the approval succeeded. */
  lemma TracedSuccess(shipment: Object, first: Step, second: Step, third: Step)
    requires first(shipment).Ok? && second(shipment).Ok? && third(shipment).Ok?
    requires Approval(second(shipment).value, third(shipment).value).Ok?
    ensures
      var id := ShipmentId(shipment);
      var doc, compliance := second(shipment).value, third(shipment).value;
      var approved := Approval(doc, compliance).value;
      Traced(shipment, first, second, third,
        AllRan(shipment, first, second, third) + [Event("shipment_processing_completed",
          map["shipment_id" := id, "status" := Str("completed"), "approved" := approved])],
        StepNames,
        Ok(map[
          "shipment_id" := id, "status" := Str("processed"),
          "logistics" := Obj(first(shipment).value), "documentation" := Obj(doc),
          "compliance" := Obj(compliance), "approved" := approved]))
  {
    assert StepNames[..3] == StepNames;
    var id := ShipmentId(shipment);
    var ran := AllRan(shipment, first, second, third);
    forall i | 0 <= i < 3
      ensures ran[2 * i + 1] == TaskStarted(i, id)
      ensures ran[2 * i + 2] == TaskCompleted(i, id, Attempt(i, shipment, first, second, third).value)
    {
      if i == 0 {
      } else if i == 1 {
      } else {
      }
    }
  }

  /** `process_new_shipment`: the three agent calls in order, each announced and reported, then the approval. */
  method ProcessNewShipment(shipment: Object, calculateShipping: Step, validateDocumentation: Step, checkCompliance: Step)
    returns (events: seq<Event>, calls: seq<string>, outcome: Result<Object, PyError>)
    ensures Traced(shipment, calculateShipping, validateDocumentation, checkCompliance, events, calls, outcome)
  {
    var id := ShipmentId(shipment);

    calls := StepNames[..1];
    var logistics := calculateShipping(shipment);
    if logistics.Err? {
      events, outcome := [Started(id), TaskStarted(0, id), Failed(id, logistics.error)], Err(logistics.error);
      TracedFirstFails(shipment, calculateShipping, validateDocumentation, checkCompliance);
      return;
    }

    calls := StepNames[..2];
    var doc := validateDocumentation(shipment);
    if doc.Err? {
      events := [Started(id), TaskStarted(0, id), TaskCompleted(0, id, logistics.value), TaskStarted(1, id), Failed(id, doc.error)];
      outcome := Err(doc.error);
      TracedSecondFails(shipment, calculateShipping, validateDocumentation, checkCompliance);
      return;
    }

    calls := StepNames;
    var compliance := checkCompliance(shipment);
    if compliance.Err? {
      events := [Started(id),
        TaskStarted(0, id), TaskCompleted(0, id, logistics.value),
        TaskStarted(1, id), TaskCompleted(1, id, doc.value),
        TaskStarted(2, id), Failed(id, compliance.error)];
      outcome := Err(compliance.error);
      TracedThirdFails(shipment, calculateShipping, validateDocumentation, checkCompliance);
      return;
    }
    var afterCompliance := AllRan(shipment, calculateShipping, validateDocumentation, checkCompliance);

    var approved := Approval(doc.value, compliance.value);
    if approved.Err? {
      events, outcome := afterCompliance + [Failed(id, approved.error)], Err(approved.error);
      TracedApprovalError(shipment, calculateShipping, validateDocumentation, checkCompliance, approved.error);
      return;
    }
    outcome := Ok(map[
      "shipment_id" := id, "status" := Str("processed"),
      "logistics" := Obj(logistics.value), "documentation" := Obj(doc.value),
      "compliance" := Obj(compliance.value), "approved" := approved.value]);
    events := afterCompliance + [Event("shipment_processing_completed",
      map["shipment_id" := id, "status" := Str("completed"), "approved" := approved.value])];
    TracedSuccess(shipment, calculateShipping, validateDocumentation, checkCompliance);
  }

  /**
   * `track_and_optimize`: one tracking call; on success one `shipment_tracked`
   * event with the reported status and location (None when absent).
   */
  method TrackAndOptimize(trackingNumber: string, trackShipment: string -> Result<Object, PyError>)
    returns (events: seq<Event>, outcome: Result<Object, PyError>)
    ensures outcome.Ok? <==> trackShipment(trackingNumber).Ok?
    ensures outcome.Err? ==> events == [] && outcome.error == trackShipment(trackingNumber).error
    ensures outcome.Ok? ==>
      var tracking := trackShipment(trackingNumber).value;
      && outcome.value == map["tracking" := Obj(tracking)]
      && events == [Event("shipment_tracked", map[
        "tracking_number" := Str(trackingNumber),
        "status" := GetOr(tracking, "status", Null),
        "location" := GetOr(tracking, "current_location", Null)])]
  {
    var tracking := trackShipment(trackingNumber);
    if tracking.Err? {
      events, outcome := [], Err(tracking.error);
      return;
    }
    events := [Event("shipment_tracked", map[
      "tracking_number" := Str(trackingNumber),
      "status" := GetOr(tracking.value, "status", Null),
      "location" := GetOr(tracking.value, "current_location", Null)])];
    outcome := Ok(map["tracking" := Obj(tracking.value)]);
  }

  /**
   * An erroring status tool degrades to a refusal: when the compliance step is
   * the compliance agent's check and the status tool answers with an error
   * reply, the shipment is not approved (nor does the approval raise).
   */
  lemma StatusErrorNotApproved(
    agent: Compliance.ComplianceAgent, shipment: Object, doc: Object,
    transport: TaskTransport, ragId: string, toolId: string, e: PyError)
    requires AgentClient.Unwrap(transport,
      AgentClient.TaskPost(agent.ragAgentUrl, Compliance.RegulationsTask(shipment), ragId)).Ok?
    requires AgentClient.Answer(transport,
      AgentClient.TaskPost(agent.mcpToolUrl, Compliance.StatusTask(shipment), toolId)) == Ok(ErrorReply(toolId, e))
    ensures
      var check := agent.CheckCompliance(shipment, transport, ragId, toolId);
      check.outcome.Ok? && Approval(doc, check.outcome.value).Ok? && !Truthy(Approval(doc, check.outcome.value).value)
  {
    Compliance.StatusErrorGivesEmptyCheck(agent, shipment, transport, ragId, toolId, e);
  }
}
