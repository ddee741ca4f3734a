/**
 * The orchestrator's discovery service: a registry of agent descriptors keyed by
 * agent id, and a session store keyed by session id, both updated in place.
 * The service's lock is not modelled: every operation runs to completion.
 */
module Discovery {
  import opened Wrappers
  import opened Json
  import opened Protocol
  import opened PyDict
  import opened Seqs

  /** `any(cap.name == capability for cap in a.capabilities)` */
  predicate HasCapability(a: AgentInfo, capability: string) {
    exists i :: 0 <= i < |a.capabilities| && a.capabilities[i].name == capability
  }

  /**
   * When an agent passes the discovery filters. The capability filter is checked
   * for truthiness, so an empty capability name filters nothing.
   */
  predicate Matches(a: AgentInfo, agentType: Option<AgentType>, capability: Option<string>) {
    && (agentType.None? || a.agentType == agentType.value)
    && (capability.None? || capability.value == "" || HasCapability(a, capability.value))
  }

  /** The discovery filters as one test. */
  function Matcher(agentType: Option<AgentType>, capability: Option<string>): AgentInfo -> bool {
    (a: AgentInfo) => Matches(a, agentType, capability)
  }

  /**
   * The two list comprehensions of `discover_agents`, applied to the registry's
   * values: the same list as one pass keeping each agent that passes both
   * filters, duplicates included.
   */
  function Discover(agents: seq<AgentInfo>, agentType: Option<AgentType>, capability: Option<string>): (r: seq<AgentInfo>)
    ensures r == Filter(Matcher(agentType, capability), agents)
    ensures forall i :: 0 <= i < |r| ==> r[i] in agents && Matches(r[i], agentType, capability)
    ensures forall i :: 0 <= i < |agents| && Matches(agents[i], agentType, capability) ==> agents[i] in r
    ensures IsSubseq(r, agents)
    ensures agentType.None? && (capability.None? || capability.value == "") ==> r == agents
  {
    var ofType := (a: AgentInfo) => agentType.Some? && a.agentType == agentType.value;
    var byType := if agentType.Some? then Filter(ofType, agents) else agents;
    var m := Matcher(agentType, capability);
    FilterSpec(ofType, agents);
    SubseqRefl(agents);
    if capability.Some? && capability.value != "" then
      var offers := (a: AgentInfo) => HasCapability(a, capability.value);
      var byCapability := Filter(offers, byType);
      FilterSpec(offers, byType);
      SubseqTrans(byCapability, byType, agents);
      if agentType.Some? then
        FilterTwice(ofType, offers, m, agents);
        byCapability
      else
        FilterSame(offers, m, agents);
        byCapability
    else if agentType.Some? then
      FilterSame(ofType, m, agents);
      byType
    else
      FilterAll(m, agents);
      byType
  }

  /** What `initiate_handshake` makes of the target's reply (or of the failed call). */
  function HandshakeOutcome(
    initiator: AgentInfo,
    reply: Result<Response<HandshakeResponse>, PyError>,
    now: string): (r: Result<A2ASession, PyError>)
    ensures r.Ok? <==>
      reply.Ok? && reply.value.error.None? && reply.value.result.Some? && reply.value.result.value.accepted
    ensures r.Ok? ==>
      var accepted := reply.value.result.value;
      r.value == A2ASession(accepted.sessionId, initiator, accepted.agentInfo, now, now)
    ensures reply.Err? ==> r == Err(reply.error)
    ensures reply.Ok? && reply.value.error.Some? ==>
      r == Err(PyError(RuntimeError, "Handshake failed: " + reply.value.error.value.message))
    ensures reply.Ok? && reply.value.error.None? && !r.Ok? ==>
      r == Err(PyError(RuntimeError, "Handshake rejected by target agent"))
  {
    if reply.Err? then Err(reply.error)
    else
      var response := reply.value;
      if response.error.Some? then
        Err(PyError(RuntimeError, "Handshake failed: " + response.error.value.message))
      else if response.result.None? || !response.result.value.accepted then
        Err(PyError(RuntimeError, "Handshake rejected by target agent"))
      else
        var accepted := response.result.value;
        Ok(A2ASession(accepted.sessionId, initiator, accepted.agentInfo, now, now))
  }

  /** The handshake reply a responder gives, and the session it records. */
  function AcceptedResponse(responder: AgentInfo, sessionId: string): HandshakeResponse {
    HandshakeResponse(responder, true, sessionId, Some("Handshake accepted successfully"))
  }

  function AcceptedSession(request: HandshakeRequest, responder: AgentInfo, sessionId: string, now: string): A2ASession {
    A2ASession(sessionId, request.agentInfo, responder, now, now)
  }

  /**
   * Both ends of a successful handshake agree: when the target accepts the way
   * `accept_handshake` does, the initiator records the very session the target
   * stored (given the same clock reading), under the same id.
   */
  lemma HandshakeAgreement(initiator: AgentInfo, responder: AgentInfo, requestId: string, sessionId: string, now: string)
    ensures
      var request := HandshakeRequest(initiator);
      var reply := Reply(requestId, AcceptedResponse(responder, sessionId));
      HandshakeOutcome(initiator, Ok(reply), now) == Ok(AcceptedSession(request, responder, sessionId, now))
  {
  }

  /** A handshake transport: POST of a handshake envelope, giving the parsed reply or raising. */
  type HandshakeTransport = (string, Request<HandshakeRequest>) -> Result<Response<HandshakeResponse>, PyError>

  class DiscoveryService {
    var registry: Dict<string, AgentInfo>
    var sessions: map<string, A2ASession>

    /** The registry is a well-formed dict and files each descriptor under its own id. */
    ghost predicate Valid()
      reads this
    {
      && registry.Valid()
      && forall id :: id in registry.entries ==> registry.entries[id].agentId == id
    }

    constructor ()
      ensures Valid()
      ensures registry == Empty() && sessions == map[]
    {
      registry := Empty();
      sessions := map[];
    }

    /** Upsert: the descriptor is filed under its id, replacing any earlier one. */
    method RegisterAgent(info: AgentInfo)
      requires Valid()
      modifies this
      ensures Valid()
      ensures registry == old(registry).Put(info.agentId, info)
      ensures registry.Get(info.agentId) == Some(info)
      ensures forall id :: id != info.agentId ==> registry.Get(id) == old(registry).Get(id)
      ensures sessions == old(sessions)
    {
      registry := registry.Put(info.agentId, info);
    }

    /** Removes the id if present; an absent id is not an error. */
    method UnregisterAgent(agentId: string)
      requires Valid()
      modifies this
      ensures Valid()
      ensures registry == old(registry).Pop(agentId)
      ensures agentId !in old(registry.entries) ==> registry == old(registry)
      ensures registry.Get(agentId) == None
      ensures forall id :: id != agentId ==> registry.Get(id) == old(registry).Get(id)
      ensures forall i :: 0 <= i < |AllAgents()| ==> AllAgents()[i].agentId != agentId
      ensures sessions == old(sessions)
    {
      registry := registry.Pop(agentId);
    }

    /** `list(self._registry.values())`: each registered descriptor once, in insertion order. */
    function AllAgents(): (r: seq<AgentInfo>)
      reads this
      requires Valid()
      ensures |r| == |registry.keys|
      ensures forall i :: 0 <= i < |r| ==> r[i] == registry.entries[registry.keys[i]]
      ensures forall i :: 0 <= i < |r| ==> r[i].agentId in registry.entries
    {
      registry.Values()
    }

    /** The registered descriptors that pass the given filters, in registry order. */
    function DiscoverAgents(agentType: Option<AgentType>, capability: Option<string>): (r: seq<AgentInfo>)
      reads this
      requires Valid()
      ensures forall i :: 0 <= i < |r| ==> r[i] in AllAgents() && Matches(r[i], agentType, capability)
      ensures forall id :: id in registry.entries && Matches(registry.entries[id], agentType, capability) ==>
        registry.entries[id] in r
      ensures IsSubseq(r, AllAgents())
      ensures agentType.None? && (capability.None? || capability.value == "") ==> r == AllAgents()
      ensures r == Filter(Matcher(agentType, capability), AllAgents())
    {
      var all := AllAgents();
      forall id | id in registry.entries ensures registry.entries[id] in all {
        var i := IndexOf(registry.keys, id);
        assert all[i] == registry.entries[id];
      }
      Discover(all, agentType, capability)
    }

    /**
     * Sends a handshake carrying `initiator` and protocol version "1.0" to the
     * target; on acceptance stores the session under the id the target chose.
     */
    method InitiateHandshake(
      initiator: AgentInfo,
      targetEndpoint: string,
      requestId: string,
      post: HandshakeTransport,
      now: string) returns (r: Result<A2ASession, PyError>)
      requires Valid()
      modifies this
      ensures Valid()
      ensures
        var request := NewRequest("handshake", HandshakeRequest(initiator, "1.0"), requestId);
        r == HandshakeOutcome(initiator, post(HandshakeUrl(targetEndpoint), request), now)
      ensures r.Ok? ==> sessions == old(sessions)[r.value.sessionId := r.value]
      ensures r.Err? ==> sessions == old(sessions)
      ensures registry == old(registry)
    {
      var request := NewRequest("handshake", HandshakeRequest(initiator, "1.0"), requestId);
      var reply := post(HandshakeUrl(targetEndpoint), request);
      r := HandshakeOutcome(initiator, reply, now);
      if r.Ok? {
        sessions := sessions[r.value.sessionId := r.value];
      }
    }

    /**
     * Accepts every incoming handshake: stores a new session under `sessionId`
     * (the fresh uuid) and answers with acceptance. The initiator is not registered.
     */
    method AcceptHandshake(request: HandshakeRequest, responder: AgentInfo, sessionId: string, now: string)
      returns (response: HandshakeResponse)
      requires Valid()
      modifies this
      ensures Valid()
      ensures sessions == old(sessions)[sessionId := AcceptedSession(request, responder, sessionId, now)]
      ensures response == AcceptedResponse(responder, sessionId)
      ensures response.accepted && response.sessionId == sessionId && response.agentInfo == responder
      ensures GetSession(sessionId) == Some(A2ASession(sessionId, request.agentInfo, responder, now, now))
      ensures registry == old(registry)
    {
      var session := AcceptedSession(request, responder, sessionId, now);
      sessions := sessions[sessionId := session];
      response := AcceptedResponse(responder, sessionId);
    }

    function GetSession(sessionId: string): (r: Option<A2ASession>)
      reads this
      ensures r.Some? <==> sessionId in sessions
      ensures r.Some? ==> r.value == sessions[sessionId]
    {
      if sessionId in sessions then Some(sessions[sessionId]) else None
    }

    /** Refreshes one session's last-activity stamp; an unknown id is ignored. */
    method UpdateSessionActivity(sessionId: string, now: string)
      requires Valid()
      modifies this
      ensures Valid()
      ensures sessionId in old(sessions) ==>
        sessions == old(sessions)[sessionId := old(sessions)[sessionId].(lastActivity := now)]
      ensures sessionId !in old(sessions) ==> sessions == old(sessions)
      ensures registry == old(registry)
    {
      if sessionId in sessions {
        sessions := sessions[sessionId := sessions[sessionId].(lastActivity := now)];
      }
    }
  }
}
