/**
 * The orchestrator's dashboard connection manager: the list of open WebSocket
 * connections, and the messages they were sent. A connection is any value with
 * equality (a socket's identity); whether a send on it fails is the oracle `fails`.
 */
module WebSocket {
  import opened Wrappers
  import opened Json
  import opened Seqs

  /** One text frame handed to one connection: the JSON message it carried. */
  datatype Delivery<W> = Delivery(to: W, message: Object)

  /** The frames `message` produces when sent to each of `targets` in turn. */
  function Deliveries<W>(message: Object, targets: seq<W>): (r: seq<Delivery<W>>)
    ensures |r| == |targets|
    ensures forall i :: 0 <= i < |r| ==> r[i] == Delivery(targets[i], message)
  {
    seq(|targets|, i requires 0 <= i < |targets| => Delivery(targets[i], message))
  }

  lemma DeliveriesSnoc<W>(sent: seq<Delivery<W>>, message: Object, targets: seq<W>, w: W)
    ensures sent + Deliveries(message, targets + [w]) == (sent + Deliveries(message, targets)) + [Delivery(w, message)]
  {
    assert Deliveries(message, targets + [w]) == Deliveries(message, targets) + [Delivery(w, message)];
  }

  lemma DeliveriesNone<W>(sent: seq<Delivery<W>>, message: Object)
    ensures sent + Deliveries(message, []) == sent
  {
    assert Deliveries<W>(message, []) == [];
  }

  /** The message `broadcast_event` wraps around an event. */
  function EventMessage(eventType: string, data: Object, timestamp: string): (r: Object)
    ensures r.Keys == {"type", "data", "timestamp"}
    ensures r["type"] == Str(eventType) && r["data"] == Obj(data) && r["timestamp"] == Str(timestamp)
  {
    map["type" := Str(eventType), "data" := Obj(data), "timestamp" := Str(timestamp)]
  }

  /**
   * Removing the failed connections one by one, in the order they failed,
   * leaves exactly the connections whose send succeeded, in their old order.
   * This is the step: the next failed connection is the first failing one
   * of the part of the list not yet examined, at index `next`.
   */
  lemma {:induction false} FirstFailing<W>(fails: W -> bool, L: seq<W>, k: nat) returns (next: nat)
    requires k <= |L| && Filter(fails, L[k..]) != []
    ensures k <= next < |L| && fails(L[next])
    ensures forall i :: k <= i < next ==> !fails(L[i])
    ensures Filter(fails, L[k..]) == [L[next]] + Filter(fails, L[next + 1..])
    decreases |L| - k
  {
    if k == |L| {
      assert false;
    } else {
      DropFirst(L, k);
      FilterCons(fails, L[k..]);
      if fails(L[k]) {
        next := k;
      } else {
        next := FirstFailing(fails, L, k + 1);
      }
    }
  }

  /** Removing one failed connection `L[next]` advances the broadcast's clean-up by one. */
  lemma RemoveStep<W>(fails: W -> bool, L: seq<W>, k: nat, next: nat)
    requires k <= next < |L| && fails(L[next])
    requires forall i :: k <= i < next ==> !fails(L[i])
    ensures RemoveFirst(L[next], Filter(Not(fails), L[..k]) + L[k..])
         == Filter(Not(fails), L[..next + 1]) + L[next + 1..]
  {
    var d, kept, between, after := L[next], Filter(Not(fails), L[..k]), L[k..next], L[next + 1..];
    KeptPassing(fails, L, k, next);
    DropAcross(L, k, next);
    assert kept + L[k..] == (kept + between) + ([d] + after);
    RemoveFirstAfter(d, kept + between, [d] + after);
  }

  /** The passing prefix now extends over `L[k..next]`, and `L[next]` occurs in none of it. */
  lemma KeptPassing<W>(fails: W -> bool, L: seq<W>, k: nat, next: nat)
    requires k <= next < |L| && fails(L[next])
    requires forall i :: k <= i < next ==> !fails(L[i])
    ensures Filter(Not(fails), L[..k]) + L[k..next] == Filter(Not(fails), L[..next + 1])
    ensures L[next] !in Filter(Not(fails), L[..k]) + L[k..next]
  {
    var d, kept, between := L[next], Filter(Not(fails), L[..k]), L[k..next];
    forall i | 0 <= i < |between| ensures Not(fails)(between[i]) {
      assert between[i] == L[k + i];
    }
    TakeAcross(L, k, next);
    FilterConcat(Not(fails), L[..k], between);
    FilterAll(Not(fails), between);
    FilterSnoc(Not(fails), L[..k] + between, d);
    FilterSpec(Not(fails), L[..k]);
    forall i | 0 <= i < |kept + between| ensures (kept + between)[i] != d {
      assert Not(fails)((kept + between)[i]);
    }
  }

  /** Once no failed connection is left to remove, the list is the passing part of the old one. */
  lemma BroadcastDone<W>(fails: W -> bool, L: seq<W>, k: nat)
    requires k <= |L| && Filter(fails, L[k..]) == []
    ensures Filter(Not(fails), L[..k]) + L[k..] == Filter(Not(fails), L)
  {
    FilterSpec(fails, L[k..]);
    forall i | 0 <= i < |L[k..]| ensures Not(fails)(L[k..][i]) {
      assert L[k..][i] in L[k..];
    }
    FilterAll(Not(fails), L[k..]);
    TakeDrop(L, k);
    FilterConcat(Not(fails), L[..k], L[k..]);
  }

  /** Where both loops of a broadcast start: nothing examined yet. */
  lemma LoopStart<W>(fails: W -> bool, L: seq<W>)
    ensures Filter(fails, L[..0]) == [] && Filter(Not(fails), L[..0]) == []
    ensures Filter(Not(fails), L[..0]) + L[0..] == L
  {
    assert L[..0] == [];
  }

  /** One step of the sending loop: `L[i]` joins the failed or the served part. */
  lemma SendStep<W>(fails: W -> bool, L: seq<W>, i: nat)
    requires i < |L|
    ensures Filter(fails, L[..i + 1]) == Filter(fails, L[..i]) + (if fails(L[i]) then [L[i]] else [])
    ensures Filter(Not(fails), L[..i + 1]) == Filter(Not(fails), L[..i]) + (if fails(L[i]) then [] else [L[i]])
  {
    TakeSnoc(L, i);
    FilterSnoc(fails, L[..i], L[i]);
    FilterSnoc(Not(fails), L[..i], L[i]);
  }

  /**
   * One step of the clean-up loop: the `j`-th failed connection is `L[next]`,
   * and disconnecting it moves the examined boundary past it.
   */
  lemma CleanupStep<W>(fails: W -> bool, L: seq<W>, k: nat, disconnected: seq<W>, j: nat) returns (next: nat)
    requires k <= |L| && j < |disconnected|
    requires disconnected[j..] == Filter(fails, L[k..])
    ensures k <= next < |L| && disconnected[j] == L[next]
    ensures disconnected[j + 1..] == Filter(fails, L[next + 1..])
    ensures RemoveFirst(L[next], Filter(Not(fails), L[..k]) + L[k..])
         == Filter(Not(fails), L[..next + 1]) + L[next + 1..]
  {
    assert disconnected[j..][0] == disconnected[j];
    next := FirstFailing(fails, L, k);
    assert disconnected[j + 1..] == disconnected[j..][1..];
    RemoveStep(fails, L, k, next);
  }

  /** A connection that connects and then disconnects leaves the list as it was. */
  lemma ConnectThenDisconnect<W>(L: seq<W>, ws: W)
    requires ws !in L
    ensures RemoveFirst(ws, L + [ws]) == L
  {
    RemoveFirstAfter(ws, L, [ws]);
    assert RemoveFirst(ws, [ws]) == [];
  }

  /** A broadcast in which no send fails keeps every connection. */
  lemma BroadcastNoFailure<W>(fails: W -> bool, L: seq<W>)
    requires forall i :: 0 <= i < |L| ==> !fails(L[i])
    ensures Filter(Not(fails), L) == L
    ensures Filter(fails, L) == []
  {
    forall i | 0 <= i < |L| ensures Not(fails)(L[i]) {
    }
    FilterAll(Not(fails), L);
    FilterNone(fails, L);
  }

  class ConnectionManager<W(==)> {
    var activeConnections: seq<W>
    /** Every frame sent so far, in sending order. */
    var outbox: seq<Delivery<W>>

    constructor ()
      ensures activeConnections == [] && outbox == []
    {
      activeConnections := [];
      outbox := [];
    }

    /** Stores an accepted connection at the end of the list (a repeat is stored again). */
    method Connect(ws: W)
      modifies this
      ensures activeConnections == old(activeConnections) + [ws]
      ensures ws in activeConnections
      ensures outbox == old(outbox)
    {
      activeConnections := activeConnections + [ws];
    }

    /** Drops the first occurrence of `ws`; a connection not in the list is ignored. */
    method Disconnect(ws: W)
      modifies this
      ensures activeConnections == RemoveFirst(ws, old(activeConnections))
      ensures ws !in old(activeConnections) ==> activeConnections == old(activeConnections)
      ensures outbox == old(outbox)
    {
      if ws in activeConnections {
        activeConnections := RemoveFirst(ws, activeConnections);
      }
    }

    /** Sends one frame; a failed send raises to the caller and nothing is recorded. */
    method SendPersonalMessage(message: Object, ws: W, fails: W -> bool) returns (r: Result<(), PyError>)
      modifies this
      ensures r.Ok? <==> !fails(ws)
      ensures r.Ok? ==> outbox == old(outbox) + [Delivery(ws, message)]
      ensures r.Err? ==> outbox == old(outbox) && r.error.kind == TransportError
      ensures activeConnections == old(activeConnections)
    {
      if fails(ws) {
        r := Err(PyError(TransportError, "send failed"));
      } else {
        outbox := outbox + [Delivery(ws, message)];
        r := Ok(());
      }
    }

    /**
     * Sends `message` to every connection in list order, collecting those whose
     * send failed, then disconnects each of those. Afterwards the list holds
     * exactly the connections whose send succeeded, in their old order, and each
     * of them received the message once.
     */
    method Broadcast(message: Object, fails: W -> bool)
      modifies this
      ensures activeConnections == Filter(Not(fails), old(activeConnections))
      ensures outbox == old(outbox) + Deliveries(message, Filter(Not(fails), old(activeConnections)))
    {
      ghost var L := activeConnections;
      var disconnected: seq<W> := [];
      var i := 0;
      LoopStart(fails, L);
      DeliveriesNone(outbox, message);
      while i < |activeConnections|
        invariant activeConnections == L && 0 <= i <= |L|
        invariant disconnected == Filter(fails, L[..i])
        invariant outbox == old(outbox) + Deliveries(message, Filter(Not(fails), L[..i]))
      {
        var connection := activeConnections[i];
        SendStep(fails, L, i);
        var sent := SendPersonalMessage(message, connection, fails);
        if sent.Err? {
          disconnected := disconnected + [connection];
        } else {
          DeliveriesSnoc(old(outbox), message, Filter(Not(fails), L[..i]), connection);
        }
        i := i + 1;
      }
      assert L[..|L|] == L;
      DisconnectAll(disconnected, fails, L);
    }

    /**
     * The clean-up loop of `Broadcast`: disconnects each failed connection in
     * turn, which leaves the connections whose send succeeded.
     */
    method DisconnectAll(disconnected: seq<W>, ghost fails: W -> bool, ghost L: seq<W>)
      requires activeConnections == L && disconnected == Filter(fails, L)
      modifies this
      ensures activeConnections == Filter(Not(fails), L)
      ensures outbox == old(outbox)
    {
      ghost var k: nat := 0;
      LoopStart(fails, L);
      assert disconnected[0..] == disconnected;
      for j := 0 to |disconnected|
        invariant k <= |L|
        invariant activeConnections == Filter(Not(fails), L[..k]) + L[k..]
        invariant disconnected[j..] == Filter(fails, L[k..])
        invariant outbox == old(outbox)
      {
        ghost var next := CleanupStep(fails, L, k, disconnected, j);
        Disconnect(disconnected[j]);
        k := next + 1;
      }
      BroadcastDone(fails, L, k);
    }

    /** Broadcasts `{"type": eventType, "data": data, "timestamp": now}`. */
    method BroadcastEvent(eventType: string, data: Object, now: string, fails: W -> bool)
      modifies this
      ensures activeConnections == Filter(Not(fails), old(activeConnections))
      ensures outbox == old(outbox)
        + Deliveries(EventMessage(eventType, data, now), Filter(Not(fails), old(activeConnections)))
    {
      Broadcast(EventMessage(eventType, data, now), fails);
    }
  }
}
