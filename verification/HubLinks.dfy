// The hub's table of connected nodes as an object.
module HubLinks {
  import opened Events
  import opened Store
  import opened NodeRegistry
  import HubStore

  class NodeTable {
    var slots: map<NodeId, ConnId>
    var conns: map<ConnId, Conn>
    var nextConn: ConnId
    ghost var newest: map<NodeId, ConnId>

    ghost function View(): Registry
      reads this
    {
      Registry(slots, conns, nextConn, newest)
    }

    constructor ()
      ensures View() == NO_NODES
    {
      slots, conns, nextConn := map[], map[], 1;
      newest := map[];
    }

    method RegisterNode(node: NodeId) returns (id: ConnId)
      modifies this
      ensures id == old(nextConn) && slots == old(slots)[node := id]
      ensures conns == old(conns)[id := Conn(node, Registered, [], [], {})]
      ensures View() == Register(old(View()), node)
    {
      id := nextConn;
      nextConn := nextConn + 1;
      slots := slots[node := id];
      conns := conns[id := Conn(node, Registered, [], [], {})];
      newest := newest[node := id];
    }

    // Returns whether the connection still owned its slot.
    method UnregisterNode(node: NodeId, id: ConnId) returns (owned: bool)
      requires id in conns && conns[id].node == node
      modifies this
      ensures slots == (if owned then old(slots) - {node} else old(slots)) && conns == old(conns) - {id}
      ensures View() == Unregister(old(View()), id)
      ensures owned == (node in old(slots) && old(slots)[node] == id)
    {
      owned := node in slots && slots[node] == id;
      if owned {
        slots := slots - {node};
      }
      conns := conns - {id};
    }

    // Returns whether a connected node received the message.
    method RouteToNode(node: NodeId, message: HubToNode) returns (routed: bool)
      requires SlotInv(View())
      modifies this
      ensures routed == (node in old(slots)) && slots == old(slots) && conns.Keys == old(conns).Keys
      ensures forall c :: c in conns ==>
        conns[c] == if routed && c == slots[node] then old(conns)[c].(channel := old(conns)[c].channel + [message])
                    else old(conns)[c]
      ensures View() == Route(old(View()), node, message)
      ensures SlotInv(View())
    {
      routed := node in slots;
      if routed {
        var id := slots[node];
        conns := conns[id := conns[id].(channel := conns[id].channel + [message])];
      }
      SameSlotsKeepsSlots(old(View()), View());
    }

    // Reads the node's unacknowledged work and routes all of it, oldest first.
    method ReplayPending(hub: HubStore.Hub, node: NodeId)
      requires SlotInv(View())
      modifies this
      ensures View() == RouteAll(old(View()), node, PendingMessages(hub.dispatches, node))
      ensures SlotInv(View()) && slots == old(slots)
      ensures node in slots ==>
        var was, now := old(conns)[slots[node]].channel, conns[slots[node]].channel;
        was <= now && OldestFirst(hub.dispatches, node, now[|was|..])
      ensures conns.Keys == old(conns).Keys
      ensures forall c :: c in conns && (node !in slots || c != slots[node]) ==> conns[c] == old(conns)[c]
    {
      var pending := hub.PendingDispatches(node);
      RouteAllFills(View(), node, pending);
      SameSlotsKeepsSlots(View(), RouteAll(View(), node, pending));
      for i := 0 to |pending|
        invariant SlotInv(View())
        invariant RouteAll(View(), node, pending[i..]) == RouteAll(old(View()), node, pending)
      {
        assert pending[i..][0] == pending[i] && pending[i..][1..] == pending[i + 1..];
        var _ := RouteToNode(node, pending[i]);
      }
    }
  }

  function RouteAll(r: Registry, node: NodeId, pending: seq<HubToNode>): Registry
    decreases |pending|
  {
    if pending == [] then r else RouteAll(Route(r, node, pending[0]), node, pending[1..])
  }

  lemma {:induction false} RouteAllFills(r: Registry, node: NodeId, pending: seq<HubToNode>)
    requires SlotInv(r)
    ensures
      var q := RouteAll(r, node, pending);
      && SameSlots(r, q)
      && (node in r.slots ==> q.conns[r.slots[node]].channel == r.conns[r.slots[node]].channel + pending)
      && (forall c :: c in r.conns && (node !in r.slots || c != r.slots[node]) ==> q.conns[c] == r.conns[c])
    decreases |pending|
  {
    if pending != [] {
      var q := Route(r, node, pending[0]);
      SameSlotsKeepsSlots(r, q);
      RouteAllFills(q, node, pending[1..]);
      assert [pending[0]] + pending[1..] == pending;
    }
  }

  // ----- replay, turn by turn ------------------------------------------------------

  function Turns(r: Registry, id: ConnId, n: nat): Registry
    decreases n
  {
    if n == 0 then r else Turns(ReplayTurn(r, id), id, n - 1)
  }

  lemma RoutingLeavesReplay(r: Registry, id: ConnId, replay: ReplayState, node: NodeId, m: HubToNode)
    requires id in r.conns
    ensures id in Route(r, node, m).conns && Route(r, node, m).conns[id].node == r.conns[id].node
    ensures Route(r, node, m).conns[id].replay == r.conns[id].replay
    ensures Route(SetReplay(r, id, replay), node, m) == SetReplay(Route(r, node, m), id, replay)
  {
    if node in r.slots && r.slots[node] in r.conns {
      var k := r.slots[node];
      var c := r.conns[k].(channel := r.conns[k].channel + [m]);
      if k == id {
        assert Route(SetReplay(r, id, replay), node, m).conns == r.conns[id := c.(replay := replay)];
      } else {
        assert r.conns[id := r.conns[id].(replay := replay)][k := c] ==
          r.conns[k := c][id := r.conns[id].(replay := replay)];
      }
    }
  }

  lemma {:induction false} TurnsRouteAll(r: Registry, id: ConnId, rest: seq<HubToNode>)
    requires id in r.conns
    ensures id in RouteAll(r, r.conns[id].node, rest).conns
    ensures Turns(SetReplay(r, id, Replaying(rest)), id, |rest| + 1)
         == SetReplay(RouteAll(r, r.conns[id].node, rest), id, Replayed)
    decreases |rest|
  {
    var node, t := r.conns[id].node, SetReplay(r, id, Replaying(rest));
    if rest == [] {
      assert ReplayTurn(t, id) == SetReplay(r, id, Replayed);
      assert Turns(ReplayTurn(t, id), id, 0) == ReplayTurn(t, id);
    } else {
      RoutingLeavesReplay(r, id, Replaying(rest[1..]), node, rest[0]);
      assert SetReplay(t, id, Replaying(rest[1..])) == SetReplay(r, id, Replaying(rest[1..]));
      assert ReplayTurn(t, id) == SetReplay(Route(r, node, rest[0]), id, Replaying(rest[1..]));
      TurnsRouteAll(Route(r, node, rest[0]), id, rest[1..]);
    }
  }

  // The loop is what reading the rows and all the turns of the step function do when
  // nothing comes between them.
  lemma ReplayLoopIsTurns(r: Registry, rows: seq<DispatchRow>, id: ConnId)
    requires id in r.conns && r.conns[id].replay.Registered?
    ensures
      var node := r.conns[id].node;
      var pending := PendingMessages(rows, node);
      var routed := RouteAll(r, node, pending);
      && id in routed.conns
      && Turns(ReadPending(r, rows, id), id, |pending| + 1) == SetReplay(routed, id, Replayed)
  {
    TurnsRouteAll(r, id, PendingMessages(rows, r.conns[id].node));
  }
}
