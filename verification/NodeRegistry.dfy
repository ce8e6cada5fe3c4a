// The connection slots of the hub: which socket currently serves a node, what
// waits in its channel, and how far its replay of unacknowledged work has come.
module NodeRegistry {
  import opened Events
  import opened Store

  type ConnId = nat

  datatype ReplayState =
    | Registered                        // in the slot, pending work not read yet
    | Replaying(rest: seq<HubToNode>)   // routing what was pending
    | Replayed

  // `handed` is what was written to the socket so far; `skipped` is history: work
  // whose client handler ended before routing it while this connection held the slot.
  datatype Conn = Conn(node: NodeId, replay: ReplayState, channel: seq<HubToNode>, handed: seq<HubToNode>,
    skipped: set<HubToNode>)

  // `newest` is history: the last connection each node ever registered.
  datatype Registry = Registry(slots: map<NodeId, ConnId>, conns: map<ConnId, Conn>, nextConn: ConnId,
    newest: map<NodeId, ConnId>)

  const NO_NODES: Registry := Registry(map[], map[], 1, map[])

  function Rest(replay: ReplayState): seq<HubToNode> {
    match replay
    case Replaying(rest) => rest
    case _ => []
  }

  // ----- operations ---------------------------------------------------------

  function Register(r: Registry, node: NodeId): Registry {
    Registry(r.slots[node := r.nextConn],
             r.conns[r.nextConn := Conn(node, Registered, [], [], {})],
             r.nextConn + 1,
             r.newest[node := r.nextConn])
  }

  // Only the connection that still owns the slot may empty it.
  function Unregister(r: Registry, id: ConnId): Registry {
    if id !in r.conns then r
    else
      var node := r.conns[id].node;
      r.(slots := if node in r.slots && r.slots[node] == id then r.slots - {node} else r.slots, conns := r.conns - {id})
  }

  // A message for a node goes to whatever connection holds its slot, or nowhere.
  function Route(r: Registry, node: NodeId, message: HubToNode): Registry {
    if node in r.slots && r.slots[node] in r.conns then
      var id := r.slots[node];
      r.(conns := r.conns[id := r.conns[id].(channel := r.conns[id].channel + [message])])
    else r
  }

  function Skip(r: Registry, node: NodeId, message: HubToNode): Registry {
    if node in r.slots && r.slots[node] in r.conns then
      var id := r.slots[node];
      r.(conns := r.conns[id := r.conns[id].(skipped := r.conns[id].skipped + {message})])
    else r
  }

  function SetReplay(r: Registry, id: ConnId, replay: ReplayState): Registry
    requires id in r.conns
  {
    r.(conns := r.conns[id := r.conns[id].(replay := replay)])
  }

  function ReadPending(r: Registry, rows: seq<DispatchRow>, id: ConnId): Registry {
    if id in r.conns && r.conns[id].replay.Registered? then
      SetReplay(r, id, Replaying(PendingMessages(rows, r.conns[id].node)))
    else r
  }

  function ReplayTurn(r: Registry, id: ConnId): Registry {
    if id in r.conns && r.conns[id].replay.Replaying? then
      var rest := r.conns[id].replay.rest;
      if rest == [] then SetReplay(r, id, Replayed)
      else Route(SetReplay(r, id, Replaying(rest[1..])), r.conns[id].node, rest[0])
    else r
  }

  // The write loop starts once the replay is over.
  predicate CanHand(r: Registry, id: ConnId) {
    id in r.conns && r.conns[id].replay.Replayed? && r.conns[id].channel != []
  }

  function Hand(r: Registry, id: ConnId): Registry
    requires CanHand(r, id)
  {
    var c := r.conns[id];
    r.(conns := r.conns[id := c.(channel := c.channel[1..], handed := c.handed + [c.channel[0]])])
  }

  // ----- the slots -------------------------------------------------------------

  // A slot is empty or holds the newest connection its node registered.
  ghost predicate SlotInv(r: Registry) {
    && (forall n :: n in r.slots ==> r.slots[n] in r.conns && r.conns[r.slots[n]].node == n)
    && (forall n :: n in r.slots ==> n in r.newest && r.newest[n] == r.slots[n])
    && (forall n :: n in r.newest ==> r.newest[n] < r.nextConn)
    && (forall c :: c in r.conns ==> c < r.nextConn && r.conns[c].node in r.newest && c <= r.newest[r.conns[c].node])
  }

  lemma RegisterKeepsSlots(r: Registry, node: NodeId)
    requires SlotInv(r)
    ensures SlotInv(Register(r, node))
  {
  }

  lemma UnregisterKeepsSlots(r: Registry, id: ConnId)
    requires SlotInv(r)
    ensures SlotInv(Unregister(r, id))
  {
  }

  // Every other operation leaves slots, nodes and ids alone.
  ghost predicate SameSlots(r: Registry, q: Registry) {
    && q.slots == r.slots && q.nextConn == r.nextConn && q.newest == r.newest
    && q.conns.Keys == r.conns.Keys
    && forall c :: c in r.conns ==> q.conns[c].node == r.conns[c].node
  }

  lemma SameSlotsKeepsSlots(r: Registry, q: Registry)
    requires SlotInv(r) && SameSlots(r, q)
    ensures SlotInv(q)
  {
  }

  // ----- coverage ----------------------------------------------------------------

  // Where a connection may hold a piece of work.
  ghost predicate Holds(c: Conn, message: HubToNode) {
    message in Rest(c.replay) || message in c.channel || message in c.handed || message in c.skipped
  }

  // Once the connection in the slot has read the pending work, it holds every
  // unacknowledged dispatch of its node, except the ones still on their way.
  ghost predicate CoverInv(r: Registry, rows: seq<DispatchRow>, enRoute: set<(NodeId, HubToNode)>) {
    forall i :: 0 <= i < |rows| ==> RowCovered(r, rows[i], enRoute)
  }

  ghost predicate RowCovered(r: Registry, row: DispatchRow, enRoute: set<(NodeId, HubToNode)>) {
    !row.acked && row.nodeId in r.slots && r.slots[row.nodeId] in r.conns
      && !r.conns[r.slots[row.nodeId]].replay.Registered? ==>
      Holds(r.conns[r.slots[row.nodeId]], row.message) || (row.nodeId, row.message) in enRoute
  }

  lemma RegisterKeepsCover(r: Registry, rows: seq<DispatchRow>, enRoute: set<(NodeId, HubToNode)>, node: NodeId)
    requires SlotInv(r) && CoverInv(r, rows, enRoute)
    ensures CoverInv(Register(r, node), rows, enRoute)
  {
    forall i | 0 <= i < |rows|
      ensures RowCovered(Register(r, node), rows[i], enRoute)
    {
      assert RowCovered(r, rows[i], enRoute);
    }
  }

  lemma UnregisterKeepsCover(r: Registry, rows: seq<DispatchRow>, enRoute: set<(NodeId, HubToNode)>, id: ConnId)
    requires SlotInv(r) && CoverInv(r, rows, enRoute)
    ensures CoverInv(Unregister(r, id), rows, enRoute)
  {
    forall i | 0 <= i < |rows|
      ensures RowCovered(Unregister(r, id), rows[i], enRoute)
    {
      assert RowCovered(r, rows[i], enRoute);
    }
  }

  // Routing, or recording that routing was skipped, settles what was on its way.
  lemma RouteKeepsCover(r: Registry, rows: seq<DispatchRow>, enRoute: set<(NodeId, HubToNode)>,
                        left: set<(NodeId, HubToNode)>, node: NodeId, message: HubToNode)
    requires SlotInv(r) && CoverInv(r, rows, enRoute)
    requires enRoute <= left + {(node, message)}
    ensures CoverInv(Route(r, node, message), rows, left)
    ensures CoverInv(Skip(r, node, message), rows, left)
  {
    forall i | 0 <= i < |rows|
      ensures RowCovered(Route(r, node, message), rows[i], left) && RowCovered(Skip(r, node, message), rows[i], left)
    {
      assert RowCovered(r, rows[i], enRoute);
    }
  }

  lemma ReadPendingKeepsCover(r: Registry, rows: seq<DispatchRow>, enRoute: set<(NodeId, HubToNode)>, id: ConnId)
    requires SlotInv(r) && CoverInv(r, rows, enRoute)
    ensures CoverInv(ReadPending(r, rows, id), rows, enRoute)
  {
    forall i | 0 <= i < |rows|
      ensures RowCovered(ReadPending(r, rows, id), rows[i], enRoute)
    {
      assert RowCovered(r, rows[i], enRoute);
    }
  }

  // A stale connection may still be replaying: its messages go to the new slot holder.
  lemma ReplayTurnKeepsCover(r: Registry, rows: seq<DispatchRow>, enRoute: set<(NodeId, HubToNode)>, id: ConnId)
    requires SlotInv(r) && CoverInv(r, rows, enRoute)
    ensures CoverInv(ReplayTurn(r, id), rows, enRoute)
  {
    forall i | 0 <= i < |rows|
      ensures RowCovered(ReplayTurn(r, id), rows[i], enRoute)
    {
      assert RowCovered(r, rows[i], enRoute);
      if id in r.conns && r.conns[id].replay.Replaying? && r.conns[id].replay.rest != [] {
        var rest := r.conns[id].replay.rest;
        assert rest == [rest[0]] + rest[1..];
      }
    }
  }

  lemma HandKeepsCover(r: Registry, rows: seq<DispatchRow>, enRoute: set<(NodeId, HubToNode)>, id: ConnId)
    requires SlotInv(r) && CoverInv(r, rows, enRoute) && CanHand(r, id)
    ensures CoverInv(Hand(r, id), rows, enRoute)
  {
    forall i | 0 <= i < |rows|
      ensures RowCovered(Hand(r, id), rows[i], enRoute)
    {
      assert RowCovered(r, rows[i], enRoute);
      var channel := r.conns[id].channel;
      assert channel == [channel[0]] + channel[1..];
    }
  }

  // Rows may become acknowledged, and a new row must be on its way.
  lemma RowsGrowKeepsCover(r: Registry, rows: seq<DispatchRow>, rows': seq<DispatchRow>,
                           enRoute: set<(NodeId, HubToNode)>, enRoute': set<(NodeId, HubToNode)>)
    requires CoverInv(r, rows, enRoute) && enRoute <= enRoute' && |rows| <= |rows'|
    requires forall i :: 0 <= i < |rows| ==> rows'[i] == rows[i] || rows'[i] == rows[i].(acked := true)
    requires forall i :: |rows| <= i < |rows'| ==> (rows'[i].nodeId, rows'[i].message) in enRoute'
    ensures CoverInv(r, rows', enRoute')
  {
    forall i | 0 <= i < |rows'|
      ensures RowCovered(r, rows'[i], enRoute')
    {
      if i < |rows| {
        assert RowCovered(r, rows[i], enRoute);
      }
    }
  }
}
