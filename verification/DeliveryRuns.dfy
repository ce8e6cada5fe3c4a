// Events reach the log exactly once and work is acted on at most once, although
// every frame may be lost, repeated or delayed.
module DeliveryRuns {
  import opened Events
  import opened Store
  import opened Ledger
  import opened NodeRegistry
  import opened ControlPlane

  // ----- what may travel towards a node ------------------------------------------

  ghost predicate HasRow(rows: seq<DispatchRow>, n: NodeId, m: HubToNode) {
    exists i :: 0 <= i < |rows| && rows[i].nodeId == n && rows[i].message == m
  }

  ghost predicate Logged(events: seq<Event>, id: EventId) {
    exists i :: 0 <= i < |events| && events[i].eventId == id
  }

  // Work has its durable row; an event acknowledgement has its log entry, or the
  // hub turned the event away.
  ghost predicate Legit(t: Tables, rejected: set<EventId>, x: (NodeId, HubToNode)) {
    match x.1
    case DispatchCommand(_, _) => HasRow(t.dispatches, x.0, x.1)
    case EventAck(id) => Logged(t.events, id) || id in rejected
  }

  ghost predicate AllLegit(t: Tables, rejected: set<EventId>, xs: set<(NodeId, HubToNode)>) {
    forall x :: x in xs ==> Legit(t, rejected, x)
  }

  lemma LegitGrows(t: Tables, t': Tables, rejected: set<EventId>, rejected': set<EventId>, xs: set<(NodeId, HubToNode)>)
    requires AllLegit(t, rejected, xs) && Grows(t, t') && rejected <= rejected'
    ensures AllLegit(t', rejected', xs)
  {
    forall x | x in xs
      ensures Legit(t', rejected', x)
    {
      assert Legit(t, rejected, x);
      if x.1.DispatchCommand? {
        var i :| 0 <= i < |t.dispatches| && t.dispatches[i].nodeId == x.0 && t.dispatches[i].message == x.1;
        assert t'.dispatches[i].message == x.1;
      } else if id :| 0 <= id < |t.events| && t.events[id].eventId == x.1.eventId {
        assert t'.events[id] == t.events[id];
      }
    }
  }

  // Everything waiting in some connection.
  function Queued(r: Registry): set<(NodeId, HubToNode)> {
    set c, m | c in r.conns && m in r.conns[c].channel + Rest(r.conns[c].replay) :: (r.conns[c].node, m)
  }

  lemma QueuedMoves(r: Registry, node: NodeId, m: HubToNode, id: ConnId)
    ensures Queued(Register(r, node)) <= Queued(r)
    ensures Queued(Unregister(r, id)) <= Queued(r)
    ensures Queued(Route(r, node, m)) <= Queued(r) + {(node, m)} || !SlotInv(r)
    ensures Queued(Skip(r, node, m)) <= Queued(r)
  {
  }

  lemma QueuedReplays(r: Registry, rows: seq<DispatchRow>, id: ConnId)
    requires SlotInv(r)
    ensures Queued(ReplayTurn(r, id)) <= Queued(r)
    ensures forall x :: x in Queued(ReadPending(r, rows, id)) ==> x in Queued(r) || HasRow(rows, x.0, x.1)
  {
    if id in r.conns && r.conns[id].replay.Replaying? && r.conns[id].replay.rest != [] {
      var rest := r.conns[id].replay.rest;
      assert rest[0] in rest && forall m :: m in rest[1..] ==> m in rest;
      var q := SetReplay(r, id, Replaying(rest[1..]));
      assert (r.conns[id].node, rest[0]) in Queued(r);
      assert Queued(q) <= Queued(r);
      QueuedMoves(q, r.conns[id].node, rest[0], id);
      SameSlotsKeepsSlots(r, q);
    }
  }

  lemma QueuedHands(r: Registry, id: ConnId)
    requires CanHand(r, id)
    ensures Queued(Hand(r, id)) <= Queued(r)
    ensures (r.conns[id].node, r.conns[id].channel[0]) in Queued(r)
  {
    var channel := r.conns[id].channel;
    assert channel[0] in channel && forall m :: m in channel[1..] ==> m in channel;
  }

  ghost predicate MessageInv(s: Sys) {
    AllLegit(s.ledger.tables, s.net.rejected, EnRoute(s.procs) + Queued(s.registry) + s.net.toNode)
  }

  // ----- events ---------------------------------------------------------------------

  // The hub's check, read off the run rows.
  ghost predicate Bound(t: Tables, n: NodeId, d: EventDraft) {
    && d.nodeId == n && d.runId.Some? && d.runId.value in t.runs
    && t.runs[d.runId.value].nodeId == n && t.runs[d.runId.value].taskId == d.taskId
  }

  ghost predicate CacheInv(s: Sys) {
    forall r :: r in s.cache ==>
      && r in s.ledger.tables.runs
      && s.cache[r] == (s.ledger.tables.runs[r].nodeId, s.ledger.tables.runs[r].taskId)
  }

  lemma AdmitsIsBound(s: Sys, n: NodeId, d: EventDraft)
    requires CacheInv(s)
    ensures Admits(s, n, d) == Bound(s.ledger.tables, n, d)
  {
  }

  ghost predicate FramesEmitted(net: Net) {
    && (forall f :: f in net.toHub && f.1.NodeEvent? ==>
          f.1.eventId in net.emitted && net.emitted[f.1.eventId] == (f.0, f.1.draft))
    && (forall n :: n in net.nodes ==> OutboxEmitted(net, n, net.nodes[n].outbox))
  }

  ghost predicate OutboxEmitted(net: Net, n: NodeId, outbox: seq<(EventId, EventDraft)>) {
    forall e :: e in outbox ==> e.0 in net.emitted && net.emitted[e.0] == (n, e.1)
  }

  // An event leaves its outbox only once it is logged, or turned away.
  ghost predicate NoneLost(events: seq<Event>, net: Net) {
    forall id :: id in net.emitted ==> Kept(events, net, id)
  }

  ghost predicate Kept(events: seq<Event>, net: Net, id: EventId)
    requires id in net.emitted
  {
    || (id, net.emitted[id].1) in NodeAt(net, net.emitted[id].0).outbox
    || Logged(events, id)
    || id in net.rejected
  }

  // What the log holds of node events is what was emitted and admitted.
  ghost predicate LogAdmitted(t: Tables, net: Net) {
    forall i :: 0 <= i < |t.events| && t.events[i].eventId in net.emitted ==>
      && t.events[i].commandId.None?
      && t.events[i].draft == net.emitted[t.events[i].eventId].1
      && Bound(t, net.emitted[t.events[i].eventId].0, t.events[i].draft)
  }

  // What the check would have admitted when it was emitted is never turned away.
  ghost predicate PromisesKept(t: Tables, net: Net) {
    && (forall id :: id in net.promised ==>
          id in net.emitted && Bound(t, net.emitted[id].0, net.emitted[id].1) && id !in net.rejected)
    && (forall id :: id in net.rejected ==> id in net.emitted)
  }

  ghost predicate EventInv(t: Tables, net: Net) {
    FramesEmitted(net) && NoneLost(t.events, net) && LogAdmitted(t, net) && PromisesKept(t, net)
  }

  // ----- engines ----------------------------------------------------------------------

  ghost predicate EngineOk(rows: seq<DispatchRow>, n: NodeId, node: Node) {
    && (forall i :: 0 <= i < |node.effects| ==>
          node.effects[i].DispatchCommand? && node.effects[i].commandId in node.seen &&
            HasRow(rows, n, node.effects[i]))
    && (forall c :: c in node.seen ==>
         exists i :: 0 <= i < |node.effects| && node.effects[i].DispatchCommand? && node.effects[i].commandId == c)
    && (forall i, j ::
          0 <= i < j < |node.effects| && node.effects[i].DispatchCommand? && node.effects[j].DispatchCommand? ==>
          node.effects[i].commandId != node.effects[j].commandId)
  }

  ghost predicate AcksTrue(rows: seq<DispatchRow>, net: Net) {
    && (forall f :: f in net.toHub && f.1.CommandAck? ==> f.1.commandId in NodeAt(net, f.0).seen)
    && (forall i :: 0 <= i < |rows| && rows[i].acked ==> rows[i].commandId in NodeAt(net, rows[i].nodeId).seen)
  }

  ghost predicate EngineInv(rows: seq<DispatchRow>, net: Net) {
    (forall n :: n in net.nodes ==> EngineOk(rows, n, net.nodes[n])) && AcksTrue(rows, net)
  }

  ghost predicate NetInv(s: Sys) {
    && CacheInv(s) && MessageInv(s)
    && EventInv(s.ledger.tables, s.net) && EngineInv(s.ledger.tables.dispatches, s.net)
  }

  // ----- the tables grow, the network does not notice ------------------------------------

  lemma BoundGrows(t: Tables, t': Tables, n: NodeId, d: EventDraft)
    requires Bound(t, n, d) && Grows(t, t')
    ensures Bound(t', n, d)
  {
  }

  lemma EventsGrow(t: Tables, t': Tables, net: Net)
    requires EventInv(t, net) && Grows(t, t')
    requires forall i :: |t.events| <= i < |t'.events| ==> t'.events[i].eventId !in net.emitted
    ensures EventInv(t', net)
  {
    forall id | id in net.emitted
      ensures Kept(t'.events, net, id)
    {
      assert Kept(t.events, net, id);
      StaysLogged(t.events, t'.events, id);
    }
    forall i | 0 <= i < |t'.events| && t'.events[i].eventId in net.emitted
      ensures t'.events[i].commandId.None? && t'.events[i].draft == net.emitted[t'.events[i].eventId].1
        && Bound(t', net.emitted[t'.events[i].eventId].0, t'.events[i].draft)
    {
      assert t'.events[i] == t.events[i];
      BoundGrows(t, t', net.emitted[t'.events[i].eventId].0, t'.events[i].draft);
    }
  }

  lemma StaysLogged(events: seq<Event>, events': seq<Event>, id: EventId)
    requires events <= events'
    ensures Logged(events, id) ==> Logged(events', id)
  {
    if i :| 0 <= i < |events| && events[i].eventId == id {
      assert events'[i].eventId == id;
    }
  }

  lemma RowGrows(rows: seq<DispatchRow>, rows': seq<DispatchRow>, n: NodeId, m: HubToNode)
    requires HasRow(rows, n, m) && |rows| <= |rows'|
    requires forall i :: 0 <= i < |rows| ==> rows'[i] == rows[i] || rows'[i] == rows[i].(acked := true)
    ensures HasRow(rows', n, m)
  {
    var i :| 0 <= i < |rows| && rows[i].nodeId == n && rows[i].message == m;
    assert rows'[i].message == m;
  }

  lemma EnginesGrow(rows: seq<DispatchRow>, rows': seq<DispatchRow>, net: Net)
    requires EngineInv(rows, net) && |rows| <= |rows'|
    requires forall i :: 0 <= i < |rows| ==> rows'[i] == rows[i] || rows'[i] == rows[i].(acked := true)
    requires forall i :: 0 <= i < |rows'| && rows'[i].acked ==>
      (i < |rows| && rows[i].acked) || rows'[i].commandId in NodeAt(net, rows'[i].nodeId).seen
    ensures EngineInv(rows', net)
  {
    forall n | n in net.nodes
      ensures EngineOk(rows', n, net.nodes[n])
    {
      var node := net.nodes[n];
      assert EngineOk(rows, n, node);
      forall i | 0 <= i < |node.effects|
        ensures HasRow(rows', n, node.effects[i])
      {
        RowGrows(rows, rows', n, node.effects[i]);
      }
    }
  }
}
