// Work gets done and events get through: from any state that a run can reach, a few steps
// finish what is waiting, if nothing comes between them.
module WorkProgress {
  import opened Events
  import opened Store
  import opened Ledger
  import opened NodeRegistry
  import opened HubLinks
  import LiveFeed
  import opened ControlPlane
  import opened DispatchRuns
  import opened DeliveryRuns
  import opened NodeSteps
  import opened ControlPlaneTheorems

  // ----- a frame with work ------------------------------------------------------------------

  // The engine's gate, field by field.
  lemma ReceiptShape(s: Sys, n: NodeId, m: HubToNode)
    requires (n, m) in s.net.toNode && m.DispatchCommand?
    ensures
      var t := Next(s, NodeReceive(n, m));
      var node, node' := NodeAt(s.net, n), NodeAt(t.net, n);
      && node'.seen == node.seen + {m.commandId}
      && node'.effects == node.effects + (if m.commandId in node.seen then [] else [m])
      && node'.outbox == node.outbox
      && t == s.(net := s.net.(nodes := t.net.nodes))
      && forall k :: k != n ==> NodeAt(t.net, k) == NodeAt(s.net, k)
  {
    var node := NodeAt(s.net, n);
    assert m.commandId in node.seen ==> node.seen + {m.commandId} == node.seen && node.effects + [] == node.effects;
  }

  // One effect and no more has the command id of this work, and it is this work.
  ghost predicate DoneOnce(effects: seq<HubToNode>, m: HubToNode) {
    exists i :: 0 <= i < |effects| && effects[i] == m
      && forall j :: 0 <= j < |effects| && SameWork(effects[j], m) ==> j == i
  }

  lemma RowsTellMessages(t: Tables, n: NodeId, m: HubToNode, m': HubToNode)
    requires DispatchesMatchReceipts(t) && HasRow(t.dispatches, n, m) && HasRow(t.dispatches, n, m')
    requires SameWork(m, m')
    ensures m == m'
  {
    var i :| 0 <= i < |t.dispatches| && t.dispatches[i].nodeId == n && t.dispatches[i].message == m;
    var j :| 0 <= j < |t.dispatches| && t.dispatches[j].nodeId == n && t.dispatches[j].message == m';
    assert i == j;
  }

  // In any run: a frame with work that reaches its node is acted on, now or before, and
  // exactly once.
  lemma DeliveredWorkIsDone(labels: seq<Label>, n: NodeId, m: HubToNode)
    requires (n, m) in Run(labels).net.toNode && m.DispatchCommand?
    ensures
      var s, t := Run(labels), Run(labels + [NodeReceive(n, m)]);
      var node, node' := NodeAt(s.net, n), NodeAt(t.net, n);
      && node'.seen == node.seen + {m.commandId}
      && node'.effects == node.effects + (if m.commandId in node.seen then [] else [m])
      && DoneOnce(node'.effects, m)
  {
    hide Run, Next, NetInv, AcksTrue, CacheInv, EventInv;
    var s, t := Run(labels), Run(labels + [NodeReceive(n, m)]);
    RunExtends(labels, NodeReceive(n, m));
    ReceiptShape(s, n, m);
    SeenWorkIsDone(labels + [NodeReceive(n, m)], n, m);
  }

  lemma SeenWorkIsDone(labels: seq<Label>, n: NodeId, m: HubToNode)
    requires (n, m) in Run(labels).net.toNode && m.DispatchCommand?
    requires m.commandId in NodeAt(Run(labels).net, n).seen
    ensures DoneOnce(NodeAt(Run(labels).net, n).effects, m)
  {
    hide Run, AcksTrue, CacheInv, EventInv, UniqueIds, Gapless, ReceiptsMatchLog, StatusIsReplay, WakesAreDue;
    hide LiveFeed.FeedInv;
    var s := Run(labels);
    var tables, node := s.ledger.tables, NodeAt(s.net, n);
    ReachableNet(labels);
    ReachableStore(labels);
    EngineAt(tables.dispatches, s.net, n);
    assert Legit(tables, s.net.rejected, (n, m));
    var i :| 0 <= i < |node.effects| && node.effects[i].DispatchCommand? && node.effects[i].commandId == m.commandId;
    RowsTellMessages(tables, n, node.effects[i], m);
  }

  // ----- a connection that replays ------------------------------------------------------------

  function ReplaySteps(c: ConnId, k: nat): seq<Label> {
    if k == 0 then [] else [ReplayStep(c)] + ReplaySteps(c, k - 1)
  }

  lemma {:induction false} ReplayIsTurns(labels: seq<Label>, c: ConnId, k: nat)
    ensures Run(labels + ReplaySteps(c, k)) == Run(labels).(registry := Turns(Run(labels).registry, c, k))
    decreases k
  {
    hide Run, Next, ReplayTurn;
    if k == 0 {
      assert labels + ReplaySteps(c, 0) == labels;
    } else {
      RunExtends(labels, ReplayStep(c));
      ReplayStepIs(Run(labels), c);
      ReplayIsTurns(labels + [ReplayStep(c)], c, k - 1);
      assert labels + ReplaySteps(c, k) == labels + [ReplayStep(c)] + ReplaySteps(c, k - 1);
    }
  }

  lemma ReplayStepIs(s: Sys, c: ConnId)
    ensures Next(s, ReplayStep(c)) == s.(registry := ReplayTurn(s.registry, c))
  {
    hide ReplayTurn, Perform;
  }

  lemma LinkSteps(s: Sys, n: NodeId, c: ConnId)
    ensures Next(s, RegisterNode(n)) == s.(registry := Register(s.registry, n))
    ensures Next(s, ReadPendingStep(c)) == s.(registry := ReadPending(s.registry, s.ledger.tables.dispatches, c))
  {
    hide Register, ReadPending, Perform;
  }

  // A node connects anew, its pending work is read, and all of it is routed.
  function Reconnect(n: NodeId, c: ConnId, k: nat): seq<Label> {
    [RegisterNode(n)] + [ReadPendingStep(c)] + ReplaySteps(c, k + 1)
  }

  // The connection that holds the slot and has replayed.
  ghost predicate Serves(r: Registry, n: NodeId, c: ConnId, waiting: seq<HubToNode>) {
    && n in r.slots && r.slots[n] == c && c in r.conns
    && r.conns[c].node == n && r.conns[c].replay.Replayed? && r.conns[c].channel == waiting
  }

  lemma RegistryReconnects(r: Registry, rows: seq<DispatchRow>, n: NodeId)
    requires SlotInv(r)
    ensures
      var pending := PendingMessages(rows, n);
      var c, added := r.nextConn, Register(r, n);
      var q := Turns(ReadPending(added, rows, c), c, |pending| + 1);
      Serves(q, n, c, pending)
  {
    var pending := PendingMessages(rows, n);
    var c, added := r.nextConn, Register(r, n);
    hide SlotInv, RouteAll, Turns, ReadPending, PendingMessages, SameSlots;
    RegisterKeepsSlots(r, n);
    ReplayLoopIsTurns(added, rows, c);
    RouteAllFills(added, n, pending);
    SameSlotsPart(added, RouteAll(added, n, pending), c);
    assert added.conns[c].channel + pending == pending;
  }

  lemma SameSlotsPart(r: Registry, q: Registry, c: ConnId)
    requires SameSlots(r, q) && c in r.conns
    ensures q.slots == r.slots && c in q.conns && q.conns[c].node == r.conns[c].node
  {
  }

  // In any run: a node that connects anew has its unacknowledged work in its channel once
  // its connection has replayed, all of it and oldest first.
  lemma Reconnected(labels: seq<Label>, n: NodeId)
    ensures
      var s := Run(labels);
      var rows := s.ledger.tables.dispatches;
      var pending := PendingMessages(rows, n);
      var t := Run(labels + Reconnect(n, s.registry.nextConn, |pending|));
      && t == s.(registry := t.registry) && Serves(t.registry, n, s.registry.nextConn, pending)
      && OldestFirst(rows, n, pending)
  {
    PendingOldestFirst(Run(labels).ledger.tables.dispatches, n);
    hide Run, Next, Register, ReadPending, Turns, Serves, SlotInv, CoverInv, OldestFirst;
    var s := Run(labels);
    var rows, c := s.ledger.tables.dispatches, s.registry.nextConn;
    var k := |PendingMessages(rows, n)| + 1;
    ReachableDispatch(labels);
    RunExtends(labels, RegisterNode(n));
    LinkSteps(s, n, c);
    var s1 := Run(labels + [RegisterNode(n)]);
    RunExtends(labels + [RegisterNode(n)], ReadPendingStep(c));
    LinkSteps(s1, n, c);
    ReplayIsTurns(labels + [RegisterNode(n)] + [ReadPendingStep(c)], c, k);
    RegistryReconnects(s.registry, rows, n);
    assert labels + Reconnect(n, c, k - 1) ==
      labels + [RegisterNode(n)] + [ReadPendingStep(c)] + ReplaySteps(c, k);
  }

  // ----- what waits is handed on -----------------------------------------------------------------

  function HandSteps(c: ConnId, k: nat): seq<Label> {
    if k == 0 then [] else [HandStep(c)] + HandSteps(c, k - 1)
  }

  lemma HandsOne(s: Sys, n: NodeId, c: ConnId, waiting: seq<HubToNode>)
    requires Serves(s.registry, n, c, waiting) && waiting != []
    ensures
      var t := Next(s, HandStep(c));
      && Serves(t.registry, n, c, waiting[1..])
      && t == s.(registry := t.registry, net := s.net.(toNode := s.net.toNode + {(n, waiting[0])}))
  {
  }

  ghost predicate HandedOn(s: Sys, t: Sys, n: NodeId, waiting: seq<HubToNode>) {
    && t == s.(registry := t.registry, net := s.net.(toNode := t.net.toNode))
    && s.net.toNode <= t.net.toNode
    && forall m :: m in waiting ==> (n, m) in t.net.toNode
  }

  lemma {:induction false} HandsAll(labels: seq<Label>, n: NodeId, c: ConnId, waiting: seq<HubToNode>)
    requires Serves(Run(labels).registry, n, c, waiting)
    ensures HandedOn(Run(labels), Run(labels + HandSteps(c, |waiting|)), n, waiting)
    decreases |waiting|
  {
    hide Run, Next, Serves;
    if waiting == [] {
      assert labels + HandSteps(c, 0) == labels;
    } else {
      HandsOne(Run(labels), n, c, waiting);
      RunExtends(labels, HandStep(c));
      HandsAll(labels + [HandStep(c)], n, c, waiting[1..]);
      assert labels + HandSteps(c, |waiting|) == labels + [HandStep(c)] + HandSteps(c, |waiting| - 1);
      assert waiting == [waiting[0]] + waiting[1..];
    }
  }

  // ----- the node works, and the hub is told ---------------------------------------------------

  // A frame is received, its work acknowledged, and the acknowledgement received.
  function Serve(n: NodeId, m: HubToNode, p: ProcId): seq<Label>
    requires m.DispatchCommand?
  {
    [NodeReceive(n, m)] + [SendAck(n, m.commandId)] + [HubReceive(p, n, CommandAck(m.commandId))]
  }

  // The rows with this command and node are acknowledged, and no other is touched.
  ghost predicate AcksOne(rows: seq<DispatchRow>, rows': seq<DispatchRow>, n: NodeId, id: CommandId) {
    && |rows'| == |rows|
    && forall i :: 0 <= i < |rows| ==>
         rows'[i] == if rows[i].nodeId == n && rows[i].commandId == id then rows[i].(acked := true) else rows[i]
  }

  lemma SendAckShape(s: Sys, n: NodeId, id: CommandId)
    requires id in NodeAt(s.net, n).seen
    ensures Next(s, SendAck(n, id)) == s.(net := s.net.(toHub := s.net.toHub + {(n, CommandAck(id))}))
  {
  }

  lemma AckReceived(s: Sys, n: NodeId, id: CommandId, p: ProcId)
    requires (n, CommandAck(id)) in s.net.toHub && p !in s.procs
    ensures
      var t := Next(s, HubReceive(p, n, CommandAck(id)));
      && AcksOne(s.ledger.tables.dispatches, t.ledger.tables.dispatches, n, id)
      && t.net == s.net && t.procs == s.procs
  {
    AckedRows(s, id, n);
    hide Perform, Admits;
  }

  lemma AckShape(s: Sys, n: NodeId, id: CommandId, p: ProcId)
    requires id in NodeAt(s.net, n).seen && p !in s.procs
    ensures
      var t := Next(Next(s, SendAck(n, id)), HubReceive(p, n, CommandAck(id)));
      && AcksOne(s.ledger.tables.dispatches, t.ledger.tables.dispatches, n, id)
      && t.net.toNode == s.net.toNode && t.procs == s.procs
  {
    hide Next, AcksOne, NodeAt;
    SendAckShape(s, n, id);
    AckReceived(Next(s, SendAck(n, id)), n, id, p);
  }

  lemma ServesOne(labels: seq<Label>, n: NodeId, m: HubToNode, p: ProcId)
    requires (n, m) in Run(labels).net.toNode && m.DispatchCommand? && p !in Run(labels).procs
    ensures
      var s, t := Run(labels), Run(labels + Serve(n, m, p));
      && AcksOne(s.ledger.tables.dispatches, t.ledger.tables.dispatches, n, m.commandId)
      && t.net.toNode == s.net.toNode && t.procs == s.procs
  {
    hide Run, Next, AcksOne, NodeAt;
    var first, second := labels + [NodeReceive(n, m)], labels + [NodeReceive(n, m)] + [SendAck(n, m.commandId)];
    RunExtends(labels, NodeReceive(n, m));
    ReceiptShape(Run(labels), n, m);
    RunExtends(first, SendAck(n, m.commandId));
    RunExtends(second, HubReceive(p, n, CommandAck(m.commandId)));
    AckShape(Run(first), n, m.commandId, p);
    assert labels + Serve(n, m, p) == second + [HubReceive(p, n, CommandAck(m.commandId))];
  }

  function ServeAll(n: NodeId, work: seq<HubToNode>, p: ProcId): seq<Label>
    requires forall m :: m in work ==> m.DispatchCommand?
  {
    if work == [] then [] else Serve(n, work[0], p) + ServeAll(n, work[1..], p)
  }

  ghost predicate AcksAll(rows: seq<DispatchRow>, rows': seq<DispatchRow>, n: NodeId, work: seq<HubToNode>) {
    && |rows'| == |rows|
    && forall i :: 0 <= i < |rows| ==>
         rows'[i] == if rows[i].nodeId == n && rows[i].message in work then rows[i].(acked := true) else rows[i]
  }

  ghost predicate NamedByRows(rows: seq<DispatchRow>, work: seq<HubToNode>) {
    && (forall m :: m in work ==> m.DispatchCommand?)
    && forall m, i :: m in work && 0 <= i < |rows| ==> (rows[i].commandId == m.commandId <==> rows[i].message == m)
  }

  lemma AckOneMore(rows: seq<DispatchRow>, rows': seq<DispatchRow>, rows'': seq<DispatchRow>, n: NodeId,
                   work: seq<HubToNode>)
    requires work != [] && NamedByRows(rows, work)
    requires work[0].DispatchCommand? && AcksOne(rows, rows', n, work[0].commandId)
    requires AcksAll(rows', rows'', n, work[1..])
    ensures AcksAll(rows, rows'', n, work)
  {
    assert work == [work[0]] + work[1..];
    forall i | 0 <= i < |rows|
      ensures rows''[i] == if rows[i].nodeId == n && rows[i].message in work then rows[i].(acked := true) else rows[i]
    {
      assert rows'[i].message == rows[i].message && rows'[i].nodeId == rows[i].nodeId;
      assert rows[i].message in work <==> rows[i].message == work[0] || rows[i].message in work[1..];
    }
  }

  lemma StillNamed(rows: seq<DispatchRow>, rows': seq<DispatchRow>, n: NodeId, work: seq<HubToNode>)
    requires work != [] && NamedByRows(rows, work)
    requires work[0].DispatchCommand? && AcksOne(rows, rows', n, work[0].commandId)
    ensures NamedByRows(rows', work[1..])
  {
    assert work == [work[0]] + work[1..];
  }

  lemma ServingInOrder(labels: seq<Label>, n: NodeId, work: seq<HubToNode>, p: ProcId)
    requires forall m :: m in work ==> m.DispatchCommand?
    ensures labels + ServeAll(n, work, p) ==
            if work == [] then labels else labels + Serve(n, work[0], p) + ServeAll(n, work[1..], p)
  {
    hide Serve;
  }

  lemma {:induction false} ServesAll(labels: seq<Label>, n: NodeId, work: seq<HubToNode>, p: ProcId)
    requires NamedByRows(Run(labels).ledger.tables.dispatches, work) && p !in Run(labels).procs
    requires forall m :: m in work ==> (n, m) in Run(labels).net.toNode && m.DispatchCommand?
    ensures AcksAll(Run(labels).ledger.tables.dispatches,
      Run(labels + ServeAll(n, work, p)).ledger.tables.dispatches, n, work)
    decreases |work|
  {
    hide Run, AcksOne, AcksAll, NamedByRows, Serve, ServeAll, Next;
    var rows := Run(labels).ledger.tables.dispatches;
    ServingInOrder(labels, n, work, p);
    if work == [] {
      AcksNone(rows, n, work);
    } else {
      ServesOne(labels, n, work[0], p);
      var after := labels + Serve(n, work[0], p);
      StillNamed(rows, Run(after).ledger.tables.dispatches, n, work);
      ServesAll(after, n, work[1..], p);
      AckOneMore(rows, Run(after).ledger.tables.dispatches,
        Run(labels + ServeAll(n, work, p)).ledger.tables.dispatches, n, work);
    }
  }

  lemma AcksNone(rows: seq<DispatchRow>, n: NodeId, work: seq<HubToNode>)
    requires work == []
    ensures AcksAll(rows, rows, n, work)
  {
  }

  // ----- all of a node's work ------------------------------------------------------------------------

  function FinishWork(n: NodeId, c: ConnId, pending: seq<HubToNode>, p: ProcId): seq<Label>
    requires forall m :: m in pending ==> m.DispatchCommand?
  {
    Reconnect(n, c, |pending|) + HandSteps(c, |pending|) + ServeAll(n, pending, p)
  }

  // What the node and its link do by themselves.
  predicate LinkStep(l: Label) {
    || l.RegisterNode? || l.ReadPendingStep? || l.ReplayStep? || l.HandStep?
    || l.NodeReceive? || l.SendAck? || l.HubReceive?
  }

  lemma {:induction false} AllLinkSteps(n: NodeId, c: ConnId, k: nat, work: seq<HubToNode>, p: ProcId)
    requires forall m :: m in work ==> m.DispatchCommand?
    ensures forall l :: l in ReplaySteps(c, k) + HandSteps(c, k) + ServeAll(n, work, p) ==> LinkStep(l)
    decreases k, |work|
  {
    if k > 0 {
      AllLinkSteps(n, c, k - 1, work, p);
    } else if work != [] {
      AllLinkSteps(n, c, k, work[1..], p);
    }
  }

  lemma PendingIsNamed(t: Tables, n: NodeId)
    requires DispatchesMatchReceipts(t)
    ensures NamedByRows(t.dispatches, PendingMessages(t.dispatches, n))
    ensures forall m :: m in PendingMessages(t.dispatches, n) ==> m.DispatchCommand?
  {
  }

  lemma FinishingSteps(labels: seq<Label>, n: NodeId, c: ConnId, pending: seq<HubToNode>, p: ProcId)
    requires forall m :: m in pending ==> m.DispatchCommand?
    ensures forall l :: l in FinishWork(n, c, pending, p) ==> LinkStep(l)
    ensures labels + FinishWork(n, c, pending, p) ==
            labels + Reconnect(n, c, |pending|) + HandSteps(c, |pending|) + ServeAll(n, pending, p)
  {
    AllLinkSteps(n, c, |pending|, pending, p);
    AllLinkSteps(n, c, |pending| + 1, pending, p);
    hide HandSteps, ReplaySteps, ServeAll;
  }

  // In any run, whatever was lost, stranded or cut off: if the node connects anew, all its
  // unacknowledged work can be done and acknowledged, and nothing else changes in the table.
  // Then every work ever dispatched to the node was acted on exactly once.
  lemma ReconnectingFinishesTheWork(labels: seq<Label>, n: NodeId, p: ProcId) returns (steps: seq<Label>)
    requires p !in Run(labels).procs
    ensures forall l :: l in steps ==> LinkStep(l)
    ensures
      var s, t := Run(labels), Run(labels + steps);
      var rows, rows' := s.ledger.tables.dispatches, t.ledger.tables.dispatches;
      && |rows'| == |rows|
      && (forall i :: 0 <= i < |rows| ==>
           rows'[i] == if rows[i].nodeId == n then rows[i].(acked := true) else rows[i])
      && (forall i :: 0 <= i < |rows| && rows[i].nodeId == n ==>
           DoneOnce(NodeAt(t.net, n).effects, rows[i].message))
  {
    hide Run, Serves, AcksAll, NamedByRows, DoneOnce, NodeAt, Next, FinishWork, Reconnect, HandSteps, ServeAll;
    hide LinkStep;
    var s := Run(labels);
    var rows, c := s.ledger.tables.dispatches, s.registry.nextConn;
    var pending := PendingMessages(rows, n);
    ReachableTables(labels);
    PendingIsNamed(s.ledger.tables, n);
    var first := labels + Reconnect(n, c, |pending|);
    var second := first + HandSteps(c, |pending|);
    steps := FinishWork(n, c, pending, p);
    Reconnected(labels, n);
    HandsAll(first, n, c, pending);
    ServesAll(second, n, pending, p);
    FinishingSteps(labels, n, c, pending, p);
    AllAcked(rows, Run(labels + steps).ledger.tables.dispatches, n);
    DoneWhenAcked(labels + steps, n);
  }

  lemma ReachableTables(labels: seq<Label>)
    ensures DispatchesMatchReceipts(Run(labels).ledger.tables)
  {
    ReachableStore(labels);
  }

  lemma AllAcked(rows: seq<DispatchRow>, rows': seq<DispatchRow>, n: NodeId)
    requires AcksAll(rows, rows', n, PendingMessages(rows, n))
    ensures |rows'| == |rows|
    ensures forall i :: 0 <= i < |rows| ==>
      rows'[i] == if rows[i].nodeId == n then rows[i].(acked := true) else rows[i]
  {
  }

  lemma DoneWhenAcked(labels: seq<Label>, n: NodeId)
    ensures forall row :: row in Run(labels).ledger.tables.dispatches && row.nodeId == n && row.acked ==>
      DoneOnce(NodeAt(Run(labels).net, n).effects, row.message)
  {
    hide Run, HasRow;
    WorkHasOneEffect(labels, n);
  }
}
