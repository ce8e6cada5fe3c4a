// Work from a client socket whose handler ended before it routed the dispatch:
// exactly when such work is held, that it happens, and how long it lasts.
module SkippedWork {
  import opened Wrappers
  import opened Events
  import opened Store
  import opened Ledger
  import opened LiveFeed
  import opened NodeRegistry
  import opened ControlPlane
  import opened StoreRuns
  import opened DispatchRuns
  import opened DeliveryRuns
  import opened DeliverySteps
  import opened NodeSteps
  import opened WorkerRuns
  import opened ControlPlaneTheorems

  // The connection in the node's slot has the message, or a process is about to
  // route it.
  ghost predicate HeldFor(s: Sys, n: NodeId, m: HubToNode) {
    || (n, m) in EnRoute(s.procs)
    || (n in s.registry.slots && s.registry.slots[n] in s.registry.conns
        && m in s.registry.conns[s.registry.slots[n]].channel + s.registry.conns[s.registry.slots[n]].handed)
  }

  // ----- nowhere on the way ----------------------------------------------------------

  function Handed(r: Registry): set<(NodeId, HubToNode)> {
    set c, m | c in r.conns && m in r.conns[c].handed :: (r.conns[c].node, m)
  }

  // No process routes the message, no connection of the node has it or had it, no
  // frame carries it, and the engine has not acted on it; but its command has a
  // receipt, so it is not planned again.
  ghost predicate Stranded(s: Sys, n: NodeId, m: HubToNode) {
    && m.DispatchCommand? && m.commandId in s.ledger.tables.receipts
    && (n, m) !in Afloat(s) + Handed(s.registry)
    && m !in NodeAt(s.net, n).effects
  }

  lemma StrandedIsNotHeld(s: Sys, n: NodeId, m: HubToNode)
    requires Stranded(s, n, m) && SlotInv(s.registry)
    ensures !HeldFor(s, n, m)
  {
  }

  lemma HandedMoves(r: Registry, node: NodeId, m: HubToNode, id: ConnId, rows: seq<DispatchRow>)
    requires SlotInv(r)
    ensures Handed(Register(r, node)) <= Handed(r)
    ensures Handed(Unregister(r, id)) <= Handed(r)
    ensures Handed(Route(r, node, m)) <= Handed(r)
    ensures Handed(Skip(r, node, m)) <= Handed(r)
    ensures Handed(ReadPending(r, rows, id)) <= Handed(r)
  {
  }

  lemma HandedReplays(r: Registry, id: ConnId)
    requires SlotInv(r)
    ensures Handed(ReplayTurn(r, id)) <= Handed(r)
  {
    if id in r.conns && r.conns[id].replay.Replaying? && r.conns[id].replay.rest != [] {
      var rest := r.conns[id].replay.rest;
      var q := SetReplay(r, id, Replaying(rest[1..]));
      assert Handed(q) <= Handed(r);
      SameSlotsKeepsSlots(r, q);
      HandedMoves(q, r.conns[id].node, rest[0], id, []);
    }
  }

  lemma HandedHands(r: Registry, id: ConnId)
    requires CanHand(r, id)
    ensures Handed(Hand(r, id)) <= Handed(r) + {(r.conns[id].node, r.conns[id].channel[0])}
  {
  }

  lemma ReplayReadsOwnRows(r: Registry, rows: seq<DispatchRow>, id: ConnId, n: NodeId, m: HubToNode)
    requires (n, m) !in Queued(r)
    ensures (n, m) in Queued(ReadPending(r, rows, id)) <==>
            && id in r.conns && r.conns[id].replay.Registered? && r.conns[id].node == n
            && m in PendingMessages(rows, n)
  {
    var t := ReadPending(r, rows, id);
    if id in r.conns && r.conns[id].replay.Registered? {
      assert forall c :: c in r.conns && c != id ==> t.conns[c] == r.conns[c];
      if r.conns[id].node == n && m in PendingMessages(rows, n) {
        assert m in t.conns[id].channel + Rest(t.conns[id].replay);
      }
    }
  }

  // ----- it stays stranded -----------------------------------------------------------

  // The next replay: a connection of the node reads its pending rows.
  ghost predicate Replays(s: Sys, l: Label, n: NodeId) {
    && l.ReadPendingStep? && l.conn in s.registry.conns
    && s.registry.conns[l.conn].replay.Registered? && s.registry.conns[l.conn].node == n
  }

  // Only the hand-over and the steps below touch what was handed over.
  lemma NothingHanded(s: Sys, l: Label)
    requires SlotInv(s.registry) && !l.HandStep?
    ensures Handed(Next(s, l).registry) <= Handed(s.registry)
  {
    hide Handed, SlotInv;
    var r, rows := s.registry, s.ledger.tables.dispatches;
    if !RegistryStep(l) {
      OtherStepKeepsRegistry(s, l);
    } else if l.RouteStep? || l.Abandon? || l.WorkerRouteStep? {
      NothingHandedByRouting(s, l);
    } else if l.HubRestart? {
      assert Handed(NO_NODES) == {} by { NoNodesHandedNothing(); }
    } else {
      NothingHandedByLinks(s, l);
    }
  }

  lemma NoNodesHandedNothing()
    ensures Handed(NO_NODES) == {}
  {
  }

  lemma NothingHandedByRouting(s: Sys, l: Label)
    requires SlotInv(s.registry) && (l.RouteStep? || l.Abandon? || l.WorkerRouteStep?)
    ensures Handed(Next(s, l).registry) <= Handed(s.registry)
  {
    hide Handed, SlotInv, Route, Skip;
    if l.p in s.procs && (s.procs[l.p].Routing? || s.procs[l.p].WorkerRoute?) {
      HandedMoves(s.registry, s.procs[l.p].node, s.procs[l.p].message, 0, s.ledger.tables.dispatches);
    }
  }

  lemma NothingHandedByLinks(s: Sys, l: Label)
    requires SlotInv(s.registry) && (l.RegisterNode? || l.ReadPendingStep? || l.UnregisterNode? || l.ReplayStep?)
    ensures Handed(Next(s, l).registry) <= Handed(s.registry)
  {
    hide Handed, SlotInv, Register, Unregister, ReadPending, ReplayTurn;
    if l.RegisterNode? {
      HandedMoves(s.registry, l.node, EventAck(0), 0, s.ledger.tables.dispatches);
    } else if l.ReplayStep? {
      HandedReplays(s.registry, l.conn);
    } else {
      HandedMoves(s.registry, "", EventAck(0), l.conn, s.ledger.tables.dispatches);
    }
  }

  // Frames and effects, for the steps that touch them.
  ghost predicate Unsent(t: Sys, n: NodeId, m: HubToNode) {
    (n, m) !in Afloat(t) && m !in NodeAt(t.net, n).effects
  }

  lemma HubReceiveAdds(s: Sys, p: ProcId, from: NodeId, up: NodeToHub, n: NodeId, m: HubToNode)
    requires m.DispatchCommand? && Unsent(s, n, m)
    ensures Unsent(DoHubReceive(s, p, from, up), n, m)
  {
    hide Queued, EnRoute, Perform, Admits;
    EnRouteAdds(s.procs, p, Routing(from, EventAck(if up.NodeEvent? then up.eventId else 0), InProcess));
  }

  lemma NodeReceiveAdds(s: Sys, k: NodeId, down: HubToNode, n: NodeId, m: HubToNode)
    requires Unsent(s, n, m)
    ensures Unsent(DoNodeReceive(s, k, down), n, m)
  {
    hide Queued, EnRoute, RemoveEvent;
  }

  lemma EmitAdds(s: Sys, k: NodeId, id: EventId, draft: EventDraft, n: NodeId, m: HubToNode)
    requires Unsent(s, n, m)
    ensures Unsent(DoEmit(s, k, id, draft), n, m)
  {
    hide Queued, EnRoute, Admits, FreshEvent;
  }

  lemma FrameStepAdds(s: Sys, t: Sys, n: NodeId, m: HubToNode)
    requires Unsent(s, n, m) && t.registry == s.registry && t.procs == s.procs
    requires t.net.nodes == s.net.nodes && t.net.toNode <= s.net.toNode
    ensures Unsent(t, n, m)
  {
    hide Queued, EnRoute;
  }

  lemma LoudStepAdds(s: Sys, l: Label, n: NodeId, m: HubToNode)
    requires Loud(l) && !l.HandStep? && !l.ReadPendingStep? && m.DispatchCommand? && Unsent(s, n, m)
    ensures Unsent(Next(s, l), n, m)
  {
    hide Unsent, DoHubReceive, DoNodeReceive, DoEmit, DoReceive, DoDecide, DoCommit, DoRoute, DoAbandon, DoClient;
    hide DoRegistry, DoHand, DoWorkerCommitRun, DoWorkerCommitTask, DoWorkerEnrol, DoWorkerRoute, DoWorkerBegin;
    hide DoTrackWorker, DoHubCommand, DoHubEvent, DoCacheRun, DoRestart, Perform;
    if l.HubReceive? {
      HubReceiveAdds(s, l.p, l.from, l.up, n, m);
    } else if l.NodeReceive? {
      NodeReceiveAdds(s, l.node, l.down, n, m);
    } else if l.Emit? {
      EmitAdds(s, l.node, l.mintEvent, l.draft, n, m);
    } else {
      FrameStepAdds(s, Next(s, l), n, m);
    }
  }

  lemma HandingStrandsNothing(s: Sys, l: Label, n: NodeId, m: HubToNode)
    requires l.HandStep? && Stranded(s, n, m)
    ensures Stranded(Next(s, l), n, m)
  {
    hide Queued, Handed, EnRoute, Hand;
    if CanHand(s.registry, l.conn) {
      QueuedHands(s.registry, l.conn);
      HandedHands(s.registry, l.conn);
    }
  }

  lemma ReadingElsewhere(s: Sys, l: Label, n: NodeId, m: HubToNode)
    requires l.ReadPendingStep? && SlotInv(s.registry) && Stranded(s, n, m) && !Replays(s, l, n)
    ensures Stranded(Next(s, l), n, m)
  {
    hide Queued, Handed, EnRoute, SlotInv;
    ReplayReadsOwnRows(s.registry, s.ledger.tables.dispatches, l.conn, n, m);
    NothingHandedByLinks(s, l);
  }

  lemma QuietStepAdds(s: Sys, t: Sys, n: NodeId, m: HubToNode)
    requires QuietStep(s, t) && m.DispatchCommand? && m.commandId in s.ledger.tables.receipts && (n, m) !in Afloat(s)
    ensures (n, m) !in Afloat(t) && t.net == s.net && m.commandId in t.ledger.tables.receipts
  {
    hide Queued, EnRoute;
    if !StillStep(s, t) {
      var op, added :| FreshStep(s, t, op, added);
      assert (n, m) !in added;
      PerformGrows(s.ledger, op);
    }
  }

  lemma StrandedStep(s: Sys, l: Label, n: NodeId, m: HubToNode)
    requires StoreInv(s) && SlotInv(s.registry) && Stranded(s, n, m) && !Replays(s, l, n)
    ensures Stranded(Next(s, l), n, m)
  {
    hide StoreInv, SlotInv, Afloat, Handed, Next, Replays;
    if l.HandStep? {
      HandingStrandsNothing(s, l, n, m);
    } else if l.ReadPendingStep? {
      ReadingElsewhere(s, l, n, m);
    } else {
      NothingHanded(s, l);
      StepKeepsStore(s, l);
      if Loud(l) {
        LoudStepAdds(s, l, n, m);
      } else {
        QuietLabel(s, l);
        QuietStepAdds(s, Next(s, l), n, m);
      }
    }
  }

  // ----- over whole runs -------------------------------------------------------------

  // What was handed over had its receipt.
  ghost predicate HandedHaveReceipts(s: Sys) {
    forall x :: x in Handed(s.registry) && x.1.DispatchCommand? ==> x.1.commandId in s.ledger.tables.receipts
  }

  lemma RowsHaveReceipts(t: Tables, n: NodeId, m: HubToNode)
    requires DispatchesMatchReceipts(t) && HasRow(t.dispatches, n, m)
    ensures m.DispatchCommand? && m.commandId in t.receipts
  {
    var i :| 0 <= i < |t.dispatches| && t.dispatches[i].nodeId == n && t.dispatches[i].message == m;
    assert t.dispatches[i].commandId in t.receipts;
  }

  lemma HandingKeepsReceipts(s: Sys, conn: ConnId)
    requires MessageInv(s) && DispatchesMatchReceipts(s.ledger.tables) && HandedHaveReceipts(s)
    ensures HandedHaveReceipts(DoHand(s, conn))
  {
    hide DispatchesMatchReceipts, Handed, Queued, EnRoute, Hand;
    if CanHand(s.registry, conn) {
      var x := (s.registry.conns[conn].node, s.registry.conns[conn].channel[0]);
      QueuedHands(s.registry, conn);
      HandedHands(s.registry, conn);
      assert Legit(s.ledger.tables, s.net.rejected, x);
      if x.1.DispatchCommand? {
        RowsHaveReceipts(s.ledger.tables, x.0, x.1);
      }
    }
  }

  lemma HandStepKeepsReceipts(s: Sys, l: Label)
    requires StoreInv(s) && NetInv(s) && HandedHaveReceipts(s) && l.HandStep?
    ensures HandedHaveReceipts(Next(s, l))
  {
    hide StoreInv, NetInv, HandedHaveReceipts, DoHand;
    MessagesAndRows(s);
    HandingKeepsReceipts(s, l.conn);
  }

  lemma StepKeepsHandedReceipts(s: Sys, l: Label)
    requires StoreInv(s) && NetInv(s) && SlotInv(s.registry) && HandedHaveReceipts(s)
    ensures HandedHaveReceipts(Next(s, l))
  {
    hide StoreInv, NetInv, SlotInv, Next;
    if l.HandStep? {
      HandStepKeepsReceipts(s, l);
    } else {
      NothingHanded(s, l);
      StepKeepsStore(s, l);
    }
  }

  lemma MessagesAndRows(s: Sys)
    requires StoreInv(s) && NetInv(s)
    ensures MessageInv(s) && DispatchesMatchReceipts(s.ledger.tables)
  {
  }

  lemma {:induction false} HandedWork(labels: seq<Label>)
    ensures HandedHaveReceipts(Run(labels))
  {
    if labels == [] {
      NoNodesHandedNothing();
    } else {
      hide StoreInv, NetInv, SlotInv, CoverInv, WorkerInv, HandedHaveReceipts, Next;
      EveryReachableState(labels[..|labels| - 1]);
      HandedWork(labels[..|labels| - 1]);
      StepKeepsHandedReceipts(Run(labels[..|labels| - 1]), labels[|labels| - 1]);
    }
  }

  // No connection of the node reads its pending rows on the way.
  ghost predicate NoReplay(labels: seq<Label>, more: seq<Label>, n: NodeId) {
    forall i :: 0 <= i < |more| ==> !Replays(Run(labels + more[..i]), more[i], n)
  }

  lemma {:induction false} StaysStranded(labels: seq<Label>, more: seq<Label>, n: NodeId, m: HubToNode)
    requires Stranded(Run(labels), n, m) && NoReplay(labels, more, n)
    ensures Stranded(Run(labels + more), n, m)
  {
    hide Stranded, Replays, Run, StoreInv, SlotInv, NetInv, CoverInv, WorkerInv;
    if more == [] {
      assert labels + more == labels;
    } else {
      var init, last := more[..|more| - 1], more[|more| - 1];
      assert forall i :: 0 <= i < |init| ==> init[..i] == more[..i] && init[i] == more[i];
      StaysStranded(labels, init, n, m);
      assert labels + more == labels + init + [last];
      RunExtends(labels + init, last);
      EveryReachableState(labels + init);
      assert !Replays(Run(labels + init), last, n);
      StrandedStep(Run(labels + init), last, n, m);
    }
  }

  // Stranded work is not acknowledged, and the next replay takes it.
  lemma StrandedIsUnacknowledged(s: Sys, n: NodeId, row: DispatchRow)
    requires StoreInv(s) && NetInv(s) && Stranded(s, n, row.message)
    requires row in s.ledger.tables.dispatches && row.nodeId == n
    ensures !row.acked
  {
    hide Afloat, Handed, FeedInv, WakesAreDue, StatusIsReplay, CacheInv, MessageInv, EventInv;
    if row.acked {
      EngineAt(s.ledger.tables.dispatches, s.net, n);
      AckedWorkWasDone(s, n, row);
    }
  }

  lemma ReplayTakesIt(s: Sys, l: Label, n: NodeId, row: DispatchRow)
    requires Replays(s, l, n) && row in s.ledger.tables.dispatches && row.nodeId == n && !row.acked
    ensures (n, row.message) in Queued(Next(s, l).registry)
  {
    var i :| 0 <= i < |s.ledger.tables.dispatches| && s.ledger.tables.dispatches[i] == row;
    var c := Next(s, l).registry.conns[l.conn];
    assert row.message in c.channel + Rest(c.replay);
  }

  // However the run goes on, stranded work stays stranded up to the next time a
  // connection of its node reads the pending rows, and exactly up to then.
  lemma StrandedUntilReplay(labels: seq<Label>, more: seq<Label>, l: Label, n: NodeId, row: DispatchRow)
    requires Stranded(Run(labels), n, row.message) && NoReplay(labels, more, n)
    requires row in Run(labels + more).ledger.tables.dispatches && row.nodeId == n
    ensures !row.acked && !HeldFor(Run(labels + more), n, row.message)
    ensures Stranded(Run(labels + more + [l]), n, row.message) <==> !Replays(Run(labels + more), l, n)
  {
    hide Replays, NoReplay, Run, StoreInv, SlotInv, CoverInv, NetInv, WorkerInv, Queued, EnRoute, Handed;
    var s := Run(labels + more);
    EveryReachableState(labels + more);
    StaysStranded(labels, more, n, row.message);
    StrandedIsUnacknowledged(s, n, row);
    StrandedIsNotHeld(s, n, row.message);
    RunExtends(labels + more, l);
    if Replays(s, l, n) {
      ReplayTakesIt(s, l, n, row);
    } else {
      StrandedStep(s, l, n, row.message);
    }
  }

  // ----- how work gets there ---------------------------------------------------------

  // A handler is about to commit a client's command that sends the node work.
  ghost predicate AboutToDispatch(s: Sys, p: ProcId, id: EventId, n: NodeId, m: HubToNode) {
    && p in s.procs && s.procs[p].Planned? && s.procs[p].origin == ClientSocket
    && DispatchOf(s.procs[p].plan) == Some((n, m))
    && FreshEvent(s, id)
    && Created(s.ledger, Command(s.procs[p].plan, id))
  }

  // Nothing knows of work that is not committed yet.
  lemma NewWorkIsNowhere(s: Sys, n: NodeId, m: HubToNode)
    requires StoreInv(s) && NetInv(s) && HandedHaveReceipts(s)
    requires m.DispatchCommand? && m.commandId !in s.ledger.tables.receipts
    ensures (n, m) !in Afloat(s) + Handed(s.registry) && m !in NodeAt(s.net, n).effects
  {
    hide Queued, EnRoute, Handed, FeedInv, Gapless, UniqueIds, ReceiptsMatchLog, StatusIsReplay, WakesAreDue;
    hide DispatchesMatchReceipts, CacheInv, EventInv, AcksTrue;
    var rows := s.ledger.tables.dispatches;
    if (n, m) in Afloat(s) {
      assert Legit(s.ledger.tables, s.net.rejected, (n, m));
      RowsHaveReceipts(s.ledger.tables, n, m);
    }
    EngineAt(rows, s.net, n);
    if m in NodeAt(s.net, n).effects {
      RowsHaveReceipts(s.ledger.tables, n, m);
    }
  }

  lemma CommitShape(s: Sys, p: ProcId, id: EventId, n: NodeId, m: HubToNode)
    requires AboutToDispatch(s, p, id, n, m)
    ensures
      var t := DoCommit(s, p, id);
      && t.registry == s.registry && t.net == s.net && t.procs == s.procs[p := Routing(n, m, ClientSocket)]
      && t.ledger.tables.dispatches ==
           s.ledger.tables.dispatches + [DispatchRow(s.procs[p].plan.commandId, n, m, false)]
      && m.DispatchCommand? && m.commandId == s.procs[p].plan.commandId
      && m.commandId !in s.ledger.tables.receipts && m.commandId in t.ledger.tables.receipts
  {
    CommandRows(s, s.procs[p].plan, id);
  }

  lemma LastStepShape(s: Sys, p: ProcId, n: NodeId, m: HubToNode, last: Label)
    requires p in s.procs && s.procs[p] == Routing(n, m, ClientSocket) && SlotInv(s.registry)
    requires last == RouteStep(p) || last == Abandon(p)
    ensures
      var t := Next(s, last);
      && t.ledger == s.ledger && t.net == s.net && t.procs == s.procs - {p}
      && t.registry.slots == s.registry.slots
      && Handed(t.registry) <= Handed(s.registry)
      && (last.Abandon? || n !in s.registry.slots ==> Queued(t.registry) <= Queued(s.registry))
      && (last.RouteStep? && n in s.registry.slots ==>
            && t.registry.slots[n] in t.registry.conns
            && m in t.registry.conns[t.registry.slots[n]].channel
            && (n, m) in Queued(t.registry))
  {
    HandedMoves(s.registry, n, m, 0, []);
    QueuedMoves(s.registry, n, m, 0);
    if last.RouteStep? && n in s.registry.slots {
      var c := Next(s, last).registry.conns[s.registry.slots[n]];
      assert m in c.channel + Rest(c.replay);
    }
  }

  // A client's command is committed in any reachable state, and its handler takes its
  // last step. The dispatch has its durable row, and it is on its way to the node
  // exactly if the receipt could be sent and the node is connected; otherwise it is
  // stranded.
  lemma ClientWorkIsStrandedOrHeld(labels: seq<Label>, p: ProcId, id: EventId, n: NodeId, m: HubToNode, last: Label)
    requires AboutToDispatch(Run(labels), p, id, n, m)
    requires last == RouteStep(p) || last == Abandon(p)
    ensures
      var t := Run(labels + [Commit(p, id)] + [last]);
      var routed := last.RouteStep? && n in Run(labels).registry.slots;
      && DispatchRow(m.commandId, n, m, false) in t.ledger.tables.dispatches
      && (HeldFor(t, n, m) <==> routed)
      && (Stranded(t, n, m) <==> !routed)
  {
    hide Run, StoreInv, NetInv, SlotInv, CoverInv, WorkerInv, HandedHaveReceipts, Queued, Handed, Perform, FreshEvent;
    var s := Run(labels);
    EveryReachableState(labels);
    HandedWork(labels);
    CommitShape(s, p, id, n, m);
    NewWorkIsNowhere(s, n, m);
    RunExtends(labels, Commit(p, id));
    RunExtends(labels + [Commit(p, id)], last);
    var c := Next(s, Commit(p, id));
    LastStepShape(c, p, n, m, last);
    assert c.procs - {p} == s.procs - {p};
    EnRouteAdds(s.procs, p, s.procs[p]);
    EveryReachableState(labels + [Commit(p, id)] + [last]);
    if !(last.RouteStep? && n in s.registry.slots) {
      StrandedIsNotHeld(Next(c, last), n, m);
    }
  }

  // ----- it happens ------------------------------------------------------------------

  lemma RunPrefix(labels: seq<Label>, i: nat)
    requires i < |labels|
    ensures Run(labels[..i + 1]) == Next(Run(labels[..i]), labels[i])
  {
    assert labels[..i + 1] == labels[..i] + [labels[i]];
    RunExtends(labels[..i], labels[i]);
  }

  const ONE_NODE: Registry := Registry(map["n" := 1], map[1 := Conn("n", Replayed, [], [], {})], 2, map["n" := 1])

  lemma NothingToReplay(rows: seq<DispatchRow>)
    requires rows == []
    ensures ReplayTurn(ReadPending(Register(NO_NODES, "n"), rows, 1), 1) == ONE_NODE
  {
    assert PendingMessages(rows, "n") == [];
  }

  lemma LinkSteps(s: Sys, n: NodeId, conn: ConnId)
    ensures Next(s, RegisterNode(n)) == s.(registry := Register(s.registry, n))
    ensures Next(s, ReadPendingStep(conn)) == s.(registry := ReadPending(s.registry, s.ledger.tables.dispatches, conn))
    ensures Next(s, ReplayStep(conn)) == s.(registry := ReplayTurn(s.registry, conn))
  {
    hide Register, ReadPending, ReplayTurn, Perform;
  }

  // A node connects and has nothing to replay.
  lemma ConnectedRun(labels: seq<Label>)
    requires |labels| >= 3 && labels[..3] == [RegisterNode("n"), ReadPendingStep(1), ReplayStep(1)]
    ensures Run(labels[..3]) == INIT.(registry := ONE_NODE)
  {
    hide Run, Next;
    ThreeSteps(labels[..3], RegisterNode("n"), ReadPendingStep(1), ReplayStep(1));
    Connecting(INIT);
  }

  lemma ThreeSteps(labels: seq<Label>, a: Label, b: Label, c: Label)
    requires labels == [a, b, c]
    ensures Run(labels) == Next(Next(Next(INIT, a), b), c)
  {
    hide Run, Next, INIT;
    var none: seq<Label> := labels[..0];
    EmptyRun(none);
    RunExtends(none, a);
    RunExtends(none + [a], b);
    RunExtends(none + [a] + [b], c);
    assert none + [a] + [b] + [c] == labels;
  }

  lemma Connecting(s: Sys)
    requires s == INIT
    ensures Next(Next(Next(s, RegisterNode("n")), ReadPendingStep(1)), ReplayStep(1)) == s.(registry := ONE_NODE)
  {
    hide Next, Register, ReadPending, ReplayTurn;
    var t := Next(s, RegisterNode("n"));
    var u := Next(t, ReadPendingStep(1));
    LinkSteps(s, "n", 1);
    LinkSteps(t, "n", 1);
    LinkSteps(u, "n", 1);
    NothingToReplay(s.ledger.tables.dispatches);
  }

  lemma EmptyRun(labels: seq<Label>)
    requires labels == []
    ensures Run(labels) == INIT
  {
  }

  // A client asks for a run on it.
  lemma PlannedRun(labels: seq<Label>, command: ClientCommand)
    requires |labels| >= 5 && labels[..3] == [RegisterNode("n"), ReadPendingStep(1), ReplayStep(1)]
    requires command == StartRunCommand(1, 5, None, "")
    requires labels[3] == Receive(0, command, ClientSocket) && labels[4] == Decide(0, 0, 7, None, Some("n"))
    ensures
      var s := Run(labels[..5]);
      && AboutToDispatch(s, 0, 100, "n", DispatchCommand(1, StartRun(7, 5, "")))
      && s.registry == Run(labels[..3]).registry
  {
    hide Run;
    ConnectedRun(labels);
    RunPrefix(labels, 3);
    RunPrefix(labels, 4);
    var s := Run(labels[..5]);
    assert s.procs[0] == Planned(PlanRun(1, 7, 5, "n", "", true), ClientSocket);
  }

  lemma AbandonedIsSkipped(s: Sys, p: ProcId, id: EventId, n: NodeId, m: HubToNode)
    requires AboutToDispatch(s, p, id, n, m)
    ensures Next(Next(s, Commit(p, id)), Abandon(p)).registry == Skip(s.registry, n, m)
  {
    hide Perform, FreshEvent, Skip;
    CommitShape(s, p, id, n, m);
  }

  // A run in which the connection in the slot has replayed everything, and yet an
  // unacknowledged dispatch is neither with it nor on its way.
  lemma StrandedRun(labels: seq<Label>)
    requires labels == [
      RegisterNode("n"), ReadPendingStep(1), ReplayStep(1),
      Receive(0, StartRunCommand(1, 5, None, ""), ClientSocket), Decide(0, 0, 7, None, Some("n")),
      Commit(0, 100), Abandon(0)]
    ensures
      var s := Run(labels);
      var m := DispatchCommand(1, StartRun(7, 5, ""));
      && "n" in s.registry.slots && s.registry.slots["n"] in s.registry.conns
      && s.registry.conns[s.registry.slots["n"]].replay.Replayed?
      && m in s.registry.conns[s.registry.slots["n"]].skipped
      && DispatchRow(1, "n", m, false) in s.ledger.tables.dispatches
      && !HeldFor(s, "n", m) && Stranded(s, "n", m)
  {
    hide Run, Next, HeldFor, Stranded, AboutToDispatch;
    var m := DispatchCommand(1, StartRun(7, 5, ""));
    ConnectedRun(labels);
    PlannedRun(labels, StartRunCommand(1, 5, None, ""));
    ClientWorkIsStrandedOrHeld(labels[..5], 0, 100, "n", m, Abandon(0));
    RunPrefix(labels, 5);
    RunPrefix(labels, 6);
    AbandonedIsSkipped(Run(labels[..5]), 0, 100, "n", m);
    assert labels[..5] + [Commit(0, 100)] + [Abandon(0)] == labels && labels[..7] == labels;
  }
}
