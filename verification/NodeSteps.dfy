// The steps in which frames are sent and received keep the network invariants.
module NodeSteps {
  import opened Wrappers
  import opened Events
  import opened Store
  import opened Ledger
  import opened NodeRegistry
  import opened ControlPlane
  import opened DispatchRuns
  import opened DeliveryRuns
  import opened DeliverySteps

  // ----- the hub receives ------------------------------------------------------------

  lemma AckFrameKeepsNet(s: Sys, p: ProcId, from: NodeId, command: CommandId)
    requires NetInv(s) && (from, CommandAck(command)) in s.net.toHub
    ensures NetInv(Durable(s, Acknowledge(command, from)).0)
  {
    var t := Durable(s, Acknowledge(command, from)).0;
    PerformGrows(s.ledger, Acknowledge(command, from));
    AckedRows(s, command, from);
    CacheGrows(s, t);
    MessagesStep(s, t, {});
    EventsGrow(s.ledger.tables, t.ledger.tables, s.net);
    EnginesGrow(s.ledger.tables.dispatches, t.ledger.tables.dispatches, s.net);
  }

  lemma RejectedKeepsEvents(t: Tables, net: Net, n: NodeId, id: EventId, d: EventDraft)
    requires EventInv(t, net) && (n, NodeEvent(id, d)) in net.toHub && !Bound(t, n, d)
    ensures EventInv(t, net.(rejected := net.rejected + {id}))
  {
    var net' := net.(rejected := net.rejected + {id});
    assert net.emitted[id] == (n, d);
    assert forall k :: k in net.emitted && Kept(t.events, net, k) ==> Kept(t.events, net', k);
    assert forall k :: k in net.nodes ==>
      OutboxEmitted(net', k, net.nodes[k].outbox) == OutboxEmitted(net, k, net.nodes[k].outbox);
  }

  lemma RejectKeepsNet(s: Sys, p: ProcId, from: NodeId, id: EventId, draft: EventDraft)
    requires NetInv(s) && (from, NodeEvent(id, draft)) in s.net.toHub && p !in s.procs && !Admits(s, from, draft)
    ensures NetInv(DoHubReceive(s, p, from, NodeEvent(id, draft)))
  {
    hide MessageInv, EventInv, EngineInv;
    var t := DoHubReceive(s, p, from, NodeEvent(id, draft));
    AdmitsIsBound(s, from, draft);
    RejectedKeepsEvents(s.ledger.tables, s.net, from, id, draft);
    EnRouteAdds(s.procs, p, t.procs[p]);
    MessagesStep(s, t, {(from, EventAck(id))});
    SameEngines(s.ledger.tables.dispatches, s.net, t.net);
  }

  // The tables after an admitted event arrives, for the first time or again.
  lemma AdmittedTables(s: Sys, id: EventId, draft: EventDraft)
    requires LedgerInv(s.ledger)
    ensures
      var (t, result) := Durable(s, NodeAppend(id, draft));
      var before, after := s.ledger.tables.events, t.ledger.tables.events;
      && result.Ok?
      && Logged(after, id)
      && (after == before || after == before + [Event(|before| + 1, id, None, draft)])
  {
    var k := NodeAppendLogs(s.ledger, id, draft);
    hide LedgerInv, AppendNodeEvent;
    assert Durable(s, NodeAppend(id, draft)).0.ledger.tables.events[k].eventId == id;
  }

  lemma AdmittedKeepsEvents(t: Tables, t': Tables, net: Net, n: NodeId, id: EventId, d: EventDraft)
    requires EventInv(t, net) && Grows(t, t') && (n, NodeEvent(id, d)) in net.toHub && Bound(t, n, d)
    requires t'.events == t.events || t'.events == t.events + [Event(|t.events| + 1, id, None, d)]
    ensures EventInv(t', net)
  {
    assert net.emitted[id] == (n, d);
    BoundGrows(t, t', n, d);
    forall k | k in net.emitted
      ensures Kept(t'.events, net, k)
    {
      assert Kept(t.events, net, k);
      StaysLogged(t.events, t'.events, k);
    }
    forall i | 0 <= i < |t'.events| && t'.events[i].eventId in net.emitted
      ensures t'.events[i].commandId.None? && t'.events[i].draft == net.emitted[t'.events[i].eventId].1
        && Bound(t', net.emitted[t'.events[i].eventId].0, t'.events[i].draft)
    {
      if i < |t.events| {
        assert t'.events[i] == t.events[i];
        BoundGrows(t, t', net.emitted[t'.events[i].eventId].0, t'.events[i].draft);
      }
    }
  }

  // The shape of the step, apart from any invariant of the network.
  lemma AdmitShape(s: Sys, p: ProcId, from: NodeId, id: EventId, draft: EventDraft)
    requires LedgerInv(s.ledger)
    requires (from, NodeEvent(id, draft)) in s.net.toHub && p !in s.procs && Admits(s, from, draft)
    ensures
      var t := DoHubReceive(s, p, from, NodeEvent(id, draft));
      var before, after := s.ledger.tables, t.ledger.tables;
      && Grows(before, after) && t.net == s.net && t.registry == s.registry && t.cache == s.cache
      && EnRoute(t.procs) <= EnRoute(s.procs) + {(from, EventAck(id))}
      && after.dispatches == before.dispatches
      && Logged(after.events, id)
      && (after.events == before.events ||
           after.events == before.events + [Event(|before.events| + 1, id, None, draft)])
  {
    AdmittedTables(s, id, draft);
    PerformGrows(s.ledger, NodeAppend(id, draft));
    NodeAppendRows(s, id, draft);
    EnRouteAdds(s.procs, p, DoHubReceive(s, p, from, NodeEvent(id, draft)).procs[p]);
  }

  lemma AdmitKeepsNet(s: Sys, p: ProcId, from: NodeId, id: EventId, draft: EventDraft)
    requires LedgerInv(s.ledger)
    requires NetInv(s) && (from, NodeEvent(id, draft)) in s.net.toHub && p !in s.procs && Admits(s, from, draft)
    ensures NetInv(DoHubReceive(s, p, from, NodeEvent(id, draft)))
  {
    AdmitShape(s, p, from, id, draft);
    AdmittedKeepsNet(s, DoHubReceive(s, p, from, NodeEvent(id, draft)), from, id, draft);
  }

  lemma AdmittedKeepsNet(s: Sys, t: Sys, from: NodeId, id: EventId, draft: EventDraft)
    requires NetInv(s) && (from, NodeEvent(id, draft)) in s.net.toHub && Admits(s, from, draft)
    requires Grows(s.ledger.tables, t.ledger.tables) && t.net == s.net && t.registry == s.registry && t.cache == s.cache
    requires EnRoute(t.procs) <= EnRoute(s.procs) + {(from, EventAck(id))}
    requires t.ledger.tables.dispatches == s.ledger.tables.dispatches
    requires Logged(t.ledger.tables.events, id)
    requires t.ledger.tables.events == s.ledger.tables.events
      || t.ledger.tables.events == s.ledger.tables.events + [Event(|s.ledger.tables.events| + 1, id, None, draft)]
    ensures NetInv(t)
  {
    AdmitsIsBound(s, from, draft);
    CacheGrows(s, t);
    AdmittedKeepsEvents(s.ledger.tables, t.ledger.tables, s.net, from, id, draft);
    AdmitKeepsMessages(s, t, from, id);
  }

  lemma AdmitKeepsMessages(s: Sys, t: Sys, from: NodeId, id: EventId)
    requires MessageInv(s) && Grows(s.ledger.tables, t.ledger.tables) && t.net == s.net && t.registry == s.registry
    requires EnRoute(t.procs) <= EnRoute(s.procs) + {(from, EventAck(id))}
    requires Logged(t.ledger.tables.events, id)
    ensures MessageInv(t)
  {
    MessagesStep(s, t, {(from, EventAck(id))});
  }

  lemma HubReceiveKeepsNet(s: Sys, p: ProcId, from: NodeId, up: NodeToHub)
    requires LedgerInv(s.ledger) && NetInv(s)
    ensures NetInv(DoHubReceive(s, p, from, up))
  {
    if (from, up) in s.net.toHub && p !in s.procs {
      match up
      case CommandAck(command) => AckFrameKeepsNet(s, p, from, command);
      case NodeEvent(id, draft) =>
        if Admits(s, from, draft) {
          AdmitKeepsNet(s, p, from, id, draft);
        } else {
          RejectKeepsNet(s, p, from, id, draft);
        }
    }
  }

  // ----- a node receives -----------------------------------------------------------------

  lemma RemovedKeepsEvents(t: Tables, net: Net, n: NodeId, id: EventId)
    requires EventInv(t, net) && (Logged(t.events, id) || id in net.rejected)
    ensures
      var node := NodeAt(net, n);
      EventInv(t, net.(nodes := net.nodes[n := node.(outbox := RemoveEvent(node.outbox, id))]))
  {
    var node := NodeAt(net, n);
    var net' := net.(nodes := net.nodes[n := node.(outbox := RemoveEvent(node.outbox, id))]);
    forall k | k in net'.emitted
      ensures Kept(t.events, net', k)
    {
      assert Kept(t.events, net, k);
    }
    forall k | k in net'.nodes
      ensures OutboxEmitted(net', k, net'.nodes[k].outbox)
    {
      assert k in net.nodes ==> OutboxEmitted(net, k, net.nodes[k].outbox);
    }
  }

  // An engine that keeps what it has seen and done.
  lemma NodeKeepsEngines(rows: seq<DispatchRow>, net: Net, n: NodeId, node: Node)
    requires EngineInv(rows, net) && EngineOk(rows, n, node) && NodeAt(net, n).seen <= node.seen
    ensures EngineInv(rows, net.(nodes := net.nodes[n := node]))
  {
    var net' := net.(nodes := net.nodes[n := node]);
    assert forall k :: NodeAt(net, k).seen <= NodeAt(net', k).seen;
  }

  lemma EngineAt(rows: seq<DispatchRow>, net: Net, n: NodeId)
    requires EngineInv(rows, net)
    ensures EngineOk(rows, n, NodeAt(net, n))
  {
  }

  // A node whose outbox is untouched.
  lemma NodeKeepsEvents(t: Tables, net: Net, n: NodeId, node: Node)
    requires EventInv(t, net) && node.outbox == NodeAt(net, n).outbox
    ensures EventInv(t, net.(nodes := net.nodes[n := node]))
  {
    var net' := net.(nodes := net.nodes[n := node]);
    forall k | k in net'.emitted
      ensures Kept(t.events, net', k)
    {
      assert Kept(t.events, net, k);
    }
    forall k | k in net'.nodes
      ensures OutboxEmitted(net', k, net'.nodes[k].outbox)
    {
      assert k in net.nodes ==> OutboxEmitted(net, k, net.nodes[k].outbox);
    }
  }

  // The gate on the seen set: a dispatch met for the first time is acted on.
  lemma ActKeepsEngine(rows: seq<DispatchRow>, n: NodeId, node: Node, m: HubToNode)
    requires EngineOk(rows, n, node) && m.DispatchCommand? && HasRow(rows, n, m) && m.commandId !in node.seen
    ensures EngineOk(rows, n, node.(seen := node.seen + {m.commandId}, effects := node.effects + [m]))
  {
    var acted := node.(seen := node.seen + {m.commandId}, effects := node.effects + [m]);
    forall c | c in acted.seen
      ensures exists i ::
        0 <= i < |acted.effects| && acted.effects[i].DispatchCommand? && acted.effects[i].commandId == c
    {
      if c in node.seen {
        var i :| 0 <= i < |node.effects| && node.effects[i].DispatchCommand? && node.effects[i].commandId == c;
        assert acted.effects[i] == node.effects[i];
      } else {
        assert acted.effects[|node.effects|] == m;
      }
    }
  }

  lemma NodeReceiveKeepsNet(s: Sys, n: NodeId, down: HubToNode)
    requires NetInv(s)
    ensures NetInv(DoNodeReceive(s, n, down))
  {
    var t := DoNodeReceive(s, n, down);
    if (n, down) in s.net.toNode {
      var rows, node := s.ledger.tables.dispatches, NodeAt(s.net, n);
      assert Legit(s.ledger.tables, s.net.rejected, (n, down));
      EngineAt(rows, s.net, n);
      match down
      case EventAck(id) =>
        RemovedKeepsEvents(s.ledger.tables, s.net, n, id);
        NodeKeepsEngines(rows, s.net, n, node.(outbox := RemoveEvent(node.outbox, id)));
        MessagesStep(s, t, {});
      case DispatchCommand(command, _) =>
        if command !in node.seen {
          var acted := node.(seen := node.seen + {command}, effects := node.effects + [down]);
          ActKeepsEngine(rows, n, node, down);
          NodeKeepsEngines(rows, s.net, n, acted);
          NodeKeepsEvents(s.ledger.tables, s.net, n, acted);
          MessagesStep(s, t, {});
        }
    }
  }

  // ----- a node sends ------------------------------------------------------------------------

  lemma EmittedKeepsEvents(s: Sys, n: NodeId, id: EventId, draft: EventDraft)
    requires CacheInv(s) && EventInv(s.ledger.tables, s.net) && FreshEvent(s, id)
    ensures EventInv(s.ledger.tables, DoEmit(s, n, id, draft).net)
  {
    var t, net, net' := s.ledger.tables, s.net, DoEmit(s, n, id, draft).net;
    AdmitsIsBound(s, n, draft);
    forall k | k in net'.emitted
      ensures Kept(t.events, net', k)
    {
      if k == id {
        var outbox := NodeAt(net', n).outbox;
        assert outbox[|outbox| - 1] == (id, draft);
      } else {
        assert Kept(t.events, net, k);
      }
    }
    forall k | k in net'.nodes
      ensures OutboxEmitted(net', k, net'.nodes[k].outbox)
    {
      assert k in net.nodes ==> OutboxEmitted(net, k, net.nodes[k].outbox);
    }
  }

  lemma EmitKeepsNet(s: Sys, n: NodeId, id: EventId, draft: EventDraft)
    requires NetInv(s)
    ensures NetInv(DoEmit(s, n, id, draft))
  {
    var t := DoEmit(s, n, id, draft);
    if FreshEvent(s, id) {
      var node := NodeAt(s.net, n);
      EmittedKeepsEvents(s, n, id, draft);
      EngineAt(s.ledger.tables.dispatches, s.net, n);
      NodeKeepsEngines(s.ledger.tables.dispatches, s.net, n, node.(outbox := node.outbox + [(id, draft)]));
      MessagesStep(s, t, {});
    }
  }

  // One more frame towards the hub, of what the node has in its outbox or has seen.
  lemma FrameKeepsNet(s: Sys, t: Sys, n: NodeId, up: NodeToHub)
    requires NetInv(s) && t == s.(net := s.net.(toHub := s.net.toHub + {(n, up)}))
    requires match up
             case NodeEvent(id, draft) => id in s.net.emitted && (id, draft) in NodeAt(s.net, n).outbox
             case CommandAck(command) => command in NodeAt(s.net, n).seen
    ensures NetInv(t)
  {
    hide MessageInv, EventInv, EngineInv, EnRoute, Queued;
    MessagesStep(s, t, {});
    FrameKeepsEvents(s.ledger.tables, s.net, t.net);
    FrameKeepsEngines(s.ledger.tables.dispatches, s.net, t.net);
  }

  lemma SendEventKeepsNet(s: Sys, n: NodeId, id: EventId)
    requires NetInv(s)
    ensures NetInv(DoSendEvent(s, n, id))
  {
    hide NetInv;
    if DoSendEvent(s, n, id) != s {
      FrameKeepsNet(s, DoSendEvent(s, n, id), n, NodeEvent(id, s.net.emitted[id].1));
    }
  }

  lemma SendAckKeepsNet(s: Sys, n: NodeId, command: CommandId)
    requires NetInv(s)
    ensures NetInv(DoSendAck(s, n, command))
  {
    hide NetInv;
    if DoSendAck(s, n, command) != s {
      FrameKeepsNet(s, DoSendAck(s, n, command), n, CommandAck(command));
    }
  }

  lemma FrameKeepsEngines(rows: seq<DispatchRow>, net: Net, net': Net)
    requires EngineInv(rows, net) && net' == net.(toHub := net'.toHub)
    requires forall f :: f in net'.toHub && f !in net.toHub && f.1.CommandAck? ==>
      f.1.commandId in NodeAt(net, f.0).seen
    ensures EngineInv(rows, net')
  {
    assert forall n :: NodeAt(net', n) == NodeAt(net, n);
  }

  lemma FrameKeepsEvents(t: Tables, net: Net, net': Net)
    requires EventInv(t, net) && net' == net.(toHub := net'.toHub)
    requires forall f :: f in net'.toHub && f !in net.toHub && f.1.NodeEvent? ==>
      f.1.eventId in net.emitted && (f.1.eventId, f.1.draft) in NodeAt(net, f.0).outbox
    ensures EventInv(t, net')
  {
    forall f | f in net'.toHub && f.1.NodeEvent?
      ensures f.1.eventId in net.emitted && net.emitted[f.1.eventId] == (f.0, f.1.draft)
    {
      if f !in net.toHub {
        assert OutboxEmitted(net, f.0, NodeAt(net, f.0).outbox);
      }
    }
    assert forall k :: k in net.emitted && Kept(t.events, net, k) ==> Kept(t.events, net', k);
    assert forall k :: k in net.nodes ==>
      OutboxEmitted(net', k, net.nodes[k].outbox) == OutboxEmitted(net, k, net.nodes[k].outbox);
  }

  // ----- any step --------------------------------------------------------------------------------

  ghost predicate Loud(l: Label) {
    || l.HubReceive? || l.NodeReceive? || l.Emit? || l.SendEvent? || l.SendAck?
    || l.DropUp? || l.DropDown? || l.HandStep? || l.ReadPendingStep?
  }

  lemma StepKeepsNet(s: Sys, l: Label)
    requires LedgerInv(s.ledger) && SlotInv(s.registry) && NetInv(s)
    ensures NetInv(Next(s, l))
  {
    if Loud(l) {
      LoudStepKeepsNet(s, l);
    } else {
      QuietLabel(s, l);
      QuietStepKeepsNet(s, Next(s, l));
    }
  }

  lemma LoudStepKeepsNet(s: Sys, l: Label)
    requires LedgerInv(s.ledger) && SlotInv(s.registry) && NetInv(s) && Loud(l)
    ensures NetInv(Next(s, l))
  {
    hide NetInv;
    if l.HubReceive? {
      HubReceiveStep(s, l);
    } else if l.NodeReceive? || l.Emit? {
      NodeStep(s, l);
    } else if l.SendEvent? || l.SendAck? {
      SendStep(s, l);
    } else if l.DropUp? || l.DropDown? {
      DropKeepsNet(s, l);
    } else {
      LinkStep(s, l);
    }
  }

  lemma HubReceiveStep(s: Sys, l: Label)
    requires LedgerInv(s.ledger) && NetInv(s) && l.HubReceive?
    ensures NetInv(Next(s, l))
  {
    hide NetInv;
    HubReceiveKeepsNet(s, l.p, l.from, l.up);
  }

  lemma NodeStep(s: Sys, l: Label)
    requires NetInv(s) && (l.NodeReceive? || l.Emit?)
    ensures NetInv(Next(s, l))
  {
    hide NetInv;
    if l.NodeReceive? {
      NodeReceiveKeepsNet(s, l.node, l.down);
    } else {
      EmitKeepsNet(s, l.node, l.mintEvent, l.draft);
    }
  }

  lemma SendStep(s: Sys, l: Label)
    requires NetInv(s) && (l.SendEvent? || l.SendAck?)
    ensures NetInv(Next(s, l))
  {
    hide NetInv;
    if l.SendEvent? {
      SendEventKeepsNet(s, l.node, l.event);
    } else {
      SendAckKeepsNet(s, l.node, l.ack);
    }
  }

  lemma LinkStep(s: Sys, l: Label)
    requires SlotInv(s.registry) && DispatchesMatchReceipts(s.ledger.tables) && NetInv(s) &&
      (l.HandStep? || l.ReadPendingStep?)
    ensures NetInv(Next(s, l))
  {
    hide NetInv, DispatchesMatchReceipts;
    if l.HandStep? {
      HandKeepsNet(s, l.conn);
    } else {
      ReadPendingKeepsNet(s, l.conn);
    }
  }

  lemma QuietLabel(s: Sys, l: Label)
    requires SlotInv(s.registry)
    requires !Loud(l)
    ensures QuietStep(s, Next(s, l))
  {
    hide QuietStep, DoCommit, DoWorkerCommitRun, DoWorkerCommitTask, DoWorkerEnrol, DoReceive, DoDecide, DoWorkerBegin;
    hide DoCacheRun, DoTrackWorker, DoHubCommand, DoHubEvent, DoRestart, Perform, SlotInv;
    match l
    case Commit(p, id) => CommitIsQuiet(s, p, id);
    case WorkerCommitRun(p, command, run, id) => WorkerRunIsQuiet(s, p, command, run, id);
    case WorkerCommitTask(p, command, task, id) => WorkerTaskIsQuiet(s, p, command, task, id);
    case WorkerEnrolStep(p) => WorkerEnrolIsQuiet(s, p);
    case Receive(p, command, origin) => ReceiveIsQuiet(s, p, command, origin);
    case Decide(p, task, run, fallback, pick) => DecideIsQuiet(s, p, task, run, fallback, pick);
    case WorkerBegin(p, channel, node) => WorkerBeginIsQuiet(s, p, channel, node);
    case CacheRun(run) => CacheRunIsQuiet(s, run);
    case RouteStep(_) => SettleIsQuiet(s, l);
    case Abandon(_) => SettleIsQuiet(s, l);
    case WorkerRouteStep(_, _, _) => SettleIsQuiet(s, l);
    case TrackWorker(channel, task, run) => TrackWorkerIsQuiet(s, channel, task, run);
    case HubRun(command, run, task, id) => HubCommandIsQuiet(s, PlanRun(command, run, task, HUB_NODE, "", false), id);
    case HubMessage(command, task, run, id, text) =>
      HubCommandIsQuiet(s, PlanMessage(command, task, Some(run), None, text), id);
    case HubEvent(id, draft) => HubEventIsQuiet(s, id, draft);
    case CompleteWakeStep(wake) => UpkeepIsQuiet(s, FinishWake(wake));
    case RegisterNode(_) => SlotStepIsQuiet(s, l);
    case UnregisterNode(_) => SlotStepIsQuiet(s, l);
    case ReplayStep(_) => SlotStepIsQuiet(s, l);
    case HubRestart => RestartIsQuiet(s);
    case _ => ClientIsQuiet(s, l);
  }
}
