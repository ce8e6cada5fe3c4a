// Every step keeps what DeliveryRuns states about messages, events and engines.
module DeliverySteps {
  import opened Wrappers
  import opened Events
  import opened Store
  import opened Ledger
  import opened LiveFeed
  import opened NodeRegistry
  import opened ControlPlane
  import opened DispatchRuns
  import opened DeliveryRuns

  function Afloat(s: Sys): set<(NodeId, HubToNode)> {
    EnRoute(s.procs) + Queued(s.registry) + s.net.toNode
  }

  lemma MessagesStep(s: Sys, t: Sys, added: set<(NodeId, HubToNode)>)
    requires MessageInv(s) && Grows(s.ledger.tables, t.ledger.tables) && s.net.rejected <= t.net.rejected
    requires Afloat(t) <= Afloat(s) + added
    requires AllLegit(t.ledger.tables, t.net.rejected, added)
    ensures MessageInv(t)
  {
    LegitGrows(s.ledger.tables, t.ledger.tables, s.net.rejected, t.net.rejected, Afloat(s));
  }

  lemma EnRouteAdds(procs: map<ProcId, Proc>, p: ProcId, x: Proc)
    ensures EnRoute(procs - {p}) <= EnRoute(procs)
    ensures EnRoute(procs[p := x]) <=
            EnRoute(procs) + if PendingRoute(x).Some? then {PendingRoute(x).value} else {}
  {
  }

  // ----- durable operations under fresh event ids -------------------------------------

  ghost predicate FreshOp(s: Sys, op: HubOp) {
    match op
    case Command(_, id) => FreshEvent(s, id)
    case NodeAppend(id, _) => FreshEvent(s, id)
    case Acknowledge(_, _) => false
    case _ => true
  }

  lemma FreshOpEvents(s: Sys, op: HubOp)
    requires FreshOp(s, op)
    ensures
      var t := Durable(s, op).0.ledger.tables;
      && (forall i :: |s.ledger.tables.events| <= i < |t.events| ==> t.events[i].eventId !in s.net.emitted)
      && |s.ledger.tables.dispatches| <= |t.dispatches|
      && (forall i :: 0 <= i < |t.dispatches| && t.dispatches[i].acked ==>
           i < |s.ledger.tables.dispatches| && s.ledger.tables.dispatches[i].acked)
  {
    match op
    case Command(plan, id) => CommandRows(s, plan, id);
    case NodeAppend(id, draft) => NodeAppendRows(s, id, draft);
    case _ =>
  }

  lemma CacheGrows(s: Sys, t: Sys)
    requires CacheInv(s) && Grows(s.ledger.tables, t.ledger.tables) && t.cache == s.cache
    ensures CacheInv(t)
  {
  }

  // One fresh operation, with at most one legitimate new message in flight.
  ghost predicate FreshStep(s: Sys, t: Sys, op: HubOp, added: set<(NodeId, HubToNode)>) {
    && FreshOp(s, op)
    && t.ledger == Durable(s, op).0.ledger && t.net == s.net && t.registry == s.registry
    && (CacheInv(s) ==> CacheInv(t))
    && EnRoute(t.procs) <= EnRoute(s.procs) + added
    && AllLegit(t.ledger.tables, t.net.rejected, added)
    && NewWork(s, added)
  }

  // Work of commands that have no receipt yet.
  ghost predicate NewWork(s: Sys, added: set<(NodeId, HubToNode)>) {
    forall x :: x in added ==> x.1.DispatchCommand? && x.1.commandId !in s.ledger.tables.receipts
  }

  // Nothing durable, nothing new in flight.
  ghost predicate StillStep(s: Sys, t: Sys) {
    t.ledger == s.ledger && t.net == s.net && (CacheInv(s) ==> CacheInv(t)) && Afloat(t) <= Afloat(s)
  }

  // One of the two.
  ghost predicate QuietStep(s: Sys, t: Sys) {
    StillStep(s, t) || exists op, added :: FreshStep(s, t, op, added)
  }

  lemma FreshStepKeepsNet(s: Sys, t: Sys, op: HubOp, added: set<(NodeId, HubToNode)>)
    requires NetInv(s) && FreshStep(s, t, op, added)
    ensures NetInv(t)
  {
    PerformGrows(s.ledger, op);
    FreshOpEvents(s, op);
    MessagesStep(s, t, added);
    EventsGrow(s.ledger.tables, t.ledger.tables, s.net);
    EnginesGrow(s.ledger.tables.dispatches, t.ledger.tables.dispatches, s.net);
  }

  lemma QuietStepKeepsNet(s: Sys, t: Sys)
    requires NetInv(s) && QuietStep(s, t)
    ensures NetInv(t)
  {
    if StillStep(s, t) {
      MessagesStep(s, t, {});
    } else {
      var op, added :| FreshStep(s, t, op, added);
      FreshStepKeepsNet(s, t, op, added);
    }
  }

  lemma FreshOpKeepsCache(s: Sys, op: HubOp)
    ensures CacheInv(s) ==> CacheInv(Durable(s, op).0)
  {
    PerformGrows(s.ledger, op);
    if CacheInv(s) {
      CacheGrows(s, Durable(s, op).0);
    }
  }

  // ----- commands --------------------------------------------------------------------

  // A created command has its dispatch row, and a created run its row.
  lemma CreatedCommand(s: Sys, plan: Plan, id: EventId)
    requires Durable(s, Command(plan, id)).1.Ok? && Durable(s, Command(plan, id)).1.value.created
    ensures
      var t := Durable(s, Command(plan, id)).0.ledger.tables;
      && (DispatchOf(plan).Some? ==>
            && NewWork(s, {DispatchOf(plan).value})
            && HasRow(t.dispatches, DispatchOf(plan).value.0, DispatchOf(plan).value.1))
      && (plan.PlanRun? ==>
            && plan.runId !in s.ledger.tables.runs
            && plan.runId in t.runs && t.runs[plan.runId] == RunRow(plan.taskId, plan.nodeId, RunStatus.Started))
  {
    CommandRows(s, plan, id);
    if DispatchOf(plan).Some? {
      var rows := Durable(s, Command(plan, id)).0.ledger.tables.dispatches;
      assert rows[|rows| - 1] == QueuedBy(plan)[0];
    }
  }

  // A commit that starts routing a dispatch.
  lemma DispatchingIsQuiet(s: Sys, t: Sys, plan: Plan, id: EventId, p: ProcId)
    requires FreshEvent(s, id) && DispatchOf(plan).Some?
    requires Durable(s, Command(plan, id)).1.Ok? && Durable(s, Command(plan, id)).1.value.created
    requires t.ledger == Durable(s, Command(plan, id)).0.ledger && t.net == s.net && t.registry == s.registry
    requires p in t.procs && PendingRoute(t.procs[p]) == DispatchOf(plan) && t.procs == s.procs[p := t.procs[p]]
    requires t.cache == if plan.PlanRun? then s.cache[plan.runId := (plan.nodeId, plan.taskId)] else s.cache
    ensures QuietStep(s, t)
  {
    hide Perform, Queued, EnRoute, StillStep;
    FreshOpKeepsCache(s, Command(plan, id));
    CreatedCommand(s, plan, id);
    EnRouteAdds(s.procs, p, t.procs[p]);
    assert FreshStep(s, t, Command(plan, id), {DispatchOf(plan).value});
  }

  // Any other commit: the process ends or moves on with nothing to route.
  lemma CommittingIsQuiet(s: Sys, t: Sys, op: HubOp)
    requires FreshOp(s, op)
    requires t.ledger == Durable(s, op).0.ledger && t.net == s.net && t.registry == s.registry && t.cache == s.cache
    requires EnRoute(t.procs) <= EnRoute(s.procs)
    ensures QuietStep(s, t)
  {
    FreshOpKeepsCache(s, op);
    assert FreshStep(s, t, op, {});
  }

  lemma CommitIsQuiet(s: Sys, p: ProcId, id: EventId)
    ensures QuietStep(s, DoCommit(s, p, id))
  {
    var t := DoCommit(s, p, id);
    if p in s.procs && s.procs[p].Planned? && FreshEvent(s, id) {
      var plan := s.procs[p].plan;
      var result := Durable(s, Command(plan, id)).1;
      if result.Ok? && result.value.created && DispatchOf(plan).Some? {
        DispatchingIsQuiet(s, t, plan, id, p);
      } else {
        EnRouteAdds(s.procs, p, s.procs[p]);
        CommittingIsQuiet(s, t, Command(plan, id));
      }
    } else {
      assert StillStep(s, t);
    }
  }

  lemma WorkerRunIsQuiet(s: Sys, p: ProcId, command: CommandId, run: RunId, id: EventId)
    ensures QuietStep(s, DoWorkerCommitRun(s, p, command, run, id))
  {
    var t := DoWorkerCommitRun(s, p, command, run, id);
    if p in s.procs && s.procs[p].WorkerStart? && FreshEvent(s, id) && command !in s.ledger.tables.receipts {
      var plan := PlanRun(command, run, s.procs[p].task, s.procs[p].node, "", true);
      if Durable(s, Command(plan, id)).1.Ok? {
        DispatchingIsQuiet(s, t, plan, id, p);
      } else {
        EnRouteAdds(s.procs, p, s.procs[p]);
        CommittingIsQuiet(s, t, Command(plan, id));
      }
    } else {
      assert StillStep(s, t);
    }
  }

  lemma WorkerTaskIsQuiet(s: Sys, p: ProcId, command: CommandId, task: TaskId, id: EventId)
    ensures QuietStep(s, DoWorkerCommitTask(s, p, command, task, id))
  {
    var t := DoWorkerCommitTask(s, p, command, task, id);
    if p in s.procs && s.procs[p].WorkerCreate? && FreshEvent(s, id) && command !in s.ledger.tables.receipts {
      EnRouteAdds(s.procs, p, if p in t.procs then t.procs[p] else s.procs[p]);
      CommittingIsQuiet(s, t, Command(PlanTask(command, task, ""), id));
    } else {
      assert StillStep(s, t);
    }
  }

  lemma WorkerEnrolIsQuiet(s: Sys, p: ProcId)
    ensures QuietStep(s, DoWorkerEnrol(s, p))
  {
    var t := DoWorkerEnrol(s, p);
    if p in s.procs && s.procs[p].WorkerEnrol? {
      EnRouteAdds(s.procs, p, t.procs[p]);
      if s.procs[p].channel.Some? {
        CommittingIsQuiet(s, t, Enrol(s.procs[p].channel.value, s.procs[p].task));
      } else {
        assert StillStep(s, t);
      }
    } else {
      assert StillStep(s, t);
    }
  }

  // Only the entry of one process changes, to one with nothing to route.
  lemma ReplanIsQuiet(s: Sys, t: Sys, p: ProcId, x: Proc)
    requires t.ledger == s.ledger && t.net == s.net && t.registry == s.registry && t.cache == s.cache
    requires PendingRoute(x).None?
    requires t.procs == s.procs || t.procs == s.procs - {p} || t.procs == s.procs[p := x]
    ensures QuietStep(s, t)
  {
    EnRouteAdds(s.procs, p, x);
    assert StillStep(s, t);
  }

  lemma DecideIsQuiet(s: Sys, p: ProcId, task: TaskId, run: RunId, fallback: Option<NodeId>, pick: Option<NodeId>)
    ensures QuietStep(s, DoDecide(s, p, task, run, fallback, pick))
  {
    var t := DoDecide(s, p, task, run, fallback, pick);
    ReplanIsQuiet(s, t, p, if p in t.procs && t.procs[p].Planned? then t.procs[p] else WorkerCreate(None, ""));
  }

  lemma ReceiveIsQuiet(s: Sys, p: ProcId, command: ClientCommand, origin: Origin)
    ensures QuietStep(s, DoReceive(s, p, command, origin))
  {
    hide QuietStep;
    var t := DoReceive(s, p, command, origin);
    SameButAnswers(s, t.(procs := s.procs), t.procs, p, Checked(command, origin));
  }

  lemma SameButAnswers(s: Sys, t: Sys, procs: map<ProcId, Proc>, p: ProcId, x: Proc)
    requires t == s.(answers := t.answers) && PendingRoute(x).None?
    requires procs == s.procs || procs == s.procs[p := x]
    ensures QuietStep(s, t.(procs := procs))
  {
    ReplanIsQuiet(s, t.(procs := procs), p, x);
  }

  lemma WorkerBeginIsQuiet(s: Sys, p: ProcId, channel: Option<Channel>, node: NodeId)
    ensures QuietStep(s, DoWorkerBegin(s, p, channel, node))
  {
    hide QuietStep;
    ReplanIsQuiet(s, DoWorkerBegin(s, p, channel, node), p, WorkerCreate(channel, node));
  }

  lemma CacheRunIsQuiet(s: Sys, run: RunId)
    ensures QuietStep(s, DoCacheRun(s, run))
  {
    hide Queued, EnRoute;
    assert StillStep(s, DoCacheRun(s, run));
  }

  lemma SettleIsQuiet(s: Sys, l: Label)
    requires SlotInv(s.registry) && (l.RouteStep? || l.Abandon? || l.WorkerRouteStep?)
    ensures QuietStep(s, Next(s, l))
  {
    hide Route, Skip, Queued, SlotInv;
    var t := Next(s, l);
    if t != s && l.p in s.procs && PendingRoute(s.procs[l.p]).Some? {
      var (node, message) := PendingRoute(s.procs[l.p]).value;
      assert (node, message) in EnRoute(s.procs);
      QueuedMoves(s.registry, node, message, 0);
      EnRouteAdds(s.procs, l.p, if l.p in t.procs then t.procs[l.p] else WorkerCreate(None, ""));
    }
    assert StillStep(s, t);
  }

  lemma HubCommandIsQuiet(s: Sys, plan: Plan, id: EventId)
    ensures QuietStep(s, DoHubCommand(s, plan, id))
  {
    var t := DoHubCommand(s, plan, id);
    FreshOpKeepsCache(s, Command(plan, id));
    assert StillStep(s, t) || FreshStep(s, t, Command(plan, id), {});
  }

  lemma HubEventIsQuiet(s: Sys, id: EventId, draft: EventDraft)
    ensures QuietStep(s, DoHubEvent(s, id, draft))
  {
    var t := DoHubEvent(s, id, draft);
    FreshOpKeepsCache(s, NodeAppend(id, draft));
    assert StillStep(s, t) || FreshStep(s, t, NodeAppend(id, draft), {});
  }

  lemma UpkeepIsQuiet(s: Sys, op: HubOp)
    requires op.Enrol? || op.FinishWake?
    ensures QuietStep(s, Durable(s, op).0)
  {
    FreshOpKeepsCache(s, op);
    assert FreshStep(s, Durable(s, op).0, op, {});
  }

  lemma TrackWorkerIsQuiet(s: Sys, channel: Channel, task: TaskId, run: RunId)
    ensures QuietStep(s, DoTrackWorker(s, channel, task, run))
  {
    hide Durable, Queued, EnRoute;
    UpkeepIsQuiet(s, Enrol(channel, task));
    assert StillStep(s, s);
  }

  // ----- connections and clients ------------------------------------------------------------

  lemma SlotStepIsQuiet(s: Sys, l: Label)
    requires SlotInv(s.registry) && (l.RegisterNode? || l.UnregisterNode? || l.ReplayStep?)
    ensures QuietStep(s, Next(s, l))
  {
    hide Register, Unregister, ReplayTurn, Queued, EnRoute, SlotInv;
    match l
    case RegisterNode(node) => QueuedMoves(s.registry, node, EventAck(0), 0); assert StillStep(s, Next(s, l));
    case UnregisterNode(conn) => QueuedMoves(s.registry, "", EventAck(0), conn); assert StillStep(s, Next(s, l));
    case ReplayStep(conn) => QueuedReplays(s.registry, [], conn); assert StillStep(s, Next(s, l));
  }

  lemma ReadPendingKeepsNet(s: Sys, conn: ConnId)
    requires NetInv(s) && SlotInv(s.registry) && DispatchesMatchReceipts(s.ledger.tables)
    ensures NetInv(Next(s, ReadPendingStep(conn)))
  {
    hide EventInv, EngineInv, SlotInv, ReadPending;
    var t := Next(s, ReadPendingStep(conn));
    var rows := s.ledger.tables.dispatches;
    QueuedReplays(s.registry, rows, conn);
    MessagesStep(s, t, Queued(t.registry) - Queued(s.registry));
  }

  lemma HandKeepsNet(s: Sys, conn: ConnId)
    requires NetInv(s)
    ensures NetInv(DoHand(s, conn))
  {
    var t := DoHand(s, conn);
    if CanHand(s.registry, conn) {
      QueuedHands(s.registry, conn);
      MessagesStep(s, t, {});
      assert EventInv(t.ledger.tables, t.net) by { SameEvents(s.ledger.tables, s.net, t.net); }
      assert EngineInv(t.ledger.tables.dispatches, t.net) by { SameEngines(s.ledger.tables.dispatches, s.net, t.net); }
    }
  }

  lemma SameEvents(t: Tables, net: Net, net': Net)
    requires EventInv(t, net) && net'.toHub <= net.toHub && net'.nodes == net.nodes
    requires net'.emitted == net.emitted && net'.promised == net.promised && net'.rejected == net.rejected
    ensures EventInv(t, net')
  {
    assert forall id :: id in net.emitted && Kept(t.events, net, id) ==> Kept(t.events, net', id);
    assert forall n :: n in net.nodes ==>
      OutboxEmitted(net', n, net.nodes[n].outbox) == OutboxEmitted(net, n, net.nodes[n].outbox);
  }

  lemma SameEngines(rows: seq<DispatchRow>, net: Net, net': Net)
    requires EngineInv(rows, net) && net'.toHub <= net.toHub && net'.nodes == net.nodes
    ensures EngineInv(rows, net')
  {
    assert forall n :: NodeAt(net', n) == NodeAt(net, n);
  }

  lemma DropKeepsNet(s: Sys, l: Label)
    requires NetInv(s) && (l.DropUp? || l.DropDown?)
    ensures NetInv(Next(s, l))
  {
    hide NetInv;
    FewerFrames(s, Next(s, l));
  }

  lemma FewerFrames(s: Sys, t: Sys)
    requires NetInv(s) && t == s.(net := s.net.(toHub := t.net.toHub, toNode := t.net.toNode))
    requires t.net.toHub <= s.net.toHub && t.net.toNode <= s.net.toNode
    ensures NetInv(t)
  {
    hide MessageInv, EventInv, EngineInv, EnRoute, Queued;
    MessagesStep(s, t, {});
    SameEvents(s.ledger.tables, s.net, t.net);
    SameEngines(s.ledger.tables.dispatches, s.net, t.net);
  }

  lemma RestartIsQuiet(s: Sys)
    ensures QuietStep(s, DoRestart(s))
  {
    assert StillStep(s, DoRestart(s));
  }

  lemma ClientIsQuiet(s: Sys, l: Label)
    requires l.Subscribe? || l.SnapshotStep? || l.PumpStep? || l.Leave?
    ensures QuietStep(s, Next(s, l))
  {
    hide Queued, EnRoute, CacheInv, Pump, TakeSnapshot, Join;
    SameButFeed(s, Next(s, l));
  }

  lemma SameButFeed(s: Sys, t: Sys)
    requires t == s.(feed := t.feed)
    ensures QuietStep(s, t)
  {
    hide Queued, EnRoute;
    assert StillStep(s, t);
  }
}
