// No dispatch is stranded: what the connection in a node's slot holds, at every
// step of every run.
module DispatchRuns {
  import opened Wrappers
  import opened Events
  import opened Store
  import opened Ledger
  import opened LiveFeed
  import opened NodeRegistry
  import opened ControlPlane

  ghost predicate DispatchInv(s: Sys) {
    SlotInv(s.registry) && CoverInv(s.registry, s.ledger.tables.dispatches, EnRoute(s.procs))
  }

  // ----- messages on their way -----------------------------------------------

  // Replacing an entry loses at most its own pending message and gains the new one.
  lemma EnRouteUpdate(procs: map<ProcId, Proc>, p: ProcId, x: Proc)
    ensures PendingRoute(x).Some? ==> PendingRoute(x).value in EnRoute(procs[p := x])
    ensures p !in procs || PendingRoute(procs[p]).None? ==> EnRoute(procs) <= EnRoute(procs[p := x])
    ensures p in procs && PendingRoute(procs[p]).Some? ==>
      EnRoute(procs) <= EnRoute(procs[p := x]) + {PendingRoute(procs[p]).value}
  {
    var procs' := procs[p := x];
    assert forall q :: q in procs && q != p ==> q in procs' && procs'[q] == procs[q];
    assert procs'[p] == x;
  }

  lemma EnRouteRemove(procs: map<ProcId, Proc>, p: ProcId)
    ensures p !in procs || PendingRoute(procs[p]).None? ==> EnRoute(procs) <= EnRoute(procs - {p})
    ensures p in procs && PendingRoute(procs[p]).Some? ==>
      EnRoute(procs) <= EnRoute(procs - {p}) + {PendingRoute(procs[p]).value}
  {
    assert forall q :: q in procs && q != p ==> q in procs - {p} && (procs - {p})[q] == procs[q];
  }

  // ----- rows ------------------------------------------------------------------

  // A command adds its dispatch row exactly when it is created.
  lemma CommandRows(s: Sys, plan: Plan, id: EventId)
    ensures
      var (t, result) := Durable(s, Command(plan, id));
      t.ledger.tables.dispatches ==
        s.ledger.tables.dispatches + if result.Ok? && result.value.created then QueuedBy(plan) else []
  {
  }

  lemma NodeAppendRows(s: Sys, id: EventId, draft: EventDraft)
    ensures Durable(s, NodeAppend(id, draft)).0.ledger.tables.dispatches == s.ledger.tables.dispatches
  {
  }

  lemma OtherRows(s: Sys, op: HubOp)
    requires op.Enrol? || op.FinishWake?
    ensures Durable(s, op).0.ledger.tables.dispatches == s.ledger.tables.dispatches
  {
  }

  lemma AckedRows(s: Sys, command: CommandId, node: NodeId)
    ensures Durable(s, Acknowledge(command, node)).0.ledger.tables.dispatches ==
      AckRows(s.ledger.tables.dispatches, command, node)
  {
  }

  // ----- the steps ----------------------------------------------------------------

  // Same registry, rows extended by work that is on its way.
  lemma QueueKeepsDispatch(s: Sys, t: Sys, queued: seq<DispatchRow>)
    requires DispatchInv(s) && t.registry == s.registry
    requires t.ledger.tables.dispatches == s.ledger.tables.dispatches + queued
    requires EnRoute(s.procs) <= EnRoute(t.procs)
    requires forall row :: row in queued ==> (row.nodeId, row.message) in EnRoute(t.procs)
    ensures DispatchInv(t)
  {
    RowsGrowKeepsCover(s.registry, s.ledger.tables.dispatches, t.ledger.tables.dispatches, EnRoute(s.procs),
      EnRoute(t.procs));
  }

  lemma CommitKeepsDispatch(s: Sys, p: ProcId, id: EventId)
    requires DispatchInv(s)
    ensures DispatchInv(DoCommit(s, p, id))
  {
    var t := DoCommit(s, p, id);
    if p in s.procs && s.procs[p].Planned? && FreshEvent(s, id) {
      var plan := s.procs[p].plan;
      var result := Durable(s, Command(plan, id)).1;
      CommandRows(s, plan, id);
      EnRouteRemove(s.procs, p);
      if result.Ok? && result.value.created && DispatchOf(plan).Some? {
        EnRouteUpdate(s.procs, p, t.procs[p]);
        QueueKeepsDispatch(s, t, QueuedBy(plan));
      } else {
        QueueKeepsDispatch(s, t, []);
      }
    }
  }

  lemma SettleKeepsDispatch(s: Sys, l: Label)
    requires DispatchInv(s) && (l.RouteStep? || l.Abandon? || l.WorkerRouteStep?)
    ensures DispatchInv(Next(s, l))
  {
    hide CoverInv, SlotInv;
    var t := Next(s, l);
    if t != s && l.p in s.procs && PendingRoute(s.procs[l.p]).Some? {
      var (node, message) := PendingRoute(s.procs[l.p]).value;
      EnRouteRemove(s.procs, l.p);
      if l.WorkerRouteStep? {
        EnRouteUpdate(s.procs, l.p, t.procs[l.p]);
      }
      RouteKeepsCover(s.registry, s.ledger.tables.dispatches, EnRoute(s.procs), EnRoute(t.procs), node, message);
      SameSlotsKeepsSlots(s.registry, t.registry);
    }
  }

  lemma PlanningKeepsDispatch(s: Sys, l: Label)
    requires DispatchInv(s) && (l.Receive? || l.Decide? || l.WorkerBegin?)
    ensures DispatchInv(Next(s, l))
  {
    hide CoverInv, SlotInv, EnRoute, Perform, PlanFor;
    var t := Next(s, l);
    EnRouteRemove(s.procs, l.p);
    if l.p in t.procs {
      EnRouteUpdate(s.procs, l.p, t.procs[l.p]);
    }
    QueueKeepsDispatch(s, t, []);
  }

  lemma WorkerKeepsDispatch(s: Sys, l: Label)
    requires DispatchInv(s) && (l.WorkerCommitTask? || l.WorkerEnrolStep?)
    ensures DispatchInv(Next(s, l))
  {
    hide CoverInv, SlotInv, EnRoute, Perform, FreshEvent;
    var t := Next(s, l);
    if t != s {
      var w := s.procs[l.p];
      EnRouteRemove(s.procs, l.p);
      if l.p in t.procs {
        EnRouteUpdate(s.procs, l.p, t.procs[l.p]);
      }
      if l.WorkerCommitTask? {
        CommandRows(s, PlanTask(l.mintCommand, l.mintTask, ""), l.mintEvent);
      } else if w.channel.Some? {
        OtherRows(s, Enrol(w.channel.value, w.task));
      }
      QueueKeepsDispatch(s, t, []);
    }
  }

  // A command whose id has no receipt is created, if it succeeds at all.
  lemma NewCommandIsCreated(s: Sys, plan: Plan, id: EventId)
    requires plan.commandId !in s.ledger.tables.receipts && Durable(s, Command(plan, id)).1.Ok?
    ensures Durable(s, Command(plan, id)).1.value.created
  {
  }

  lemma WorkerRunKeepsDispatch(s: Sys, p: ProcId, command: CommandId, run: RunId, id: EventId)
    requires DispatchInv(s)
    ensures DispatchInv(DoWorkerCommitRun(s, p, command, run, id))
  {
    hide CoverInv, SlotInv, Perform;
    var t := DoWorkerCommitRun(s, p, command, run, id);
    if p in s.procs && s.procs[p].WorkerStart? && FreshEvent(s, id) && command !in s.ledger.tables.receipts {
      var w := s.procs[p];
      var plan := PlanRun(command, run, w.task, w.node, "", true);
      CommandRows(s, plan, id);
      EnRouteRemove(s.procs, p);
      if Durable(s, Command(plan, id)).1.Ok? {
        NewCommandIsCreated(s, plan, id);
        EnRouteUpdate(s.procs, p, t.procs[p]);
        QueueKeepsDispatch(s, t, QueuedBy(plan));
      } else {
        QueueKeepsDispatch(s, t, []);
      }
    }
  }

  lemma HubKeepsDispatch(s: Sys, l: Label)
    requires DispatchInv(s)
    requires l.TrackWorker? || l.HubRun? || l.HubMessage? || l.HubEvent? || l.CompleteWakeStep? || l.CacheRun?
    ensures DispatchInv(Next(s, l))
  {
    if l.HubRun? || l.HubMessage? {
      HubCommandAddsNoRows(s, l);
    } else {
      HubStepAddsNoRows(s, l);
    }
    QueueKeepsDispatch(s, Next(s, l), []);
  }

  lemma HubCommandAddsNoRows(s: Sys, l: Label)
    requires l.HubRun? || l.HubMessage?
    ensures Next(s, l).ledger.tables.dispatches == s.ledger.tables.dispatches
    ensures Next(s, l).registry == s.registry && Next(s, l).procs == s.procs
  {
    hide Perform;
    if l.HubRun? {
      CommandRows(s, PlanRun(l.mintCommand, l.mintRun, l.task, HUB_NODE, "", false), l.mintEvent);
    } else {
      CommandRows(s, PlanMessage(l.mintCommand, l.task, Some(l.run), None, l.text), l.mintEvent);
    }
  }

  lemma HubStepAddsNoRows(s: Sys, l: Label)
    requires l.TrackWorker? || l.HubEvent? || l.CompleteWakeStep? || l.CacheRun?
    ensures Next(s, l).ledger.tables.dispatches == s.ledger.tables.dispatches
    ensures Next(s, l).registry == s.registry && Next(s, l).procs == s.procs
  {
    if l.TrackWorker? {
      OtherRows(s, Enrol(l.forChannel, l.task));
    } else if l.HubEvent? {
      NodeAppendRows(s, l.mintEvent, l.draft);
    } else if l.CompleteWakeStep? {
      OtherRows(s, FinishWake(l.wake));
    }
  }

  lemma SlotStepKeepsDispatch(s: Sys, l: Label)
    requires DispatchInv(s) && (l.RegisterNode? || l.UnregisterNode?)
    ensures DispatchInv(Next(s, l))
  {
    hide CoverInv, SlotInv, EnRoute, Register, Unregister;
    var r, rows, enRoute := s.registry, s.ledger.tables.dispatches, EnRoute(s.procs);
    if l.RegisterNode? {
      RegisterKeepsSlots(r, l.node);
      RegisterKeepsCover(r, rows, enRoute, l.node);
    } else {
      UnregisterKeepsSlots(r, l.conn);
      UnregisterKeepsCover(r, rows, enRoute, l.conn);
    }
  }

  lemma ReadPendingKeepsDispatch(s: Sys, conn: ConnId)
    requires DispatchInv(s)
    ensures DispatchInv(Next(s, ReadPendingStep(conn)))
  {
    hide CoverInv, SlotInv;
    ReadPendingKeepsCover(s.registry, s.ledger.tables.dispatches, EnRoute(s.procs), conn);
    SameSlotsKeepsSlots(s.registry, ReadPending(s.registry, s.ledger.tables.dispatches, conn));
  }

  lemma ReplayTurnKeepsDispatch(s: Sys, conn: ConnId)
    requires DispatchInv(s)
    ensures DispatchInv(Next(s, ReplayStep(conn)))
  {
    hide CoverInv, SlotInv;
    ReplayTurnKeepsCover(s.registry, s.ledger.tables.dispatches, EnRoute(s.procs), conn);
    SameSlotsKeepsSlots(s.registry, ReplayTurn(s.registry, conn));
  }

  lemma HandStepKeepsDispatch(s: Sys, conn: ConnId)
    requires DispatchInv(s)
    ensures DispatchInv(DoHand(s, conn))
  {
    if CanHand(s.registry, conn) {
      HandKeepsCover(s.registry, s.ledger.tables.dispatches, EnRoute(s.procs), conn);
      SameSlotsKeepsSlots(s.registry, Hand(s.registry, conn));
    }
  }

  lemma HubReceiveKeepsDispatch(s: Sys, p: ProcId, from: NodeId, up: NodeToHub)
    requires DispatchInv(s)
    ensures DispatchInv(DoHubReceive(s, p, from, up))
  {
    var t := DoHubReceive(s, p, from, up);
    if (from, up) in s.net.toHub && p !in s.procs {
      match up
      case CommandAck(command) =>
        AckedRows(s, command, from);
        RowsGrowKeepsCover(s.registry, s.ledger.tables.dispatches, t.ledger.tables.dispatches, EnRoute(s.procs),
          EnRoute(t.procs));
      case NodeEvent(id, draft) =>
        NodeAppendRows(s, id, draft);
        if p in t.procs {
          EnRouteUpdate(s.procs, p, t.procs[p]);
        }
        QueueKeepsDispatch(s, t, []);
    }
  }

  lemma OtherStepKeepsDispatch(s: Sys, l: Label)
    requires DispatchInv(s)
    requires l.Subscribe? || l.SnapshotStep? || l.PumpStep? || l.Leave? || l.NodeReceive? || l.DropUp? || l.DropDown?
          || l.Emit? || l.SendEvent? || l.SendAck?
    ensures DispatchInv(Next(s, l))
  {
    hide CoverInv, SlotInv, EnRoute, Pump, TakeSnapshot, RemoveEvent, Accept, Admits;
  }

  lemma NoSlotsNoDispatch(t: Sys)
    requires t.registry == NO_NODES
    ensures DispatchInv(t)
  {
  }

  lemma StepKeepsDispatch(s: Sys, l: Label)
    requires DispatchInv(s)
    ensures DispatchInv(Next(s, l))
  {
    hide DispatchInv;
    if l.Commit? {
      CommitKeepsDispatch(s, l.p, l.mintEvent);
    } else if l.RouteStep? || l.Abandon? || l.WorkerRouteStep? {
      SettleKeepsDispatch(s, l);
    } else if l.Receive? || l.Decide? || l.WorkerBegin? {
      PlanningKeepsDispatch(s, l);
    } else if l.WorkerCommitTask? || l.WorkerEnrolStep? {
      WorkerKeepsDispatch(s, l);
    } else if l.WorkerCommitRun? {
      WorkerRunKeepsDispatch(s, l.p, l.mintCommand, l.mintRun, l.mintEvent);
    } else if l.TrackWorker? || l.HubRun? || l.HubMessage? || l.HubEvent? || l.CompleteWakeStep? || l.CacheRun? {
      HubKeepsDispatch(s, l);
    } else if l.RegisterNode? || l.UnregisterNode? {
      SlotStepKeepsDispatch(s, l);
    } else if l.ReadPendingStep? {
      ReadPendingKeepsDispatch(s, l.conn);
    } else if l.ReplayStep? {
      ReplayTurnKeepsDispatch(s, l.conn);
    } else if l.HandStep? {
      HandStepKeepsDispatch(s, l.conn);
    } else if l.HubReceive? {
      HubReceiveKeepsDispatch(s, l.p, l.from, l.up);
    } else if l.HubRestart? {
      NoSlotsNoDispatch(Next(s, l));
    } else {
      OtherStepKeepsDispatch(s, l);
    }
  }
}
