// Workers created for an assistant channel are registered before any terminal
// event of their run can be logged, and every receipt a client was ever given
// stays true.
module WorkerRuns {
  import opened Wrappers
  import opened Events
  import opened Store
  import opened Ledger
  import opened LiveFeed
  import opened NodeRegistry
  import opened ControlPlane
  import opened DispatchRuns
  import opened DeliveryRuns
  import opened DeliverySteps
  import opened NodeSteps

  ghost predicate WorkerRows(t: Tables, workerRuns: map<RunId, TaskId>) {
    forall r :: r in workerRuns ==>
      r in t.runs && t.runs[r].taskId == workerRuns[r] && workerRuns[r] in t.workers
  }

  ghost predicate Enrolled(t: Tables, procs: map<ProcId, Proc>) {
    forall p :: p in procs && procs[p].WorkerStart? && procs[p].channel.Some? ==> procs[p].task in t.workers
  }

  predicate WakeKind(d: EventDraft) {
    d.kind.RunCompleted? || d.kind.RunFailed?
  }

  // The end of a worker's run, reported by its node, found the worker registered.
  ghost predicate MarksHold(l: Ledger, emitted: map<EventId, (NodeId, EventDraft)>, workerRuns: map<RunId, TaskId>) {
    && |l.marks| == |l.tables.events|
    && forall i :: 0 <= i < |l.tables.events| && WorkerEnd(l.tables.events[i], emitted, workerRuns) ==> l.marks[i].Some?
  }

  ghost predicate WorkerEnd(e: Event, emitted: map<EventId, (NodeId, EventDraft)>, workerRuns: map<RunId, TaskId>) {
    e.eventId in emitted && WakeKind(e.draft) && e.draft.runId.Some? && e.draft.runId.value in workerRuns
  }

  ghost predicate AnswersHold(t: Tables, answers: set<(CommandId, nat, EventId)>) {
    forall a :: a in answers ==> a.0 in t.receipts && t.receipts[a.0] == Receipt(a.1, a.2)
  }

  ghost predicate WorkerInv(s: Sys) {
    && WorkerRows(s.ledger.tables, s.workerRuns)
    && Enrolled(s.ledger.tables, s.procs)
    && MarksHold(s.ledger, s.net.emitted, s.workerRuns)
    && AnswersHold(s.ledger.tables, s.answers)
  }

  // ----- growing tables ------------------------------------------------------------

  lemma PerformMarks(l: Ledger, op: HubOp)
    requires |l.marks| == |l.tables.events|
    ensures var l' := Perform(l, op).0;
      l.marks <= l'.marks && |l'.marks| == |l'.tables.events|
  {
  }

  lemma RowsGrow(t: Tables, t': Tables, workerRuns: map<RunId, TaskId>, procs: map<ProcId, Proc>,
                 answers: set<(CommandId, nat, EventId)>)
    requires Grows(t, t')
    ensures WorkerRows(t, workerRuns) ==> WorkerRows(t', workerRuns)
    ensures Enrolled(t, procs) ==> Enrolled(t', procs)
    ensures AnswersHold(t, answers) ==> AnswersHold(t', answers)
  {
  }

  // Events that no node emitted need no mark.
  lemma FreshOpKeepsMarks(s: Sys, op: HubOp)
    requires MarksHold(s.ledger, s.net.emitted, s.workerRuns) && FreshOp(s, op)
    ensures MarksHold(Durable(s, op).0.ledger, s.net.emitted, s.workerRuns)
  {
    var l, l' := s.ledger, Durable(s, op).0.ledger;
    PerformMarks(l, op);
    PerformGrows(l, op);
    FreshOpEvents(s, op);
    assert forall i :: 0 <= i < |l.marks| ==> l'.marks[i] == l.marks[i] && l'.tables.events[i] == l.tables.events[i];
  }

  lemma FreshOpKeepsWorkers(s: Sys, t: Sys, op: HubOp)
    requires WorkerInv(s) && FreshOp(s, op)
    requires t.ledger == Durable(s, op).0.ledger && t.net == s.net && t.workerRuns == s.workerRuns
    requires Enrolled(t.ledger.tables, s.procs) ==> Enrolled(t.ledger.tables, t.procs)
    requires AnswersHold(t.ledger.tables, s.answers) ==> AnswersHold(t.ledger.tables, t.answers)
    ensures WorkerInv(t)
  {
    PerformGrows(s.ledger, op);
    RowsGrow(s.ledger.tables, t.ledger.tables, s.workerRuns, s.procs, s.answers);
    FreshOpKeepsMarks(s, op);
  }

  // ----- steps ---------------------------------------------------------------------------

  // A successful command leaves its receipt.
  lemma CommandAnswers(s: Sys, plan: Plan, id: EventId)
    ensures
      var (t, result) := Durable(s, Command(plan, id));
      result.Ok? ==>
        && plan.commandId in t.ledger.tables.receipts
        && t.ledger.tables.receipts[plan.commandId] == Receipt(result.value.sequence, result.value.eventId)
  {
  }

  lemma CommitKeepsWorkers(s: Sys, p: ProcId, id: EventId)
    requires WorkerInv(s)
    ensures WorkerInv(DoCommit(s, p, id))
  {
    hide Perform, WorkerInv;
    var t := DoCommit(s, p, id);
    if p in s.procs && s.procs[p].Planned? && FreshEvent(s, id) {
      CommandAnswers(s, s.procs[p].plan, id);
      FreshOpKeepsWorkers(s, t, Command(s.procs[p].plan, id));
    }
  }

  lemma WorkerTaskKeepsWorkers(s: Sys, p: ProcId, command: CommandId, task: TaskId, id: EventId)
    requires WorkerInv(s)
    ensures WorkerInv(DoWorkerCommitTask(s, p, command, task, id))
  {
    var t := DoWorkerCommitTask(s, p, command, task, id);
    if t != s {
      FreshOpKeepsWorkers(s, t, Command(PlanTask(command, task, ""), id));
    }
  }

  lemma WorkerEnrolKeepsWorkers(s: Sys, p: ProcId)
    requires WorkerInv(s)
    ensures WorkerInv(DoWorkerEnrol(s, p))
  {
    var t := DoWorkerEnrol(s, p);
    if p in s.procs && s.procs[p].WorkerEnrol? && s.procs[p].channel.Some? {
      FreshOpKeepsWorkers(s, t, Enrol(s.procs[p].channel.value, s.procs[p].task));
    }
  }

  // The run row appears in the same transaction as the run itself, so no event of
  // this run can have been admitted before.
  lemma NewRunNeedsNoMarks(s: Sys, run: RunId, task: TaskId)
    requires MarksHold(s.ledger, s.net.emitted, s.workerRuns) && LogAdmitted(s.ledger.tables, s.net)
    requires run !in s.ledger.tables.runs
    ensures MarksHold(s.ledger, s.net.emitted, s.workerRuns[run := task])
  {
    forall i | 0 <= i < |s.ledger.tables.events| &&
      WorkerEnd(s.ledger.tables.events[i], s.net.emitted, s.workerRuns[run := task])
      ensures s.ledger.marks[i].Some?
    {
      assert Bound(s.ledger.tables, s.net.emitted[s.ledger.tables.events[i].eventId].0,
        s.ledger.tables.events[i].draft);
      assert WorkerEnd(s.ledger.tables.events[i], s.net.emitted, s.workerRuns);
    }
  }

  lemma RecordRow(t: Tables, t': Tables, workerRuns: map<RunId, TaskId>, run: RunId, task: TaskId)
    requires WorkerRows(t, workerRuns) && Grows(t, t')
    requires run in t'.runs && t'.runs[run].taskId == task && task in t.workers
    ensures WorkerRows(t', workerRuns[run := task])
  {
  }

  // A worker's run is recorded in the step that creates its row.
  lemma RecordRunKeepsWorkers(s: Sys, plan: Plan, id: EventId)
    requires MarksHold(s.ledger, s.net.emitted, s.workerRuns) && WorkerRows(s.ledger.tables, s.workerRuns)
    requires LogAdmitted(s.ledger.tables, s.net)
    requires plan.PlanRun? && FreshEvent(s, id) && plan.taskId in s.ledger.tables.workers
    requires Durable(s, Command(plan, id)).1.Ok? && Durable(s, Command(plan, id)).1.value.created
    ensures
      var l := Durable(s, Command(plan, id)).0.ledger;
      && MarksHold(l, s.net.emitted, s.workerRuns[plan.runId := plan.taskId])
      && WorkerRows(l.tables, s.workerRuns[plan.runId := plan.taskId])
  {
    var t, t' := s.ledger.tables, Durable(s, Command(plan, id)).0.ledger.tables;
    CreatedCommand(s, plan, id);
    assert WorkerRows(t', s.workerRuns[plan.runId := plan.taskId]) by {
      PerformGrows(s.ledger, Command(plan, id));
      RecordRow(t, t', s.workerRuns, plan.runId, plan.taskId);
    }
    NewRunNeedsNoMarks(s, plan.runId, plan.taskId);
    FreshOpKeepsMarks(s.(workerRuns := s.workerRuns[plan.runId := plan.taskId]), Command(plan, id));
  }

  lemma WorkerRunKeepsWorkers(s: Sys, p: ProcId, command: CommandId, run: RunId, id: EventId)
    requires WorkerInv(s) && LogAdmitted(s.ledger.tables, s.net)
    ensures WorkerInv(DoWorkerCommitRun(s, p, command, run, id))
  {
    hide Perform;
    var t := DoWorkerCommitRun(s, p, command, run, id);
    if p in s.procs && s.procs[p].WorkerStart? && FreshEvent(s, id) && command !in s.ledger.tables.receipts {
      var w := s.procs[p];
      var plan := PlanRun(command, run, w.task, w.node, "", true);
      FreshOpKeepsWorkers(s, t.(workerRuns := s.workerRuns), Command(plan, id));
      if t.workerRuns != s.workerRuns {
        NewCommandIsCreated(s, plan, id);
        RecordRunKeepsWorkers(s, plan, id);
      }
    }
  }

  lemma AdmitKeepsMarks(s: Sys, from: NodeId, id: EventId, draft: EventDraft)
    requires LedgerInv(s.ledger) && WorkerRows(s.ledger.tables, s.workerRuns)
    requires MarksHold(s.ledger, s.net.emitted, s.workerRuns) && Bound(s.ledger.tables, from, draft)
    ensures MarksHold(Durable(s, NodeAppend(id, draft)).0.ledger, s.net.emitted, s.workerRuns)
  {
    var l, l' := s.ledger, Durable(s, NodeAppend(id, draft)).0.ledger;
    PerformMarks(l, NodeAppend(id, draft));
    AdmittedTables(s, id, draft);
    assert forall i :: 0 <= i < |l.marks| ==> l'.marks[i] == l.marks[i];
    if |l'.marks| > |l.marks| {
      assert l'.marks == l.marks + [Registration(l.tables.workers, draft.taskId)];
    }
  }

  lemma AckKeepsWorkers(s: Sys, command: CommandId, from: NodeId)
    requires WorkerInv(s)
    ensures WorkerInv(Durable(s, Acknowledge(command, from)).0)
  {
    PerformGrows(s.ledger, Acknowledge(command, from));
    RowsGrow(s.ledger.tables, Durable(s, Acknowledge(command, from)).0.ledger.tables, s.workerRuns, s.procs, s.answers);
  }

  lemma AdmitKeepsWorkers(s: Sys, from: NodeId, id: EventId, draft: EventDraft)
    requires LedgerInv(s.ledger) && CacheInv(s) && WorkerInv(s) && Admits(s, from, draft)
    ensures WorkerInv(Durable(s, NodeAppend(id, draft)).0)
  {
    AdmitsIsBound(s, from, draft);
    AdmitKeepsMarks(s, from, id, draft);
    NodeAppendGrows(s.ledger.tables, id, draft);
    RowsGrow(s.ledger.tables, AppendNodeEvent(s.ledger.tables, id, draft).0, s.workerRuns, s.procs, s.answers);
  }

  lemma HubReceiveKeepsWorkers(s: Sys, p: ProcId, from: NodeId, up: NodeToHub)
    requires LedgerInv(s.ledger) && CacheInv(s) && WorkerInv(s)
    ensures WorkerInv(DoHubReceive(s, p, from, up))
  {
    if (from, up) in s.net.toHub && p !in s.procs {
      match up
      case CommandAck(command) => AckKeepsWorkers(s, command, from);
      case NodeEvent(id, draft) =>
        if Admits(s, from, draft) {
          AdmitKeepsWorkers(s, from, id, draft);
        }
    }
  }

  lemma EmitKeepsWorkers(s: Sys, n: NodeId, id: EventId, draft: EventDraft)
    requires WorkerInv(s)
    ensures WorkerInv(DoEmit(s, n, id, draft))
  {
  }

  lemma HubCommandKeepsWorkers(s: Sys, plan: Plan, id: EventId)
    requires WorkerInv(s)
    ensures WorkerInv(DoHubCommand(s, plan, id))
  {
    if DoHubCommand(s, plan, id) != s {
      FreshOpKeepsWorkers(s, DoHubCommand(s, plan, id), Command(plan, id));
    }
  }

  lemma HubKeepsWorkers(s: Sys, l: Label)
    requires WorkerInv(s)
    requires l.TrackWorker? || l.HubRun? || l.HubMessage? || l.HubEvent? || l.CompleteWakeStep?
    ensures WorkerInv(Next(s, l))
  {
    hide Perform, WorkerInv;
    match l
    case TrackWorker(channel, task, run) =>
      FreshOpKeepsWorkers(s, Durable(s, Enrol(channel, task)).0, Enrol(channel, task));
    case HubRun(command, run, task, id) =>
      HubCommandKeepsWorkers(s, PlanRun(command, run, task, HUB_NODE, "", false), id);
    case HubMessage(command, task, run, id, text) =>
      HubCommandKeepsWorkers(s, PlanMessage(command, task, Some(run), None, text), id);
    case HubEvent(id, draft) =>
      if DoHubEvent(s, id, draft) != s {
        FreshOpKeepsWorkers(s, Durable(s, NodeAppend(id, draft)).0, NodeAppend(id, draft));
      }
    case CompleteWakeStep(wake) => FreshOpKeepsWorkers(s, Durable(s, FinishWake(wake)).0, FinishWake(wake));
  }

  ghost predicate Special(l: Label) {
    || l.Commit? || l.WorkerCommitTask? || l.WorkerEnrolStep? || l.WorkerCommitRun? || l.HubReceive? || l.Emit?
    || l.TrackWorker? || l.HubRun? || l.HubMessage? || l.HubEvent? || l.CompleteWakeStep?
  }

  // What the remaining steps leave alone: the tables, what nodes have emitted, and
  // the workers on their way.
  ghost predicate Idle(s: Sys, t: Sys) {
    && t.ledger == s.ledger && t.net.emitted == s.net.emitted && t.workerRuns == s.workerRuns
    && (Enrolled(s.ledger.tables, s.procs) ==> Enrolled(s.ledger.tables, t.procs))
    && (AnswersHold(s.ledger.tables, s.answers) ==> AnswersHold(s.ledger.tables, t.answers))
  }

  lemma PlanningIsIdle(s: Sys, l: Label)
    requires l.Receive? || l.Decide? || l.WorkerBegin? || l.HubRestart?
    ensures Idle(s, Next(s, l))
  {
    hide PlanFor, DoReceive, AnswersHold;
    if l.Receive? {
      ReceiveIsIdle(s, l.p, l.command, l.origin);
    } else {
      assert Next(s, l).answers == s.answers;
    }
  }

  lemma ReceiveIsIdle(s: Sys, p: ProcId, command: ClientCommand, origin: Origin)
    ensures Idle(s, DoReceive(s, p, command, origin))
  {
  }

  lemma RoutingIsIdle(s: Sys, l: Label)
    requires l.RouteStep? || l.Abandon? || l.WorkerRouteStep?
    ensures Idle(s, Next(s, l))
  {
    hide Route, Skip, AnswersHold;
    assert Next(s, l).answers == s.answers;
  }

  lemma SlotStepIsIdle(s: Sys, l: Label)
    requires l.RegisterNode? || l.ReadPendingStep? || l.ReplayStep? || l.UnregisterNode? || l.HandStep?
    ensures Idle(s, Next(s, l))
  {
    hide Register, Unregister, ReplayTurn, ReadPending, Hand, Enrolled, AnswersHold;
    assert Next(s, l).procs == s.procs && Next(s, l).answers == s.answers;
  }

  lemma NodeReceiveIsIdle(s: Sys, n: NodeId, down: HubToNode)
    ensures Idle(s, DoNodeReceive(s, n, down))
  {
    hide RemoveEvent, Accept, NodeAt, Enrolled, AnswersHold;
    var t := DoNodeReceive(s, n, down);
    assert t.procs == s.procs && t.answers == s.answers;
  }

  lemma FrameStepIsIdle(s: Sys, l: Label)
    requires l.DropUp? || l.DropDown? || l.SendEvent? || l.SendAck?
    ensures Idle(s, Next(s, l))
  {
    hide NodeAt, Enrolled, AnswersHold;
    assert Next(s, l).procs == s.procs && Next(s, l).answers == s.answers;
  }

  lemma ClientStepIsIdle(s: Sys, l: Label)
    requires l.Subscribe? || l.SnapshotStep? || l.PumpStep? || l.Leave? || l.CacheRun?
    ensures Idle(s, Next(s, l))
  {
    hide Pump, TakeSnapshot, Join, Binding, Enrolled, AnswersHold;
    assert Next(s, l).procs == s.procs && Next(s, l).answers == s.answers;
  }

  lemma IdleStep(s: Sys, l: Label)
    requires !Special(l)
    ensures Idle(s, Next(s, l))
  {
    hide Idle;
    if l.Receive? || l.Decide? || l.WorkerBegin? || l.HubRestart? {
      PlanningIsIdle(s, l);
    } else if l.RouteStep? || l.Abandon? || l.WorkerRouteStep? {
      RoutingIsIdle(s, l);
    } else if l.RegisterNode? || l.ReadPendingStep? || l.ReplayStep? || l.UnregisterNode? || l.HandStep? {
      SlotStepIsIdle(s, l);
    } else if l.NodeReceive? {
      NodeReceiveIsIdle(s, l.node, l.down);
    } else if l.DropUp? || l.DropDown? || l.SendEvent? || l.SendAck? {
      FrameStepIsIdle(s, l);
    } else {
      ClientStepIsIdle(s, l);
    }
  }

  lemma StepKeepsWorkers(s: Sys, l: Label)
    requires LedgerInv(s.ledger) && NetInv(s) && WorkerInv(s)
    ensures WorkerInv(Next(s, l))
  {
    hide LedgerInv;
    if !Special(l) {
      IdleStep(s, l);
    } else {
      SpecialStepKeepsWorkers(s, l);
    }
  }

  lemma SpecialStepKeepsWorkers(s: Sys, l: Label)
    requires LedgerInv(s.ledger) && CacheInv(s) && LogAdmitted(s.ledger.tables, s.net) && WorkerInv(s) && Special(l)
    ensures WorkerInv(Next(s, l))
  {
    hide WorkerInv, CacheInv, LogAdmitted;
    if l.Commit? {
      CommitKeepsWorkers(s, l.p, l.mintEvent);
    } else if l.WorkerCommitTask? || l.WorkerEnrolStep? || l.WorkerCommitRun? {
      WorkerStepKeepsWorkers(s, l);
    } else if l.HubReceive? {
      HubReceiveKeepsWorkers(s, l.p, l.from, l.up);
    } else if l.Emit? {
      EmitKeepsWorkers(s, l.node, l.mintEvent, l.draft);
    } else {
      HubKeepsWorkers(s, l);
    }
  }

  lemma WorkerStepKeepsWorkers(s: Sys, l: Label)
    requires LedgerInv(s.ledger) && CacheInv(s) && LogAdmitted(s.ledger.tables, s.net) && WorkerInv(s)
    requires l.WorkerCommitTask? || l.WorkerEnrolStep? || l.WorkerCommitRun?
    ensures WorkerInv(Next(s, l))
  {
    hide WorkerInv, CacheInv, LogAdmitted;
    if l.WorkerCommitTask? {
      WorkerTaskKeepsWorkers(s, l.p, l.mintCommand, l.mintTask, l.mintEvent);
    } else if l.WorkerEnrolStep? {
      WorkerEnrolKeepsWorkers(s, l.p);
    } else {
      WorkerRunKeepsWorkers(s, l.p, l.mintCommand, l.mintRun, l.mintEvent);
    }
  }
}
