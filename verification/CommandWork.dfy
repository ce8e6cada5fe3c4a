// From the command of a client to the event that is logged and the work that is sent: what
// each kind of command asks for is what it gets, whatever comes between its steps.
module CommandWork {
  import opened Wrappers
  import opened Events
  import opened Store
  import opened Ledger
  import opened LiveFeed
  import opened NodeRegistry
  import opened ControlPlane
  import StoreRuns
  import opened DeliveryRuns
  import opened ControlPlaneTheorems

  // ----- what a command asks for ---------------------------------------------------------

  // The ids minted for it, the node its task was last on, and the node picked for it.
  datatype Choices = Choices(task: TaskId, run: RunId, fallback: Option<NodeId>, pick: Option<NodeId>)

  // The node of a message: that of its run, or else that of its task.
  function OwnerIn(runs: map<RunId, RunRow>, toRun: Option<RunId>, fallback: Option<NodeId>): Option<NodeId> {
    if toRun.Some? && toRun.value in runs then Some(runs[toRun.value].nodeId) else fallback
  }

  // What belongs to the hub is left to its supervisor, and a run needs a connected node,
  // the preferred one if there is one.
  ghost predicate Refused(runs: map<RunId, RunRow>, slots: map<NodeId, ConnId>, command: ClientCommand, x: Choices) {
    match command
    case SendUserMessage(_, _, toRun, _) => OwnerIn(runs, toRun, x.fallback) == Some(HUB_NODE)
    case StartRunCommand(_, _, preferred, _) =>
      x.pick.None? || x.pick.value !in slots || (preferred.Some? && preferred != x.pick)
    case InterruptRunCommand(_, run) => run in runs && runs[run].nodeId == HUB_NODE
    case _ => false
  }

  // The event logged for it, and the work sent to a node, if there is any.
  ghost predicate AsksFor(runs: map<RunId, RunRow>, command: ClientCommand, x: Choices, logged: EventDraft,
                          work: Option<(NodeId, NodeWork)>) {
    match command
    case CreateTask(_, title) =>
      work == None && logged == EventDraft(TaskCreated, x.task, None, HUB_NODE, title)
    case SendUserMessage(_, task, toRun, text) =>
      (match OwnerIn(runs, toRun, x.fallback)
       case None => work == None && logged == EventDraft(MessageUser, task, toRun, HUB_NODE, text)
       case Some(node) =>
         && logged == EventDraft(MessageUser, task, toRun, node, text)
         && work == if toRun.None? then None else Some((node, SendPrompt(task, toRun.value, text))))
    case StartRunCommand(_, task, _, config) =>
      && x.pick.Some?
      && logged == EventDraft(RunStarted, task, Some(x.run), x.pick.value, config)
      && work == Some((x.pick.value, StartRun(x.run, task, config)))
    case InterruptRunCommand(_, run) =>
      if run in runs then
        && logged == EventDraft(RunInterrupted, runs[run].taskId, Some(run), runs[run].nodeId, "")
        && work == Some((runs[run].nodeId, InterruptRun(run)))
      else work == None && logged == EventDraft(RunInterrupted, SYSTEM_TASK, Some(run), HUB_NODE, "")
    case ResolveApproval(_, task, run, decision) =>
      work == None && logged == EventDraft(ApprovalResolved, task, Some(run), HUB_NODE, decision)
  }

  // An id that was minted for it is taken already.
  ghost predicate Clashes(t: Tables, command: ClientCommand, x: Choices) {
    (command.CreateTask? && x.task in t.tasks) || (command.StartRunCommand? && x.run in t.runs)
  }

  // ----- deciding ----------------------------------------------------------------------------

  // The plan is what was asked for.
  ghost predicate PlanFits(runs: map<RunId, RunRow>, command: ClientCommand, x: Choices, plan: Plan) {
    && plan.commandId == command.commandId
    && AsksFor(runs, command, x, DraftOf(plan), WorkOf(plan))
    && EntityOf(plan) == EntityFor(command, x, DraftOf(plan))
    && (DispatchOf(plan).Some? ==>
         && DispatchOf(plan).value.1.DispatchCommand?
         && DispatchOf(plan).value.1.commandId == plan.commandId)
  }

  function WorkOf(plan: Plan): Option<(NodeId, NodeWork)> {
    match DispatchOf(plan)
    case Some((node, DispatchCommand(_, work))) => Some((node, work))
    case _ => None
  }

  function EntityFor(command: ClientCommand, x: Choices, logged: EventDraft): EntityWrite {
    match command
    case CreateTask(_, _) => NewTask(x.task, TaskStatus.Open)
    case StartRunCommand(_, task, _, _) => NewRun(x.run, RunRow(task, logged.nodeId, RunStatus.Started))
    case _ => NoEntity
  }

  lemma BindingIsTheRow(s: Sys, run: RunId)
    requires CacheInv(s)
    ensures
      var runs := s.ledger.tables.runs;
      Binding(s, run) == if run in runs then Some((runs[run].nodeId, runs[run].taskId)) else None
  {
  }

  lemma DecideShape(s: Sys, p: ProcId, command: ClientCommand, origin: Origin, x: Choices)
    requires p in s.procs && s.procs[p] == Checked(command, origin)
    ensures
      Next(s, Decide(p, x.task, x.run, x.fallback, x.pick)) ==
      match PlanFor(s, command, x.task, x.run, x.fallback, x.pick)
      case None => s.(procs := s.procs - {p})
      case Some(plan) => s.(procs := s.procs[p := Planned(plan, origin)])
  {
    hide PlanFor;
  }

  lemma PlansFit(s: Sys, command: ClientCommand, x: Choices)
    requires CacheInv(s)
    ensures
      var plan, runs := PlanFor(s, command, x.task, x.run, x.fallback, x.pick), s.ledger.tables.runs;
      if Refused(runs, s.registry.slots, command, x) then plan == None
      else plan.Some? && PlanFits(runs, command, x, plan.value)
  {
    if command.SendUserMessage? && command.toRun.Some? {
      BindingIsTheRow(s, command.toRun.value);
    } else if command.InterruptRunCommand? {
      BindingIsTheRow(s, command.runId);
    }
    hide Binding, CacheInv;
  }

  lemma DecideFits(s: Sys, p: ProcId, command: ClientCommand, origin: Origin, x: Choices)
    requires CacheInv(s) && p in s.procs && s.procs[p] == Checked(command, origin)
    ensures
      var t := Next(s, Decide(p, x.task, x.run, x.fallback, x.pick));
      var runs := s.ledger.tables.runs;
      if Refused(runs, s.registry.slots, command, x) then t == s.(procs := s.procs - {p})
      else
        && p in t.procs && t.procs[p].Planned? && t.procs[p].origin == origin
        && PlanFits(runs, command, x, t.procs[p].plan)
  {
    hide Next, PlanFor, PlanFits, Refused, CacheInv;
    DecideShape(s, p, command, origin, x);
    PlansFit(s, command, x);
  }

  // ----- committing --------------------------------------------------------------------------

  // The rows that the work of a command adds.
  function RowsFor(command: CommandId, work: Option<(NodeId, NodeWork)>): seq<DispatchRow> {
    match work
    case None => []
    case Some((node, w)) => [DispatchRow(command, node, DispatchCommand(command, w), false)]
  }

  lemma NoRowBeforeItsReceipt(t: Tables, command: CommandId)
    requires DispatchesMatchReceipts(t) && command !in t.receipts
    ensures !HasDispatch(t.dispatches, command)
  {
  }

  // The outcomes of one bundle: a replay, an error, or all of it.
  lemma BundleOutcome(t: Tables, command: CommandId, id: EventId, draft: EventDraft, entity: EntityWrite,
                      dispatch: Option<(NodeId, HubToNode)>)
    requires Gapless(t.events) && DispatchesMatchReceipts(t)
    ensures
      var (u, result) := AppendCommandBundle(t, command, id, draft, entity, dispatch);
      if command in t.receipts then
        u == t && result == Ok(Outcome(t.receipts[command].sequence, t.receipts[command].eventId, false))
      else if FindEvent(t.events, id).Some? || !EntityFits(t, entity) then u == t && result == Err
      else
        && result == Ok(Outcome(|t.events| + 1, id, true))
        && u.events == t.events + [Event(|t.events| + 1, id, Some(command), draft)]
        && u.dispatches == t.dispatches +
             (if dispatch.Some? then [DispatchRow(command, dispatch.value.0, dispatch.value.1, false)] else [])
        && u.receipts == t.receipts[command := Receipt(|t.events| + 1, id)]
  {
    GaplessNext(t.events);
    if command !in t.receipts {
      NoRowBeforeItsReceipt(t, command);
    }
    hide HasDispatch;
  }

  // What a commit with a fresh event id does for a command that asks for this.
  ghost predicate Commits(t: Sys, u: Sys, p: ProcId, origin: Origin, command: ClientCommand, x: Choices, id: EventId,
                          logged: EventDraft, work: Option<(NodeId, NodeWork)>) {
    var before, after, c := t.ledger.tables, u.ledger.tables, command.commandId;
    if c in before.receipts then
      && after == before && u.procs == t.procs - {p}
      && u.answers == t.answers + {(c, before.receipts[c].sequence, before.receipts[c].eventId)}
    else if Clashes(before, command, x) then after == before && u.procs == t.procs - {p} && u.answers == t.answers
    else
      && after.events == before.events + [Event(|before.events| + 1, id, Some(c), logged)]
      && after.dispatches == before.dispatches + RowsFor(c, work)
      && after.receipts == before.receipts[c := Receipt(|before.events| + 1, id)]
      && u.answers == t.answers + {(c, |before.events| + 1, id)}
      && u.procs == (if work.None? then t.procs - {p}
                     else t.procs[p := Routing(work.value.0, DispatchCommand(c, work.value.1), origin)])
  }

  // The step, whatever the store answers.
  lemma CommitShape(t: Sys, p: ProcId, id: EventId)
    requires p in t.procs && t.procs[p].Planned? && FreshEvent(t, id)
    ensures
      var u, plan := Next(t, Commit(p, id)), t.procs[p].plan;
      var (tables, result) := AppendCommandBundle(t.ledger.tables, plan.commandId, id, DraftOf(plan), EntityOf(plan),
                                                  DispatchOf(plan));
      && u.ledger.tables == tables
      && u.answers == (if result.Err? then t.answers
                       else t.answers + {(plan.commandId, result.value.sequence, result.value.eventId)})
      && u.procs == (if result.Err? || !result.value.created || DispatchOf(plan).None? then t.procs - {p}
                     else t.procs[p := Routing(DispatchOf(plan).value.0, DispatchOf(plan).value.1, t.procs[p].origin)])
  {
    hide AppendCommandBundle, DraftOf, EntityOf, DispatchOf, FreshEvent, Marked;
  }

  lemma CommitDoes(t: Sys, p: ProcId, origin: Origin, runs: map<RunId, RunRow>, command: ClientCommand, x: Choices,
                   id: EventId)
    requires Gapless(t.ledger.tables.events) && DispatchesMatchReceipts(t.ledger.tables) && FreshEvent(t, id)
    requires p in t.procs && t.procs[p].Planned? && t.procs[p].origin == origin
    requires PlanFits(runs, command, x, t.procs[p].plan)
    ensures
      var plan := t.procs[p].plan;
      && AsksFor(runs, command, x, DraftOf(plan), WorkOf(plan))
      && Commits(t, Next(t, Commit(p, id)), p, origin, command, x, id, DraftOf(plan), WorkOf(plan))
  {
    hide AppendCommandBundle, AsksFor, Gapless, DispatchesMatchReceipts, DraftOf, EntityOf, DispatchOf, Next;
    var plan := t.procs[p].plan;
    CommitShape(t, p, id);
    BundleOutcome(t.ledger.tables, plan.commandId, id, DraftOf(plan), EntityOf(plan), DispatchOf(plan));
  }

  // ----- in between ------------------------------------------------------------------------------

  // Steps that neither take this process on nor end the hub.
  ghost predicate LeavesAlone(labels: seq<Label>, p: ProcId) {
    forall i :: 0 <= i < |labels| ==>
      !labels[i].HubRestart? && !(labels[i].Decide? && labels[i].p == p) && !(labels[i].Commit? && labels[i].p == p)
  }

  lemma CommandStepLeaves(s: Sys, p: ProcId, l: Label)
    requires p in s.procs && (s.procs[p].Checked? || s.procs[p].Planned?)
    requires CommandStep(l) && !(l.Decide? && l.p == p)
    ensures p in Next(s, l).procs && Next(s, l).procs[p] == s.procs[p]
  {
    hide Perform, PlanFor, Route, Skip, FreshEvent, DoCommit, DoWorkerEnrol, DoWorkerCommitRun, DoHubReceive;
  }

  lemma HubStepLeaves(s: Sys, p: ProcId, l: Label)
    requires p in s.procs && (s.procs[p].Checked? || s.procs[p].Planned?)
    requires l.WorkerEnrolStep? || l.WorkerCommitRun? || l.HubReceive? || (l.Commit? && l.p != p)
    ensures p in Next(s, l).procs && Next(s, l).procs[p] == s.procs[p]
  {
    hide Perform, FreshEvent, Admits;
  }

  lemma ProcessStays(s: Sys, p: ProcId, l: Label)
    requires p in s.procs && (s.procs[p].Checked? || s.procs[p].Planned?)
    requires !l.HubRestart? && !(l.Decide? && l.p == p) && !(l.Commit? && l.p == p)
    ensures p in Next(s, l).procs && Next(s, l).procs[p] == s.procs[p]
  {
    hide Next;
    if !ProcessStep(l) {
      OtherStepKeepsProcesses(s, l);
    } else if CommandStep(l) {
      CommandStepLeaves(s, p, l);
    } else {
      HubStepLeaves(s, p, l);
    }
  }

  lemma {:induction false} ProcessStaysOver(labels: seq<Label>, more: seq<Label>, p: ProcId)
    requires p in Run(labels).procs && (Run(labels).procs[p].Checked? || Run(labels).procs[p].Planned?)
    requires LeavesAlone(more, p)
    ensures p in Run(labels + more).procs && Run(labels + more).procs[p] == Run(labels).procs[p]
  {
    hide Run, Next;
    if more == [] {
      assert labels + more == labels;
    } else {
      var init, last := more[..|more| - 1], more[|more| - 1];
      ProcessStaysOver(labels, init, p);
      assert labels + more == labels + init + [last];
      RunExtends(labels + init, last);
      ProcessStays(Run(labels + init), p, last);
    }
  }

  // ----- over every run ------------------------------------------------------------------------------

  // In any run, however its steps are interleaved with others: a command is refused as it
  // must be, or its commit logs the event and queues the work that it asks for, and nothing
  // else, unless it had been committed before or an id minted for it is taken. The client is
  // answered with the event's sequence and id.
  lemma CommandsDoWhatTheyAsk(a: seq<Label>, b: seq<Label>, c: seq<Label>, p: ProcId, command: ClientCommand,
                              origin: Origin, x: Choices, id: EventId)
    requires p !in Run(a).procs && command.commandId !in Run(a).ledger.tables.receipts
    requires LeavesAlone(b, p) && LeavesAlone(c, p)
    ensures
      var received := a + [Receive(p, command, origin)] + b;
      var decided := received + [Decide(p, x.task, x.run, x.fallback, x.pick)];
      var s, t := Run(received), Run(decided + c);
      if Refused(s.ledger.tables.runs, s.registry.slots, command, x) then
        Run(decided) == s.(procs := s.procs - {p})
      else FreshEvent(t, id) ==>
        exists logged, work :: AsksFor(s.ledger.tables.runs, command, x, logged, work)
          && Commits(t, Run(decided + c + [Commit(p, id)]), p, origin, command, x, id, logged, work)
  {
    hide Run, AsksFor, Commits, FreshEvent, Refused;
    hide CacheInv, MessageInv, EventInv, EngineInv, UniqueIds, ReceiptsMatchLog, StatusIsReplay, WakesAreDue, FeedInv;
    var received := a + [Receive(p, command, origin)] + b;
    var decide := Decide(p, x.task, x.run, x.fallback, x.pick);
    var decided := received + [decide];
    var s := Run(received);
    RunExtends(a, Receive(p, command, origin));
    ProcessStaysOver(a + [Receive(p, command, origin)], b, p);
    ReachableNet(received);
    DecideFits(s, p, command, origin, x);
    RunExtends(received, decide);
    if !Refused(s.ledger.tables.runs, s.registry.slots, command, x) && FreshEvent(Run(decided + c), id) {
      ProcessStaysOver(decided, c, p);
      ReachableStore(decided + c);
      CommitDoes(Run(decided + c), p, origin, s.ledger.tables.runs, command, x, id);
      RunExtends(decided + c, Commit(p, id));
    }
  }

  // A command that was committed before is answered at once with what it was answered then,
  // and nothing else happens.
  lemma RepeatsAreAnswered(labels: seq<Label>, p: ProcId, command: ClientCommand, origin: Origin)
    requires p !in Run(labels).procs && command.commandId in Run(labels).ledger.tables.receipts
    ensures
      var s := Run(labels);
      var r := s.ledger.tables.receipts[command.commandId];
      && Run(labels + [Receive(p, command, origin)])
           == s.(answers := s.answers + {(command.commandId, r.sequence, r.eventId)})
      && 1 <= r.sequence <= |s.ledger.tables.events|
      && s.ledger.tables.events[r.sequence - 1].commandId == Some(command.commandId)
      && s.ledger.tables.events[r.sequence - 1].eventId == r.eventId
  {
    hide Run, Gapless, UniqueIds, StatusIsReplay, WakesAreDue, DispatchesMatchReceipts, FeedInv, Next;
    RunExtends(labels, Receive(p, command, origin));
    ReachableStore(labels);
    Repeated(Run(labels), p, command, origin);
  }

  lemma Repeated(s: Sys, p: ProcId, command: ClientCommand, origin: Origin)
    requires p !in s.procs && command.commandId in s.ledger.tables.receipts
    ensures
      var r := s.ledger.tables.receipts[command.commandId];
      Next(s, Receive(p, command, origin)) == s.(answers := s.answers + {(command.commandId, r.sequence, r.eventId)})
  {
  }

  // ----- what is sent is what is logged -------------------------------------------------------------

  // The row of an event: its work, for its node.
  ghost predicate RowFits(d: EventDraft, row: DispatchRow) {
    && row.nodeId == d.nodeId && d.runId.Some?
    && row.message.DispatchCommand? && row.message.commandId == row.commandId
    && match d.kind
       case RunStarted => row.message.work == StartRun(d.runId.value, d.taskId, d.payload)
       case MessageUser => row.message.work == SendPrompt(d.taskId, d.runId.value, d.payload)
       case RunInterrupted => row.message.work == InterruptRun(d.runId.value)
       case _ => false
  }

  ghost predicate ToldBy(log: seq<Event>, row: DispatchRow, k: nat) {
    k < |log| && log[k].commandId == Some(row.commandId) && RowFits(log[k].draft, row)
  }

  ghost predicate Told(log: seq<Event>, row: DispatchRow) {
    exists k: nat :: ToldBy(log, row, k)
  }

  ghost predicate AllTold(t: Tables) {
    forall i :: 0 <= i < |t.dispatches| ==> Told(t.events, t.dispatches[i])
  }

  lemma QueuedIsTold(log: seq<Event>, plan: Plan, e: Event, row: DispatchRow)
    requires e.commandId == Some(plan.commandId) && e.draft == DraftOf(plan) && row in QueuedBy(plan)
    ensures Told(log + [e], row)
  {
    assert ToldBy(log + [e], row, |log|);
  }

  lemma ToldStill(log: seq<Event>, log': seq<Event>, row: DispatchRow, row': DispatchRow)
    requires Told(log, row) && log <= log' && (row' == row || row' == row.(acked := true))
    ensures Told(log', row')
  {
    var k: nat :| ToldBy(log, row, k);
    assert log'[k] == log[k] && ToldBy(log', row', k);
  }

  lemma OldRowsAreTold(t: Tables, t': Tables)
    requires AllTold(t) && Grows(t, t')
    ensures forall i :: 0 <= i < |t.dispatches| ==> Told(t'.events, t'.dispatches[i])
  {
    hide Told;
    forall i | 0 <= i < |t.dispatches|
      ensures Told(t'.events, t'.dispatches[i])
    {
      ToldStill(t.events, t'.events, t.dispatches[i], t'.dispatches[i]);
    }
  }

  lemma OpKeepsTold(l: Ledger, op: HubOp)
    requires AllTold(l.tables) && Gapless(l.tables.events)
    ensures AllTold(Perform(l, op).0.tables)
  {
    hide Told, Grows;
    var t, t' := l.tables, Perform(l, op).0.tables;
    PerformGrows(l, op);
    OldRowsAreTold(t, t');
    RowsAdded(l, op);
    hide Perform, QueuedBy, DraftOf;
    if op.Command? && Created(l, op) {
      var e := Event(|t.events| + 1, op.freshId, Some(op.plan.commandId), DraftOf(op.plan));
      forall i | |t.dispatches| <= i < |t'.dispatches|
        ensures Told(t'.events, t'.dispatches[i])
      {
        assert t'.dispatches[i] == QueuedBy(op.plan)[i - |t.dispatches|];
        QueuedIsTold(t.events, op.plan, e, t'.dispatches[i]);
      }
    }
  }

  // Only a new command adds a row.
  lemma RowsAdded(l: Ledger, op: HubOp)
    requires Gapless(l.tables.events)
    ensures
      var t, t' := l.tables, Perform(l, op).0.tables;
      if op.Command? && Created(l, op) then
        && t'.dispatches == t.dispatches + QueuedBy(op.plan)
        && t'.events == t.events + [Event(|t.events| + 1, op.freshId, Some(op.plan.commandId), DraftOf(op.plan))]
      else |t'.dispatches| == |t.dispatches|
  {
    GaplessNext(l.tables.events);
    match op
    case Command(plan, id) =>
      if Created(l, op) {
        CommandEffect(l.tables, plan, id);
      } else {
        NotCreatedIsNoOp(l, plan, id);
      }
    case _ =>
  }

  lemma StepKeepsTold(s: Sys, l: Label)
    requires StoreRuns.StoreInv(s) && AllTold(s.ledger.tables)
    ensures AllTold(Next(s, l).ledger.tables)
  {
    hide AllTold, Perform, Next, StoreRuns.StoreInv, StoreRuns.DidOp;
    if StoreRuns.ClientLabel(l) {
      StoreRuns.ClientStepKeepsStore(s, l);
    } else if l.HubRestart? {
      RestartKeepsTables(s);
    } else {
      StoreRuns.StepIsOneOp(s, l);
      if op :| StoreRuns.Fits(s, l, Next(s, l), op) {
        StoreRuns.LogPart(s);
        StoreRuns.DidOpLedger(s, Next(s, l), op);
        OpKeepsTold(s.ledger, op);
      }
    }
  }

  lemma RestartKeepsTables(s: Sys)
    ensures Next(s, HubRestart).ledger == s.ledger
  {
  }

  lemma {:induction false} EveryRowIsTold(labels: seq<Label>)
    ensures AllTold(Run(labels).ledger.tables)
  {
    if labels != [] {
      hide AllTold, Next;
      EveryRowIsTold(labels[..|labels| - 1]);
      ReachableStore(labels[..|labels| - 1]);
      StepKeepsTold(Run(labels[..|labels| - 1]), labels[|labels| - 1]);
    }
  }

  // In any run: whatever an engine acts on is the work of one event in the log, logged for
  // its node under the command id of the work.
  lemma EffectsAreLogged(labels: seq<Label>, n: NodeId, i: nat) returns (k: nat)
    requires i < |NodeAt(Run(labels).net, n).effects|
    ensures
      var log, m := Run(labels).ledger.tables.events, NodeAt(Run(labels).net, n).effects[i];
      && k < |log| && m.DispatchCommand? && log[k].commandId == Some(m.commandId) && log[k].draft.nodeId == n
      && RowFits(log[k].draft, DispatchRow(m.commandId, n, m, false))
      && forall j :: 0 <= j < |log| && log[j].commandId == Some(m.commandId) ==> j == k
  {
    hide Run, NetInv;
    WorkHasOneEffect(labels, n);
    EveryRowIsTold(labels);
    LogReceiptsAndAnswers(labels);
    var rows, m := Run(labels).ledger.tables.dispatches, NodeAt(Run(labels).net, n).effects[i];
    var r :| 0 <= r < |rows| && rows[r].nodeId == n && rows[r].message == m;
    assert Told(Run(labels).ledger.tables.events, rows[r]);
    k :| ToldBy(Run(labels).ledger.tables.events, rows[r], k);
  }
}
