// The durable work that the hub does on its own: workers for a channel, and what it logs
// itself.
module HubWork {
  import opened Wrappers
  import opened Events
  import opened Store
  import opened Ledger
  import LiveFeed
  import opened NodeRegistry
  import DeliveryRuns
  import NodeSteps
  import opened ControlPlane
  import opened ControlPlaneTheorems
  import opened CommandWork

  // A command whose ids are all free is logged, with its row and its entity.
  lemma NewBundle(t: Tables, command: CommandId, id: EventId, draft: EventDraft, entity: EntityWrite,
                  dispatch: Option<(NodeId, HubToNode)>)
    requires Gapless(t.events) && DispatchesMatchReceipts(t)
    requires command !in t.receipts && FindEvent(t.events, id).None? && EntityFits(t, entity)
    ensures
      var (u, result) := AppendCommandBundle(t, command, id, draft, entity, dispatch);
      && result == Ok(Outcome(|t.events| + 1, id, true))
      && u == WriteEntity(t, entity).(
           events := t.events + [Event(|t.events| + 1, id, Some(command), draft)],
           receipts := t.receipts[command := Receipt(|t.events| + 1, id)],
           dispatches := t.dispatches +
             if dispatch.Some? then [DispatchRow(command, dispatch.value.0, dispatch.value.1, false)] else [])
  {
    hide HasDispatch, NextSequence;
    GaplessNext(t.events);
    NoRowBeforeItsReceipt(t, command);
  }

  ghost predicate Sorted(s: Sys) {
    Gapless(s.ledger.tables.events) && DispatchesMatchReceipts(s.ledger.tables)
  }

  lemma IsSorted(labels: seq<Label>)
    ensures Sorted(Run(labels))
  {
    ReachableStore(labels);
  }

  // ----- create_worker_task --------------------------------------------------------------------

  // Ids that are free: one command, task and event, another command, run and event, and a
  // third command.
  datatype Ids = Ids(c1: CommandId, task: TaskId, e1: EventId, c2: CommandId, run: RunId, e2: EventId, c3: CommandId)

  ghost predicate Free(s: Sys, x: Ids) {
    var t := s.ledger.tables;
    && FreshEvent(s, x.e1) && FreshEvent(s, x.e2) && x.e1 != x.e2
    && x.c1 !in t.receipts && x.c2 !in t.receipts && x.c3 !in t.receipts
    && x.c1 != x.c2 && x.c1 != x.c3 && x.c2 != x.c3
    && x.task !in t.tasks && x.run !in t.runs
  }

  function CreateWorker(p: ProcId, channel: Option<Channel>, node: NodeId, x: Ids, prompt: string): seq<Label> {
    [WorkerBegin(p, channel, node)] + [WorkerCommitTask(p, x.c1, x.task, x.e1)] + [WorkerEnrolStep(p)]
    + [WorkerCommitRun(p, x.c2, x.run, x.e2)] + [WorkerRouteStep(p, x.c3, prompt)]
  }

  lemma TaskStep(s: Sys, p: ProcId, x: Ids)
    requires Sorted(s) && p in s.procs && s.procs[p].WorkerCreate? && Free(s, x)
    ensures
      var t := Next(s, WorkerCommitTask(p, x.c1, x.task, x.e1));
      var before, after := s.ledger.tables, t.ledger.tables;
      && after == before.(
           events := before.events +
             [Event(|before.events| + 1, x.e1, Some(x.c1), EventDraft(TaskCreated, x.task, None, HUB_NODE, ""))],
           receipts := before.receipts[x.c1 := Receipt(|before.events| + 1, x.e1)],
           tasks := before.tasks[x.task := TaskStatus.Open])
      && t.procs == s.procs[p := WorkerEnrol(s.procs[p].channel, s.procs[p].node, x.task)]
      && t.registry == s.registry && t.net == s.net
  {
    var plan := PlanTask(x.c1, x.task, "");
    NewBundle(s.ledger.tables, x.c1, x.e1, DraftOf(plan), EntityOf(plan), DispatchOf(plan));
    hide AppendCommandBundle, Marked, FindEvent;
  }

  lemma EnrolStep(s: Sys, p: ProcId)
    requires p in s.procs && s.procs[p].WorkerEnrol?
    ensures
      var w, t := s.procs[p], Next(s, WorkerEnrolStep(p));
      && t.ledger.tables == s.ledger.tables.(workers :=
           if w.channel.None? then s.ledger.tables.workers
           else s.ledger.tables.workers[w.task := w.channel.value])
      && t.procs == s.procs[p := WorkerStart(w.channel, w.node, w.task)]
      && t.registry == s.registry && t.net == s.net
  {
  }

  lemma RunCommits(s: Sys, p: ProcId, command: CommandId, run: RunId, id: EventId)
    requires p in s.procs && s.procs[p].WorkerStart?
    requires command !in s.ledger.tables.receipts && FreshEvent(s, id)
    ensures
      var w, t := s.procs[p], Next(s, WorkerCommitRun(p, command, run, id));
      var plan := PlanRun(command, run, w.task, w.node, "", true);
      var (tables, result) :=
        AppendCommandBundle(s.ledger.tables, command, id, DraftOf(plan), EntityOf(plan), DispatchOf(plan));
      && t.ledger.tables == tables && t.registry == s.registry && t.net == s.net
      && (result.Ok? ==>
           && t.procs ==
                s.procs[p := WorkerRoute(w.node, DispatchCommand(command, StartRun(run, w.task, "")), w.task, run)]
           && (w.channel.Some? ==> run in t.workerRuns && t.workerRuns[run] == w.task))
  {
    hide AppendCommandBundle, Marked, FreshEvent, DraftOf, EntityOf;
  }

  lemma RunPlan(plan: Plan)
    requires plan.PlanRun? && plan.routed
    ensures DraftOf(plan) == EventDraft(RunStarted, plan.taskId, Some(plan.runId), plan.nodeId, plan.config)
    ensures EntityOf(plan) == NewRun(plan.runId, RunRow(plan.taskId, plan.nodeId, RunStatus.Started))
    ensures DispatchOf(plan) ==
      Some((plan.nodeId, DispatchCommand(plan.commandId, StartRun(plan.runId, plan.taskId, plan.config))))
  {
  }

  lemma RunStep(s: Sys, p: ProcId, command: CommandId, run: RunId, id: EventId)
    requires Sorted(s) && p in s.procs && s.procs[p].WorkerStart?
    requires command !in s.ledger.tables.receipts && FreshEvent(s, id) && run !in s.ledger.tables.runs
    ensures
      var w, t := s.procs[p], Next(s, WorkerCommitRun(p, command, run, id));
      var before, after := s.ledger.tables, t.ledger.tables;
      var m := DispatchCommand(command, StartRun(run, w.task, ""));
      && after == before.(
           events := before.events +
             [Event(|before.events| + 1, id, Some(command), EventDraft(RunStarted, w.task, Some(run), w.node, ""))],
           receipts := before.receipts[command := Receipt(|before.events| + 1, id)],
           dispatches := before.dispatches + [DispatchRow(command, w.node, m, false)],
           runs := before.runs[run := RunRow(w.task, w.node, RunStatus.Started)],
           tasks := if w.task in before.tasks then before.tasks[w.task := TaskStatus.Running] else before.tasks)
      && t.procs == s.procs[p := WorkerRoute(w.node, m, w.task, run)]
      && (w.channel.Some? ==> run in t.workerRuns && t.workerRuns[run] == w.task)
      && t.registry == s.registry && t.net == s.net
  {
    var w := s.procs[p];
    var plan := PlanRun(command, run, w.task, w.node, "", true);
    hide AppendCommandBundle, FindEvent, Next, DraftOf, EntityOf, DispatchOf;
    RunCommits(s, p, command, run, id);
    NewBundle(s.ledger.tables, command, id, DraftOf(plan), EntityOf(plan), DispatchOf(plan));
    RunPlan(plan);
  }

  lemma StillUnused(events: seq<Event>, e: Event, id: EventId)
    requires FindEvent(events, id).None? && e.eventId != id
    ensures FindEvent(events + [e], id).None?
  {
    assert (events + [e])[..|events|] == events;
  }

  lemma BeginStep(s: Sys, p: ProcId, channel: Option<Channel>, node: NodeId)
    requires p !in s.procs && node in s.registry.slots
    ensures Next(s, WorkerBegin(p, channel, node)) == s.(procs := s.procs[p := WorkerCreate(channel, node)])
  {
  }

  lemma RouteWorkerStep(s: Sys, p: ProcId, command: CommandId, prompt: string)
    requires p in s.procs && s.procs[p].WorkerRoute? && command !in s.ledger.tables.receipts && SlotInv(s.registry)
    requires s.procs[p].node in s.registry.slots
    ensures
      var w, t := s.procs[p], Next(s, WorkerRouteStep(p, command, prompt));
      var c := s.registry.slots[w.node];
      && t.ledger == s.ledger && t.workerRuns == s.workerRuns
      && t.registry.slots == s.registry.slots && c in s.registry.conns && c in t.registry.conns
      && t.registry.conns[c] == s.registry.conns[c].(channel := s.registry.conns[c].channel + [w.message])
      && t.procs == s.procs[p := Checked(SendUserMessage(command, w.task, Some(w.run), prompt), InProcess)]
  {
  }

  // What creating a worker has done to the tables.
  ghost predicate WorkerMade(before: Tables, after: Tables, channel: Option<Channel>, node: NodeId, x: Ids) {
    var n := |before.events|;
    && after.events == before.events
         + [Event(n + 1, x.e1, Some(x.c1), EventDraft(TaskCreated, x.task, None, HUB_NODE, ""))]
         + [Event(n + 2, x.e2, Some(x.c2), EventDraft(RunStarted, x.task, Some(x.run), node, ""))]
    && after.dispatches == before.dispatches
         + [DispatchRow(x.c2, node, DispatchCommand(x.c2, StartRun(x.run, x.task, "")), false)]
    && after.tasks == before.tasks[x.task := TaskStatus.Running]
    && after.runs == before.runs[x.run := RunRow(x.task, node, RunStatus.Started)]
    && after.workers == (if channel.None? then before.workers else before.workers[x.task := channel.value])
    && after.wakes == before.wakes
  }

  lemma ThreeCommits(labels: seq<Label>, p: ProcId, channel: Option<Channel>, node: NodeId, x: Ids)
    requires p in Run(labels).procs && Run(labels).procs[p] == WorkerCreate(channel, node) && Free(Run(labels), x)
    ensures
      var s := Run(labels);
      var t := Run(labels + [WorkerCommitTask(p, x.c1, x.task, x.e1)] + [WorkerEnrolStep(p)]
                   + [WorkerCommitRun(p, x.c2, x.run, x.e2)]);
      && WorkerMade(s.ledger.tables, t.ledger.tables, channel, node, x)
      && t.ledger.tables.receipts.Keys == s.ledger.tables.receipts.Keys + {x.c1} + {x.c2}
      && t.registry == s.registry
      && (channel.Some? ==> x.run in t.workerRuns && t.workerRuns[x.run] == x.task)
      && t.procs == s.procs[p := WorkerRoute(node, DispatchCommand(x.c2, StartRun(x.run, x.task, "")), x.task, x.run)]
  {
    hide Run, Next, Sorted, FindEvent, WorkerMade, Free;
    var a := labels + [WorkerCommitTask(p, x.c1, x.task, x.e1)];
    var b := a + [WorkerEnrolStep(p)];
    IsSorted(labels);
    TaskStep(Run(labels), p, x);
    RunExtends(labels, WorkerCommitTask(p, x.c1, x.task, x.e1));
    EnrolStep(Run(a), p);
    RunExtends(a, WorkerEnrolStep(p));
    IsSorted(b);
    StillFree(Run(labels), Run(b), channel, x);
    RunStep(Run(b), p, x.c2, x.run, x.e2);
    RunExtends(b, WorkerCommitRun(p, x.c2, x.run, x.e2));
    MadeInTwo(Run(labels).ledger.tables, Run(b).ledger.tables,
      Run(b + [WorkerCommitRun(p, x.c2, x.run, x.e2)]).ledger.tables, channel, node, x);
  }

  // The task is there, and the worker is enrolled.
  ghost predicate TaskMade(before: Tables, after: Tables, channel: Option<Channel>, x: Ids) {
    after == before.(
      events := before.events +
        [Event(|before.events| + 1, x.e1, Some(x.c1), EventDraft(TaskCreated, x.task, None, HUB_NODE, ""))],
      receipts := before.receipts[x.c1 := Receipt(|before.events| + 1, x.e1)],
      tasks := before.tasks[x.task := TaskStatus.Open],
      workers := if channel.None? then before.workers else before.workers[x.task := channel.value])
  }

  lemma StillFree(s: Sys, t: Sys, channel: Option<Channel>, x: Ids)
    requires Free(s, x) && t.net == s.net
    requires TaskMade(s.ledger.tables, t.ledger.tables, channel, x)
    ensures FreshEvent(t, x.e2) && x.c2 !in t.ledger.tables.receipts && x.run !in t.ledger.tables.runs
  {
    hide FindEvent;
    StillUnused(s.ledger.tables.events,
      Event(|s.ledger.tables.events| + 1, x.e1, Some(x.c1), EventDraft(TaskCreated, x.task, None, HUB_NODE, "")), x.e2);
  }

  lemma MadeInTwo(before: Tables, between: Tables, after: Tables, channel: Option<Channel>, node: NodeId, x: Ids)
    requires TaskMade(before, between, channel, x)
    requires
      var m := DispatchCommand(x.c2, StartRun(x.run, x.task, ""));
      after == between.(
        events := between.events +
          [Event(|between.events| + 1, x.e2, Some(x.c2), EventDraft(RunStarted, x.task, Some(x.run), node, ""))],
        receipts := between.receipts[x.c2 := Receipt(|between.events| + 1, x.e2)],
        dispatches := between.dispatches + [DispatchRow(x.c2, node, m, false)],
        runs := between.runs[x.run := RunRow(x.task, node, RunStatus.Started)],
        tasks := between.tasks[x.task := TaskStatus.Running])
    ensures WorkerMade(before, after, channel, node, x)
    ensures after.receipts.Keys == before.receipts.Keys + {x.c1} + {x.c2}
  {
  }

  // In any run: a worker that is created while its node is connected is a task and a run of
  // it that are logged, a registration for the channel before the run can end, and the work
  // to start the run, which is with the node's connection; its prompt comes in next, as a
  // command like any other.
  lemma WorkersAreCreated(labels: seq<Label>, p: ProcId, channel: Option<Channel>, node: NodeId, x: Ids, prompt: string)
    requires p !in Run(labels).procs && node in Run(labels).registry.slots && Free(Run(labels), x)
    ensures
      var s, t := Run(labels), Run(labels + CreateWorker(p, channel, node, x, prompt));
      var c := s.registry.slots[node];
      && WorkerMade(s.ledger.tables, t.ledger.tables, channel, node, x)
      && (channel.Some? ==> x.run in t.workerRuns && t.workerRuns[x.run] == x.task)
      && t.registry.slots == s.registry.slots && c in s.registry.conns && c in t.registry.conns
      && t.registry.conns[c].channel ==
           s.registry.conns[c].channel + [DispatchCommand(x.c2, StartRun(x.run, x.task, ""))]
      && p in t.procs && t.procs[p] == Checked(SendUserMessage(x.c3, x.task, Some(x.run), prompt), InProcess)
  {
    hide Run, Next, WorkerMade, CoverInv;
    var a := labels + [WorkerBegin(p, channel, node)];
    var b := a + [WorkerCommitTask(p, x.c1, x.task, x.e1)] + [WorkerEnrolStep(p)]
      + [WorkerCommitRun(p, x.c2, x.run, x.e2)];
    BeginStep(Run(labels), p, channel, node);
    RunExtends(labels, WorkerBegin(p, channel, node));
    ThreeCommits(a, p, channel, node, x);
    ReachableDispatch(b);
    RouteWorkerStep(Run(b), p, x.c3, prompt);
    RunExtends(b, WorkerRouteStep(p, x.c3, prompt));
    assert labels + CreateWorker(p, channel, node, x, prompt) == b + [WorkerRouteStep(p, x.c3, prompt)];
  }

  // ----- what the hub logs itself --------------------------------------------------------------

  lemma CommandLogs(s: Sys, plan: Plan, id: EventId)
    requires Sorted(s) && FreshEvent(s, id) && plan.commandId !in s.ledger.tables.receipts
    requires EntityFits(s.ledger.tables, EntityOf(plan)) && DispatchOf(plan).None?
    ensures
      var t, before := DoHubCommand(s, plan, id), s.ledger.tables;
      && t.ledger.tables.events == before.events + [Event(|before.events| + 1, id, Some(plan.commandId), DraftOf(plan))]
      && t.ledger.tables.dispatches == before.dispatches
      && t.registry == s.registry && t.procs == s.procs && t.net == s.net
  {
    hide AppendCommandBundle, Marked, FindEvent, DraftOf, EntityOf;
    NewBundle(s.ledger.tables, plan.commandId, id, DraftOf(plan), EntityOf(plan), DispatchOf(plan));
    assert s.ledger.tables.dispatches + [] == s.ledger.tables.dispatches;
  }

  // In any run: the assistant's own runs and messages are logged for the hub, and no node
  // is sent anything.
  lemma AssistantWorkStaysHome(labels: seq<Label>, command: CommandId, task: TaskId, run: RunId, id: EventId,
                               text: string)
    requires FreshEvent(Run(labels), id) && command !in Run(labels).ledger.tables.receipts
    ensures
      var s, started := Run(labels), Run(labels + [HubRun(command, run, task, id)]);
      var n := |s.ledger.tables.events| + 1;
      run !in s.ledger.tables.runs ==>
        && started.ledger.tables.events == s.ledger.tables.events
             + [Event(n, id, Some(command), EventDraft(RunStarted, task, Some(run), HUB_NODE, ""))]
        && started.ledger.tables.dispatches == s.ledger.tables.dispatches
        && started.registry == s.registry && started.procs == s.procs && started.net == s.net
    ensures
      var s, said := Run(labels), Run(labels + [HubMessage(command, task, run, id, text)]);
      var n := |s.ledger.tables.events| + 1;
      && said.ledger.tables.events == s.ledger.tables.events
           + [Event(n, id, Some(command), EventDraft(MessageUser, task, Some(run), HUB_NODE, text))]
      && said.ledger.tables.dispatches == s.ledger.tables.dispatches
      && said.registry == s.registry && said.procs == s.procs && said.net == s.net
  {
    hide Run, Sorted, FreshEvent, DoHubCommand;
    IsSorted(labels);
    RunExtends(labels, HubRun(command, run, task, id));
    RunExtends(labels, HubMessage(command, task, run, id, text));
    var message, start :=
      PlanMessage(command, task, Some(run), None, text), PlanRun(command, run, task, HUB_NODE, "", false);
    CommandLogs(Run(labels), message, id);
    if run !in Run(labels).ledger.tables.runs {
      CommandLogs(Run(labels), start, id);
    }
  }

  lemma EventLogs(s: Sys, id: EventId, draft: EventDraft)
    requires LedgerInv(s.ledger) && FreshEvent(s, id)
    ensures
      Next(s, HubEvent(id, draft)).ledger.tables.events == s.ledger.tables.events
        + [Event(|s.ledger.tables.events| + 1, id, None, draft)]
  {
    NodeSteps.AdmittedTables(s, id, draft);
    hide Perform, LedgerInv, DeliveryRuns.Logged;
  }

  // An event that the hub emits itself is logged under the next sequence.
  lemma HubEventsAreLogged(labels: seq<Label>, id: EventId, draft: EventDraft)
    requires FreshEvent(Run(labels), id)
    ensures
      var log := Run(labels).ledger.tables.events;
      Run(labels + [HubEvent(id, draft)]).ledger.tables.events == log + [Event(|log| + 1, id, None, draft)]
  {
    hide Run, FreshEvent, LedgerInv, Next, LiveFeed.FeedInv;
    ReachableStore(labels);
    RunExtends(labels, HubEvent(id, draft));
    EventLogs(Run(labels), id, draft);
  }

  lemma TrackStep(s: Sys, channel: Channel, task: TaskId, run: RunId)
    requires DeliveryRuns.CacheInv(s)
    ensures
      var before, t := s.ledger.tables, Next(s, TrackWorker(channel, task, run));
      var ofNode := run in before.runs && before.runs[run].taskId == task && before.runs[run].nodeId != HUB_NODE;
      && t.ledger.tables == (if ofNode then before.(workers := before.workers[task := channel]) else before)
      && t.registry == s.registry && t.procs == s.procs && t.net == s.net
  {
    BindingIsTheRow(s, run);
    hide Binding, DeliveryRuns.CacheInv;
  }

  // In any run: a task is registered for a channel if the run named with it is one of this
  // task on a node, and left alone otherwise, as is everything else.
  lemma TrackedWorkersAreRegistered(labels: seq<Label>, channel: Channel, task: TaskId, run: RunId)
    ensures
      var before := Run(labels).ledger.tables;
      var after := Run(labels + [TrackWorker(channel, task, run)]).ledger.tables;
      var ofNode := run in before.runs && before.runs[run].taskId == task && before.runs[run].nodeId != HUB_NODE;
      after == if ofNode then before.(workers := before.workers[task := channel]) else before
  {
    hide Run, Next, DeliveryRuns.MessageInv, DeliveryRuns.EventInv, DeliveryRuns.EngineInv;
    ReachableNet(labels);
    RunExtends(labels, TrackWorker(channel, task, run));
    TrackStep(Run(labels), channel, task, run);
  }

  // ----- a restart --------------------------------------------------------------------------------

  lemma RestartShape(s: Sys)
    ensures
      var t := Next(s, HubRestart);
      && t.ledger == s.ledger && t.net == s.net
      && t.feed.clients == map[] && t.registry.slots == map[] && t.registry.conns == map[] && t.procs == map[]
      && t.cache == map[]
  {
  }

  // In any run, a restart of the hub takes every client, connection and process with it, but
  // neither the tables nor the nodes; and it still knows the node and task of every run.
  lemma RestartKeepsWhatIsStored(labels: seq<Label>, run: RunId)
    ensures
      var s, t := Run(labels), Run(labels + [HubRestart]);
      && t.ledger == s.ledger && t.net == s.net
      && t.feed.clients == map[] && t.registry.slots == map[] && t.registry.conns == map[] && t.procs == map[]
      && Binding(t, run) == Binding(s, run)
  {
    hide Run, Next, DeliveryRuns.MessageInv, DeliveryRuns.EventInv, DeliveryRuns.EngineInv;
    ReachableNet(labels);
    RunExtends(labels, HubRestart);
    RestartShape(Run(labels));
    BindingIsTheRow(Run(labels), run);
  }
}
