// Every durable change the hub makes, as one operation on the tables, and what
// holds of the tables after any number of them.
//
// A client command reaches the store as a `Plan`: the event to log, the entity
// it mints and the work it sends to a node are all functions of the plan.
module Ledger {
  import opened Wrappers
  import opened Events
  import opened Store

  datatype Plan =
    | PlanTask(commandId: CommandId, taskId: TaskId, title: string)
    | PlanRun(commandId: CommandId, runId: RunId, taskId: TaskId, nodeId: NodeId, config: string, routed: bool)
    | PlanMessage(commandId: CommandId, taskId: TaskId, toRun: Option<RunId>, owner: Option<NodeId>, text: string)
    | PlanInterrupt(commandId: CommandId, runId: RunId, taskId: TaskId, owner: Option<NodeId>)
    | PlanApproval(commandId: CommandId, taskId: TaskId, runId: RunId, decision: string)

  function NodeOr(owner: Option<NodeId>): NodeId {
    if owner.Some? then owner.value else HUB_NODE
  }

  function DraftOf(plan: Plan): EventDraft {
    match plan
    case PlanTask(_, task, title) => EventDraft(TaskCreated, task, None, HUB_NODE, title)
    case PlanRun(_, run, task, node, config, _) => EventDraft(RunStarted, task, Some(run), node, config)
    case PlanMessage(_, task, run, owner, text) => EventDraft(MessageUser, task, run, NodeOr(owner), text)
    case PlanInterrupt(_, run, task, owner) => EventDraft(RunInterrupted, task, Some(run), NodeOr(owner), "")
    case PlanApproval(_, task, run, decision) => EventDraft(ApprovalResolved, task, Some(run), HUB_NODE, decision)
  }

  function EntityOf(plan: Plan): EntityWrite {
    match plan
    case PlanTask(_, task, _) => NewTask(task, TaskStatus.Open)
    case PlanRun(_, run, task, node, _, _) => NewRun(run, RunRow(task, node, RunStatus.Started))
    case _ => NoEntity
  }

  function DispatchOf(plan: Plan): Option<(NodeId, HubToNode)> {
    match plan
    case PlanRun(command, run, task, node, config, true) =>
      Some((node, DispatchCommand(command, StartRun(run, task, config))))
    case PlanMessage(command, task, Some(run), Some(node), text) =>
      Some((node, DispatchCommand(command, SendPrompt(task, run, text))))
    case PlanInterrupt(command, run, _, Some(node)) =>
      Some((node, DispatchCommand(command, InterruptRun(run))))
    case _ => None
  }

  datatype HubOp =
    | Command(plan: Plan, freshId: EventId)
    | NodeAppend(eventId: EventId, draft: EventDraft)
    | Acknowledge(commandId: CommandId, nodeId: NodeId)
    | Enrol(channel: Channel, taskId: TaskId)
    | FinishWake(wakeId: EventId)

  // `marks[i]` is history: the channel that had registered the task of event i
  // at the moment event i was appended.
  datatype Ledger = Ledger(tables: Tables, marks: seq<Option<Channel>>)

  const NEW_LEDGER: Ledger := Ledger(EMPTY, [])

  function Registration(workers: map<TaskId, Channel>, task: TaskId): Option<Channel> {
    if task in workers then Some(workers[task]) else None
  }

  function Perform(l: Ledger, op: HubOp): (Ledger, Result<Outcome>) {
    match op
    case Command(plan, freshId) =>
      var (tables, result) :=
        AppendCommandBundle(l.tables, plan.commandId, freshId, DraftOf(plan), EntityOf(plan), DispatchOf(plan));
      (Ledger(tables, Marked(l, DraftOf(plan).taskId, result)), result)
    case NodeAppend(id, draft) =>
      var (tables, result) := AppendNodeEvent(l.tables, id, draft);
      (Ledger(tables, Marked(l, draft.taskId, result)), result)
    case Acknowledge(command, node) => (l.(tables := AcknowledgeFrom(l.tables, command, node)), Err)
    case Enrol(channel, task) => (l.(tables := RegisterWorker(l.tables, channel, task)), Err)
    case FinishWake(id) => (l.(tables := CompleteWake(l.tables, id)), Err)
  }

  function Marked(l: Ledger, task: TaskId, result: Result<Outcome>): seq<Option<Channel>> {
    if result.Ok? && result.value.created then l.marks + [Registration(l.tables.workers, task)] else l.marks
  }

  function PerformAll(l: Ledger, ops: seq<HubOp>): Ledger {
    if ops == [] then l else Perform(PerformAll(l, ops[..|ops| - 1]), ops[|ops| - 1]).0
  }

  // ----- the invariant ------------------------------------------------------

  ghost predicate UniqueIds(events: seq<Event>) {
    forall i, j :: 0 <= i < j < |events| ==> events[i].eventId != events[j].eventId
  }

  ghost predicate ReceiptsNameEvents(s: Tables) {
    forall c :: c in s.receipts ==>
      var r := s.receipts[c];
      && 1 <= r.sequence <= |s.events|
      && s.events[r.sequence - 1].commandId == Some(c)
      && s.events[r.sequence - 1].eventId == r.eventId
  }

  ghost predicate EventsHaveReceipts(s: Tables) {
    forall i :: 0 <= i < |s.events| && s.events[i].commandId.Some? ==>
      && s.events[i].commandId.value in s.receipts
      && s.receipts[s.events[i].commandId.value].sequence == i + 1
  }

  // Receipts and command events are in one-to-one correspondence.
  ghost predicate ReceiptsMatchLog(s: Tables) {
    ReceiptsNameEvents(s) && EventsHaveReceipts(s)
  }

  ghost predicate DispatchesMatchReceipts(s: Tables) {
    && (forall i :: 0 <= i < |s.dispatches| ==>
          && s.dispatches[i].commandId in s.receipts
          && s.dispatches[i].message.DispatchCommand?
          && s.dispatches[i].message.commandId == s.dispatches[i].commandId)
    && (forall i, j :: 0 <= i < j < |s.dispatches| ==> s.dispatches[i].commandId != s.dispatches[j].commandId)
  }

  // The status of every row, read off the log alone.
  datatype Rows = Rows(tasks: map<TaskId, TaskStatus>, runs: map<RunId, RunRow>)

  function ReplayOne(rows: Rows, e: Event): Rows {
    if e.commandId.Some? then
      match e.draft.kind
      case TaskCreated => rows.(tasks := rows.tasks[e.draft.taskId := TaskStatus.Open])
      case RunStarted =>
        if e.draft.runId.None? then rows else
        Rows(SetTask(rows.tasks, e.draft.taskId, TaskStatus.Running),
             rows.runs[e.draft.runId.value := RunRow(e.draft.taskId, e.draft.nodeId, RunStatus.Started)])
      case _ => rows
    else
      var terminal := TerminalOf(e.draft.kind);
      if terminal.None? || e.draft.runId.None? then rows
      else Rows(SetTask(rows.tasks, e.draft.taskId, terminal.value.taskStatus),
                SetRun(rows.runs, e.draft.runId.value, terminal.value.runStatus))
  }

  function Replay(events: seq<Event>): Rows {
    if events == [] then Rows(map[], map[])
    else ReplayOne(Replay(events[..|events| - 1]), events[|events| - 1])
  }

  ghost predicate StatusIsReplay(s: Tables) {
    Rows(s.tasks, s.runs) == Replay(s.events)
  }

  // Event i obliges the assistant to look at it.
  predicate WakeDue(e: Event, mark: Option<Channel>) {
    && e.commandId.None?
    && (e.draft.kind.RunCompleted? || e.draft.kind.RunFailed?)
    && e.draft.runId.Some?
    && mark.Some?
  }

  ghost predicate DueEventsWake(l: Ledger)
    requires |l.marks| == |l.tables.events|
  {
    forall i :: 0 <= i < |l.marks| ==>
      (WakeDue(l.tables.events[i], l.marks[i]) <==> l.tables.events[i].eventId in l.tables.wakes)
  }

  ghost predicate WakeIsDue(l: Ledger, w: EventId)
    requires |l.marks| == |l.tables.events| && w in l.tables.wakes
  {
    var s := l.tables;
    var k := s.wakes[w].sequence;
    && 1 <= k <= |s.events|
    && s.events[k - 1].eventId == w
    && WakeDue(s.events[k - 1], l.marks[k - 1])
    && s.wakes[w] == Wake(k, l.marks[k - 1].value, s.events[k - 1].draft.taskId, s.events[k - 1].draft.runId.value,
                          s.events[k - 1].draft.kind, s.wakes[w].processed)
  }

  ghost predicate WakesAreDue(l: Ledger) {
    && |l.marks| == |l.tables.events|
    && DueEventsWake(l)
    && forall w :: w in l.tables.wakes ==> WakeIsDue(l, w)
  }

  ghost predicate LedgerInv(l: Ledger) {
    && Gapless(l.tables.events)
    && UniqueIds(l.tables.events)
    && ReceiptsMatchLog(l.tables)
    && DispatchesMatchReceipts(l.tables)
    && StatusIsReplay(l.tables)
    && WakesAreDue(l)
  }

  // ----- what every operation keeps ------------------------------------------

  // Nothing durable is ever taken back: only statuses, acknowledgements, wake
  // completion and a worker's channel may change in place.
  ghost predicate Grows(s: Tables, t: Tables) {
    && s.events <= t.events
    && (forall c :: c in s.receipts ==> c in t.receipts && t.receipts[c] == s.receipts[c])
    && (forall k :: k in s.tasks ==> k in t.tasks)
    && (forall r :: r in s.runs ==>
         r in t.runs && t.runs[r].taskId == s.runs[r].taskId && t.runs[r].nodeId == s.runs[r].nodeId)
    && |s.dispatches| <= |t.dispatches|
    && (forall i :: 0 <= i < |s.dispatches| ==>
          t.dispatches[i] == s.dispatches[i] || t.dispatches[i] == s.dispatches[i].(acked := true))
    && (forall k :: k in s.workers ==> k in t.workers)
    && (forall w :: w in s.wakes ==>
         w in t.wakes && (t.wakes[w] == s.wakes[w] || t.wakes[w] == s.wakes[w].(processed := true)))
  }

  lemma EntityGrows(s: Tables, entity: EntityWrite)
    requires EntityFits(s, entity)
    ensures Grows(s, WriteEntity(s, entity))
    ensures WriteEntity(s, entity).dispatches == s.dispatches
  {
  }

  lemma LoggedGrows(s: Tables, command: CommandId, e: Event, receipt: Receipt)
    requires command !in s.receipts
    ensures Grows(s, s.(events := s.events + [e], receipts := s.receipts[command := receipt]))
  {
  }

  lemma QueuedGrows(s: Tables, row: DispatchRow)
    ensures Grows(s, s.(dispatches := s.dispatches + [row]))
  {
  }

  lemma BundleGrows(s: Tables, command: CommandId, freshId: EventId, draft: EventDraft, entity: EntityWrite,
                    dispatch: Option<(NodeId, HubToNode)>)
    ensures Grows(s, AppendCommandBundle(s, command, freshId, draft, entity, dispatch).0)
  {
    if AppendCommandBundle(s, command, freshId, draft, entity, dispatch).0 != s {
      hide Grows;
      var sequence := NextSequence(s.events);
      var e := Event(sequence, freshId, Some(command), draft);
      var logged := s.(events := s.events + [e], receipts := s.receipts[command := Receipt(sequence, freshId)]);
      var written := WriteEntity(logged, entity);
      LoggedGrows(s, command, e, Receipt(sequence, freshId));
      EntityGrows(logged, entity);
      GrowsTransitive(s, logged, written);
      if dispatch.Some? {
        var row := DispatchRow(command, dispatch.value.0, dispatch.value.1, false);
        QueuedGrows(written, row);
        GrowsTransitive(s, written, written.(dispatches := written.dispatches + [row]));
      }
    }
  }

  lemma CommandGrows(s: Tables, plan: Plan, freshId: EventId)
    ensures Grows(s, AppendCommandBundle(s, plan.commandId, freshId, DraftOf(plan), EntityOf(plan), DispatchOf(plan)).0)
  {
    hide Grows, AppendCommandBundle;
    BundleGrows(s, plan.commandId, freshId, DraftOf(plan), EntityOf(plan), DispatchOf(plan));
  }

  lemma StatusGrows(s: Tables, run: RunId, runStatus: RunStatus, task: TaskId, taskStatus: TaskStatus)
    ensures Grows(s, s.(runs := SetRun(s.runs, run, runStatus), tasks := SetTask(s.tasks, task, taskStatus)))
  {
  }

  lemma WakeGrows(s: Tables, id: EventId, wake: Wake)
    requires id !in s.wakes
    ensures Grows(s, s.(wakes := s.wakes[id := wake]))
  {
  }

  lemma ApplyTerminalGrows(s: Tables, id: EventId, sequence: nat, draft: EventDraft)
    requires ApplyTerminal(s, id, sequence, draft).Some?
    ensures Grows(s, ApplyTerminal(s, id, sequence, draft).value)
    ensures ApplyTerminal(s, id, sequence, draft).value.events == s.events
  {
    var terminal := TerminalOf(draft.kind);
    if terminal.Some? && draft.runId.Some? {
      var t := ApplyTerminal(s, id, sequence, draft).value;
      var updated := s.(runs := SetRun(s.runs, draft.runId.value, terminal.value.runStatus),
                        tasks := SetTask(s.tasks, draft.taskId, terminal.value.taskStatus));
      StatusGrows(s, draft.runId.value, terminal.value.runStatus, draft.taskId, terminal.value.taskStatus);
      hide Grows;
      if t != updated {
        WakeGrows(updated, id, t.wakes[id]);
        GrowsTransitive(s, updated, t);
      }
    }
  }

  lemma NodeAppendGrows(s: Tables, id: EventId, draft: EventDraft)
    ensures Grows(s, AppendNodeEvent(s, id, draft).0)
  {
    var sequence := NextSequence(s.events);
    var logged := s.(events := s.events + [Event(sequence, id, None, draft)]);
    if FindEvent(s.events, id).None? && ApplyTerminal(logged, id, sequence, draft).Some? {
      ApplyTerminalGrows(logged, id, sequence, draft);
      GrowsTransitive(s, logged, ApplyTerminal(logged, id, sequence, draft).value);
    }
  }

  lemma PerformGrows(l: Ledger, op: HubOp)
    ensures Grows(l.tables, Perform(l, op).0.tables)
  {
    match op
    case Command(plan, freshId) => CommandGrows(l.tables, plan, freshId);
    case NodeAppend(id, draft) => NodeAppendGrows(l.tables, id, draft);
    case _ =>
  }

  // The log part, for either append path.
  lemma AppendKeepsLog(events: seq<Event>, e: Event)
    requires Gapless(events) && UniqueIds(events)
    requires e.sequence == NextSequence(events) && FindEvent(events, e.eventId).None?
    ensures Gapless(events + [e]) && UniqueIds(events + [e])
    ensures e.sequence == |events| + 1
    ensures Replay(events + [e]) == ReplayOne(Replay(events), e)
  {
    GaplessNext(events);
    assert (events + [e])[..|events|] == events;
  }

  lemma CommandKeepsInv(l: Ledger, plan: Plan, freshId: EventId)
    requires LedgerInv(l)
    ensures LedgerInv(Perform(l, Command(plan, freshId)).0)
  {
    if Created(l, Command(plan, freshId)) {
      GaplessNext(l.tables.events);
      CommandMarks(l, plan, freshId);
      CommandEffect(l.tables, plan, freshId);
      AppendKeepsLog(l.tables.events, Event(|l.tables.events| + 1, freshId, Some(plan.commandId), DraftOf(plan)));
      CommandKeepsReceipts(l.tables, plan, freshId);
      CommandKeepsReplay(l.tables, plan, freshId);
      CommandKeepsWakes(l, plan, freshId);
      hide Perform, Gapless, UniqueIds, ReceiptsMatchLog, DispatchesMatchReceipts, StatusIsReplay, WakesAreDue;
    } else {
      NotCreatedIsNoOp(l, plan, freshId);
    }
  }

  lemma NotCreatedIsNoOp(l: Ledger, plan: Plan, freshId: EventId)
    requires !Created(l, Command(plan, freshId))
    ensures Perform(l, Command(plan, freshId)).0 == l
  {
  }

  ghost predicate Created(l: Ledger, op: HubOp) {
    var result := Perform(l, op).1;
    result.Ok? && result.value.created
  }

  lemma CommandKeepsReceipts(s: Tables, plan: Plan, freshId: EventId)
    requires Gapless(s.events) && ReceiptsMatchLog(s) && DispatchesMatchReceipts(s)
    requires Created(Ledger(s, []), Command(plan, freshId))
    ensures ReceiptsMatchLog(Perform(Ledger(s, []), Command(plan, freshId)).0.tables)
    ensures DispatchesMatchReceipts(Perform(Ledger(s, []), Command(plan, freshId)).0.tables)
  {
    GaplessNext(s.events);
    var t := Perform(Ledger(s, []), Command(plan, freshId)).0.tables;
    CommandEffect(s, plan, freshId);
    var e := Event(|s.events| + 1, freshId, Some(plan.commandId), DraftOf(plan));
    ReceiptAppended(s, t, e, plan.commandId);
    CommandEventAppended(s, t, e, plan.commandId);
    DispatchAppended(s, t, plan);
  }

  // What a new command leaves behind, table by table.
  lemma CommandEffect(s: Tables, plan: Plan, freshId: EventId)
    requires NextSequence(s.events) == |s.events| + 1
    requires Created(Ledger(s, []), Command(plan, freshId))
    ensures
      var t := Perform(Ledger(s, []), Command(plan, freshId)).0.tables;
      && plan.commandId !in s.receipts
      && t.events == s.events + [Event(|s.events| + 1, freshId, Some(plan.commandId), DraftOf(plan))]
      && t.receipts == s.receipts[plan.commandId := Receipt(|s.events| + 1, freshId)]
      && t.dispatches == s.dispatches + QueuedBy(plan)
  {
  }

  function QueuedBy(plan: Plan): seq<DispatchRow> {
    match DispatchOf(plan)
    case None => []
    case Some(d) => [DispatchRow(plan.commandId, d.0, d.1, false)]
  }

  lemma ReceiptAppended(s: Tables, t: Tables, e: Event, command: CommandId)
    requires ReceiptsNameEvents(s)
    requires e.commandId == Some(command) && t.events == s.events + [e]
    requires t.receipts == s.receipts[command := Receipt(|s.events| + 1, e.eventId)]
    ensures ReceiptsNameEvents(t)
  {
  }

  lemma CommandEventAppended(s: Tables, t: Tables, e: Event, command: CommandId)
    requires EventsHaveReceipts(s) && command !in s.receipts
    requires e.commandId == Some(command) && t.events == s.events + [e]
    requires t.receipts == s.receipts[command := Receipt(|s.events| + 1, e.eventId)]
    ensures EventsHaveReceipts(t)
  {
  }

  lemma DispatchAppended(s: Tables, t: Tables, plan: Plan)
    requires DispatchesMatchReceipts(s) && plan.commandId !in s.receipts
    requires t.receipts.Keys == s.receipts.Keys + {plan.commandId}
    requires t.dispatches == s.dispatches + QueuedBy(plan)
    ensures DispatchesMatchReceipts(t)
  {
  }

  lemma CommandKeepsReplay(s: Tables, plan: Plan, freshId: EventId)
    requires StatusIsReplay(s)
    requires Created(Ledger(s, []), Command(plan, freshId))
    ensures StatusIsReplay(Perform(Ledger(s, []), Command(plan, freshId)).0.tables)
  {
    var t := Perform(Ledger(s, []), Command(plan, freshId)).0.tables;
    var e := Event(NextSequence(s.events), freshId, Some(plan.commandId), DraftOf(plan));
    PlanReplays(s, plan, e);
    CommandRowsWritten(s, plan, freshId);
    assert t.events[..|s.events|] == s.events;
  }

  // The rows a bundle writes are those its own event replays to.
  lemma PlanReplays(s: Tables, plan: Plan, e: Event)
    requires e.commandId == Some(plan.commandId) && e.draft == DraftOf(plan)
    ensures
      var t := WriteEntity(s, EntityOf(plan));
      Rows(t.tasks, t.runs) == ReplayOne(Rows(s.tasks, s.runs), e)
  {
  }

  lemma BundleWrites(s: Tables, command: CommandId, freshId: EventId, draft: EventDraft, entity: EntityWrite,
                     dispatch: Option<(NodeId, HubToNode)>)
    ensures
      var (t, result) := AppendCommandBundle(s, command, freshId, draft, entity, dispatch);
      result.Ok? && result.value.created ==>
        && t.tasks == WriteEntity(s, entity).tasks && t.runs == WriteEntity(s, entity).runs
        && t.events == s.events + [Event(NextSequence(s.events), freshId, Some(command), draft)]
  {
    match entity
    case NoEntity =>
    case NewTask(_, _) =>
    case NewRun(_, _) =>
  }

  lemma CommandRowsWritten(s: Tables, plan: Plan, freshId: EventId)
    requires Created(Ledger(s, []), Command(plan, freshId))
    ensures
      var t := Perform(Ledger(s, []), Command(plan, freshId)).0.tables;
      var w := WriteEntity(s, EntityOf(plan));
      && t.tasks == w.tasks && t.runs == w.runs
      && t.events == s.events + [Event(NextSequence(s.events), freshId, Some(plan.commandId), DraftOf(plan))]
  {
    hide DraftOf, EntityOf, DispatchOf, AppendCommandBundle, WriteEntity;
    BundleWrites(s, plan.commandId, freshId, DraftOf(plan), EntityOf(plan), DispatchOf(plan));
  }

  lemma CommandKeepsWakes(l: Ledger, plan: Plan, freshId: EventId)
    requires Gapless(l.tables.events) && WakesAreDue(l)
    requires Created(l, Command(plan, freshId))
    ensures WakesAreDue(Perform(l, Command(plan, freshId)).0)
  {
    GaplessNext(l.tables.events);
    CommandMarks(l, plan, freshId);
    CommandEffect(l.tables, plan, freshId);
    WakeKeysAreFree(l, freshId);
    WakeAppended(l, Perform(l, Command(plan, freshId)).0,
      Event(|l.tables.events| + 1, freshId, Some(plan.commandId), DraftOf(plan)));
  }

  lemma CommandMarks(l: Ledger, plan: Plan, freshId: EventId)
    requires Created(l, Command(plan, freshId))
    ensures
      var l' := Perform(l, Command(plan, freshId)).0;
      && FindEvent(l.tables.events, freshId).None?
      && l'.tables.wakes == l.tables.wakes
      && l'.marks == l.marks + [Registration(l.tables.workers, DraftOf(plan).taskId)]
      && l'.tables == Perform(Ledger(l.tables, []), Command(plan, freshId)).0.tables
      && Created(Ledger(l.tables, []), Command(plan, freshId))
  {
  }

  lemma NodeAppendKeepsInv(l: Ledger, id: EventId, draft: EventDraft)
    requires LedgerInv(l)
    ensures LedgerInv(Perform(l, NodeAppend(id, draft)).0)
    ensures Perform(l, NodeAppend(id, draft)).1.Ok?
  {
    var s := l.tables;
    if FindEvent(s.events, id).None? {
      var e := Event(|s.events| + 1, id, None, draft);
      GaplessNext(s.events);
      WakeKeysAreFree(l, id);
      NodeAppendEffect(s, id, draft);
      var l' := Perform(l, NodeAppend(id, draft)).0;
      AppendKeepsLog(s.events, e);
      ReceiptsUntouched(s, l'.tables, e);
      WakeAppended(l, l', e);
    }
  }

  lemma WakeKeysAreFree(l: Ledger, id: EventId)
    requires WakesAreDue(l)
    requires FindEvent(l.tables.events, id).None?
    ensures id !in l.tables.wakes
    ensures forall w :: w in l.tables.wakes ==> l.tables.wakes[w].sequence <= |l.tables.events|
  {
    assert forall w :: w in l.tables.wakes ==> WakeIsDue(l, w);
  }

  // What the lifecycle half of a node event does, and that its wake breaks no key.
  lemma TerminalEffect(s: Tables, e: Event)
    requires e.commandId.None? && e.eventId !in s.wakes && forall w :: w in s.wakes ==>
      s.wakes[w].sequence != e.sequence
    ensures ApplyTerminal(s, e.eventId, e.sequence, e.draft).Some?
    ensures
      var t := ApplyTerminal(s, e.eventId, e.sequence, e.draft).value;
      && t.events == s.events && t.receipts == s.receipts && t.dispatches == s.dispatches && t.workers == s.workers
      && Rows(t.tasks, t.runs) == ReplayOne(Rows(s.tasks, s.runs), e)
      && t.wakes == if WakeDue(e, Registration(s.workers, e.draft.taskId))
           then s.wakes[e.eventId :=
             Wake(e.sequence, s.workers[e.draft.taskId], e.draft.taskId, e.draft.runId.value, e.draft.kind, false)]
           else s.wakes
  {
  }

  // What a new node event leaves behind, table by table.
  lemma NodeAppendEffect(s: Tables, id: EventId, draft: EventDraft)
    requires NextSequence(s.events) == |s.events| + 1
    requires FindEvent(s.events, id).None? && id !in s.wakes
    requires forall w :: w in s.wakes ==> s.wakes[w].sequence <= |s.events|
    ensures
      var (t, result) := AppendNodeEvent(s, id, draft);
      var e := Event(|s.events| + 1, id, None, draft);
      && result == Ok(Outcome(|s.events| + 1, id, true))
      && t.events == s.events + [e]
      && t.receipts == s.receipts && t.dispatches == s.dispatches && t.workers == s.workers
      && Rows(t.tasks, t.runs) == ReplayOne(Rows(s.tasks, s.runs), e)
      && t.wakes == if WakeDue(e, Registration(s.workers, draft.taskId))
           then s.wakes[id :=
             Wake(e.sequence, s.workers[draft.taskId], draft.taskId, draft.runId.value, draft.kind, false)]
           else s.wakes
  {
    hide ApplyTerminal, ReplayOne, TerminalOf;
    var e := Event(|s.events| + 1, id, None, draft);
    TerminalEffect(s.(events := s.events + [e]), e);
  }

  // An event that is accepted is in the log, and at its end if it was not before.
  lemma NodeAppendLogs(l: Ledger, id: EventId, draft: EventDraft) returns (k: nat)
    requires LedgerInv(l)
    ensures
      var before, after := l.tables.events, Perform(l, NodeAppend(id, draft)).0.tables.events;
      && Perform(l, NodeAppend(id, draft)).1.Ok?
      && k < |after| && after[k].eventId == id
      && (after == before || after == before + [Event(|before| + 1, id, None, draft)])
  {
    var s := l.tables;
    k := if FindEvent(s.events, id).Some? then FindEvent(s.events, id).value else |s.events|;
    if FindEvent(s.events, id).None? {
      GaplessNext(s.events);
      WakeKeysAreFree(l, id);
      hide ApplyTerminal;
      NodeAppendEffect(s, id, draft);
    }
  }

  lemma ReceiptsUntouched(s: Tables, t: Tables, e: Event)
    requires ReceiptsMatchLog(s) && DispatchesMatchReceipts(s)
    requires e.commandId.None? && t.events == s.events + [e]
    requires t.receipts == s.receipts && t.dispatches == s.dispatches
    ensures ReceiptsMatchLog(t) && DispatchesMatchReceipts(t)
  {
    forall i | 0 <= i < |t.events| && t.events[i].commandId.Some?
      ensures t.events[i].commandId.value in t.receipts && t.receipts[t.events[i].commandId.value].sequence == i + 1
    {
      assert i < |s.events| && t.events[i] == s.events[i];
    }
  }

  // One more event and mark, and the wake it is due, if it is.
  ghost predicate OneMoreEvent(l: Ledger, l': Ledger, e: Event) {
    && |l.marks| == |l.tables.events| && e.sequence == |l.tables.events| + 1
    && l'.tables.events == l.tables.events + [e] && |l'.marks| == |l.marks| + 1 && l'.marks[..|l.marks|] == l.marks
    && e.eventId !in l.tables.wakes
    && l'.tables.wakes ==
         if WakeDue(e, l'.marks[|l.marks|])
         then l.tables.wakes[e.eventId :=
           Wake(e.sequence, l'.marks[|l.marks|].value, e.draft.taskId, e.draft.runId.value, e.draft.kind, false)]
         else l.tables.wakes
  }

  lemma MarkKept(l: Ledger, l': Ledger, e: Event, i: nat)
    requires OneMoreEvent(l, l', e) && i < |l.marks|
    ensures l'.tables.events[i] == l.tables.events[i] && l'.marks[i] == l.marks[i]
  {
    assert l'.marks[..|l.marks|][i] == l.marks[i];
  }

  lemma WakeAppended(l: Ledger, l': Ledger, e: Event)
    requires WakesAreDue(l) && OneMoreEvent(l, l', e)
    requires forall i :: 0 <= i < |l.tables.events| ==> l.tables.events[i].eventId != e.eventId
    ensures WakesAreDue(l')
  {
    forall i | 0 <= i < |l'.marks|
      ensures WakeDue(l'.tables.events[i], l'.marks[i]) <==> l'.tables.events[i].eventId in l'.tables.wakes
    {
      if i < |l.marks| {
        MarkKept(l, l', e, i);
      }
    }
    forall w | w in l'.tables.wakes
      ensures WakeIsDue(l', w)
    {
      OldOrNewWake(l, l', e, w);
    }
  }

  lemma OldOrNewWake(l: Ledger, l': Ledger, e: Event, w: EventId)
    requires WakesAreDue(l) && OneMoreEvent(l, l', e) && w in l'.tables.wakes
    ensures WakeIsDue(l', w)
  {
    if w != e.eventId {
      assert WakeIsDue(l, w);
      MarkKept(l, l', e, l.tables.wakes[w].sequence - 1);
    }
  }

  ghost predicate InPlace(op: HubOp) {
    op.Acknowledge? || op.Enrol? || op.FinishWake?
  }

  lemma InPlaceKeepsInv(l: Ledger, op: HubOp)
    requires LedgerInv(l) && InPlace(op)
    ensures LedgerInv(Perform(l, op).0)
  {
    var s, t := l.tables, Perform(l, op).0.tables;
    SameLog(s, t);
    InPlaceKeepsDispatches(s, op);
    InPlaceKeepsWakes(l, op);
  }

  lemma InPlaceKeepsDispatches(s: Tables, op: HubOp)
    requires DispatchesMatchReceipts(s) && InPlace(op)
    ensures DispatchesMatchReceipts(Perform(Ledger(s, []), op).0.tables)
  {
    SameDispatchKeys(s, Perform(Ledger(s, []), op).0.tables);
  }

  lemma InPlaceKeepsWakes(l: Ledger, op: HubOp)
    requires WakesAreDue(l) && InPlace(op)
    ensures WakesAreDue(Perform(l, op).0)
  {
    SameWakes(l, Perform(l, op).0);
  }

  lemma SameLog(s: Tables, t: Tables)
    requires ReceiptsMatchLog(s) && t.events == s.events && t.receipts == s.receipts
    ensures ReceiptsMatchLog(t)
  {
  }

  lemma SameDispatchKeys(s: Tables, t: Tables)
    requires DispatchesMatchReceipts(s) && t.receipts == s.receipts && |t.dispatches| == |s.dispatches|
    requires forall i :: 0 <= i < |s.dispatches| ==>
      t.dispatches[i].commandId == s.dispatches[i].commandId && t.dispatches[i].message == s.dispatches[i].message
    ensures DispatchesMatchReceipts(t)
  {
  }

  lemma SameWakes(l: Ledger, l': Ledger)
    requires WakesAreDue(l) && l'.tables.events == l.tables.events && l'.marks == l.marks
    requires l'.tables.wakes.Keys == l.tables.wakes.Keys
    requires forall w :: w in l.tables.wakes ==>
      l'.tables.wakes[w] == l.tables.wakes[w].(processed := l'.tables.wakes[w].processed)
    ensures WakesAreDue(l')
  {
    forall w | w in l'.tables.wakes
      ensures WakeIsDue(l', w)
    {
      assert w in l.tables.wakes && WakeIsDue(l, w);
    }
  }

  lemma PerformKeepsInv(l: Ledger, op: HubOp)
    requires LedgerInv(l)
    ensures LedgerInv(Perform(l, op).0)
  {
    match op
    case Command(plan, freshId) => CommandKeepsInv(l, plan, freshId);
    case NodeAppend(id, draft) => NodeAppendKeepsInv(l, id, draft);
    case _ => InPlaceKeepsInv(l, op);
  }

  // ----- over every run --------------------------------------------------------

  lemma EveryRunKeepsInv(ops: seq<HubOp>)
    ensures LedgerInv(PerformAll(NEW_LEDGER, ops))
  {
    StaysInv(NEW_LEDGER, ops);
  }

  lemma GrowsTransitive(s: Tables, t: Tables, u: Tables)
    requires Grows(s, t) && Grows(t, u)
    ensures Grows(s, u)
  {
  }

  lemma {:induction false} EveryRunGrows(l: Ledger, ops: seq<HubOp>)
    ensures Grows(l.tables, PerformAll(l, ops).tables)
  {
    if ops != [] {
      var before := PerformAll(l, ops[..|ops| - 1]);
      EveryRunGrows(l, ops[..|ops| - 1]);
      PerformGrows(before, ops[|ops| - 1]);
      GrowsTransitive(l.tables, before.tables, Perform(before, ops[|ops| - 1]).0.tables);
    }
  }

  // Sequences are 1..n, event ids are unique, and receipts correspond one to one
  // with the events that carry a command id.
  lemma LogAndReceiptIntegrity(ops: seq<HubOp>)
    ensures
      var s := PerformAll(NEW_LEDGER, ops).tables;
      && (forall i :: 0 <= i < |s.events| ==> s.events[i].sequence == i + 1)
      && (forall i, j :: 0 <= i < |s.events| && 0 <= j < |s.events| && s.events[i].eventId == s.events[j].eventId ==>
           i == j)
      && (forall i, j :: 0 <= i < |s.events| && 0 <= j < |s.events| ==>
            s.events[i].commandId.Some? && s.events[i].commandId == s.events[j].commandId ==> i == j)
      && (forall c :: c in s.receipts <==> exists i :: 0 <= i < |s.events| && s.events[i].commandId == Some(c))
  {
    EveryRunKeepsInv(ops);
  }

  // A replayed command, whatever happened in between and however its copy was
  // planned, returns the first outcome and changes nothing.
  lemma ReplayedCommandIsANoOp(l: Ledger, first: Plan, firstId: EventId, between: seq<HubOp>, again: Plan,
                               againId: EventId)
    requires Perform(l, Command(first, firstId)).1.Ok?
    requires again.commandId == first.commandId
    ensures
      var (l1, original) := Perform(l, Command(first, firstId));
      var l2 := PerformAll(l1, between);
      Perform(l2, Command(again, againId)) == (l2, Ok(original.value.(created := false)))
  {
    EveryRunGrows(Perform(l, Command(first, firstId)).0, between);
  }

  // The same for a node event delivered twice.
  lemma ReplayedNodeEventIsANoOp(l: Ledger, id: EventId, draft: EventDraft, between: seq<HubOp>, draft': EventDraft)
    requires LedgerInv(l)
    ensures
      var (l1, original) := Perform(l, NodeAppend(id, draft));
      var l2 := PerformAll(l1, between);
      && original.Ok?
      && Perform(l2, NodeAppend(id, draft')) == (l2, Ok(original.value.(created := false)))
  {
    var l1 := Perform(l, NodeAppend(id, draft)).0;
    NodeAppendKeepsInv(l, id, draft);
    var k := NodeEventIsLogged(l.tables, id, draft);
    EveryRunGrows(l1, between);
    StaysInv(l1, between);
    var l2 := PerformAll(l1, between);
    assert l1.tables.events <= l2.tables.events;
    FoundForever(l2.tables.events, id, k);
  }

  lemma NodeEventIsLogged(s: Tables, id: EventId, draft: EventDraft) returns (k: nat)
    requires AppendNodeEvent(s, id, draft).1.Ok?
    ensures
      var (t, result) := AppendNodeEvent(s, id, draft);
      k < |t.events| && t.events[k].eventId == id && t.events[k].sequence == result.value.sequence &&
        result.value.eventId == id
  {
    var found := FindEvent(s.events, id);
    k := if found.Some? then found.value else |s.events|;
  }

  lemma FoundForever(events: seq<Event>, id: EventId, k: nat)
    requires UniqueIds(events) && k < |events| && events[k].eventId == id
    ensures FindEvent(events, id) == Some(k)
  {
  }

  lemma {:induction false} StaysInv(l: Ledger, ops: seq<HubOp>)
    requires LedgerInv(l)
    ensures LedgerInv(PerformAll(l, ops))
  {
    if ops != [] {
      StaysInv(l, ops[..|ops| - 1]);
      PerformKeepsInv(PerformAll(l, ops[..|ops| - 1]), ops[|ops| - 1]);
    }
  }
}
