// The durable store as a value: tables, and one function per transaction.
//
// A transaction that breaks a PRIMARY KEY or UNIQUE constraint is rolled back
// as a whole, which shows here as `Err` beside the unchanged tables.
module Store {
  import opened Wrappers
  import opened Events

  datatype Receipt = Receipt(sequence: nat, eventId: EventId)

  datatype DispatchRow = DispatchRow(commandId: CommandId, nodeId: NodeId, message: HubToNode, acked: bool)

  datatype Wake = Wake(sequence: nat, channel: Channel, taskId: TaskId, runId: RunId, kind: EventKind, processed: bool)

  datatype Tables = Tables(
    events: seq<Event>,
    receipts: map<CommandId, Receipt>,
    tasks: map<TaskId, TaskStatus>,
    runs: map<RunId, RunRow>,
    dispatches: seq<DispatchRow>,
    workers: map<TaskId, Channel>,
    wakes: map<EventId, Wake>)

  const EMPTY: Tables := Tables([], map[], map[], map[], [], map[], map[])

  datatype EntityWrite =
    | NoEntity
    | NewTask(task: TaskId, taskStatus: TaskStatus)
    | NewRun(run: RunId, row: RunRow)

  datatype Outcome = Outcome(sequence: nat, eventId: EventId, created: bool)

  // ----- lookups ---------------------------------------------------------

  function MaxSequence(events: seq<Event>): (m: nat)
    ensures forall e :: e in events ==> e.sequence <= m
    ensures events != [] ==> exists e :: e in events && e.sequence == m
  {
    if events == [] then 0
    else
      var last := events[|events| - 1];
      var m := MaxSequence(events[..|events| - 1]);
      assert events == events[..|events| - 1] + [last];
      if m <= last.sequence then last.sequence else m
  }

  function NextSequence(events: seq<Event>): nat {
    MaxSequence(events) + 1
  }

  function FindEvent(events: seq<Event>, id: EventId): (r: Option<nat>)
    ensures r.Some? ==> r.value < |events| && events[r.value].eventId == id
    ensures r.None? ==> forall i :: 0 <= i < |events| ==> events[i].eventId != id
  {
    if events == [] then None
    else if events[|events| - 1].eventId == id then Some(|events| - 1)
    else FindEvent(events[..|events| - 1], id)
  }

  predicate HasDispatch(rows: seq<DispatchRow>, id: CommandId) {
    exists i :: 0 <= i < |rows| && rows[i].commandId == id
  }

  // ----- write transactions ----------------------------------------------

  predicate EntityFits(s: Tables, entity: EntityWrite) {
    match entity
    case NoEntity => true
    case NewTask(task, _) => task !in s.tasks
    case NewRun(run, _) => run !in s.runs
  }

  function WriteEntity(s: Tables, entity: EntityWrite): Tables {
    match entity
    case NoEntity => s
    case NewTask(task, status) => s.(tasks := s.tasks[task := status])
    case NewRun(run, row) =>
      s.(runs := s.runs[run := row], tasks := SetTask(s.tasks, row.taskId, TaskStatus.Running))
  }

  // UPDATE tasks SET status WHERE task_id: a missing row is not an error.
  function SetTask(tasks: map<TaskId, TaskStatus>, task: TaskId, status: TaskStatus): map<TaskId, TaskStatus> {
    if task in tasks then tasks[task := status] else tasks
  }

  function SetRun(runs: map<RunId, RunRow>, run: RunId, status: RunStatus): map<RunId, RunRow> {
    if run in runs then runs[run := runs[run].(status := status)] else runs
  }

  function AppendCommandBundle(s: Tables, command: CommandId, freshId: EventId, draft: EventDraft,
                               entity: EntityWrite, dispatch: Option<(NodeId, HubToNode)>): (Tables, Result<Outcome>)
  {
    if command in s.receipts then
      (s, Ok(Outcome(s.receipts[command].sequence, s.receipts[command].eventId, false)))
    else if FindEvent(s.events, freshId).Some? || !EntityFits(s, entity)
         || (dispatch.Some? && HasDispatch(s.dispatches, command)) then
      (s, Err)
    else
      var sequence := NextSequence(s.events);
      var logged := s.(events := s.events + [Event(sequence, freshId, Some(command), draft)],
                       receipts := s.receipts[command := Receipt(sequence, freshId)]);
      var written := WriteEntity(logged, entity);
      var queued := if dispatch.None? then written else
        written.(dispatches := written.dispatches + [DispatchRow(command, dispatch.value.0, dispatch.value.1, false)]);
      (queued, Ok(Outcome(sequence, freshId, true)))
  }

  datatype Terminal = Terminal(runStatus: RunStatus, taskStatus: TaskStatus, wakes: bool)

  function TerminalOf(kind: EventKind): Option<Terminal> {
    match kind
    case RunCompleted => Some(Terminal(RunStatus.Completed, TaskStatus.Completed, true))
    case RunFailed => Some(Terminal(RunStatus.Failed, TaskStatus.Failed, true))
    case RunInterrupted => Some(Terminal(RunStatus.Interrupted, TaskStatus.Interrupted, false))
    case _ => None
  }

  // The lifecycle half of a node event; `None` when the wake insert breaks a key.
  function ApplyTerminal(s: Tables, id: EventId, sequence: nat, draft: EventDraft): Option<Tables> {
    var terminal := TerminalOf(draft.kind);
    if terminal.None? || draft.runId.None? then Some(s)
    else
      var updated := s.(runs := SetRun(s.runs, draft.runId.value, terminal.value.runStatus),
                        tasks := SetTask(s.tasks, draft.taskId, terminal.value.taskStatus));
      if !terminal.value.wakes || draft.taskId !in s.workers then Some(updated)
      else if id in s.wakes || exists w :: w in s.wakes && s.wakes[w].sequence == sequence then None
      else
        Some(updated.(wakes := s.wakes[id :=
          Wake(sequence, s.workers[draft.taskId], draft.taskId, draft.runId.value, draft.kind, false)]))
  }

  function AppendNodeEvent(s: Tables, id: EventId, draft: EventDraft): (Tables, Result<Outcome>) {
    var found := FindEvent(s.events, id);
    if found.Some? then (s, Ok(Outcome(s.events[found.value].sequence, id, false)))
    else
      var sequence := NextSequence(s.events);
      var logged := s.(events := s.events + [Event(sequence, id, None, draft)]);
      var applied := ApplyTerminal(logged, id, sequence, draft);
      if applied.None? then (s, Err) else (applied.value, Ok(Outcome(sequence, id, true)))
  }

  predicate AckTarget(row: DispatchRow, command: CommandId, node: NodeId) {
    row.commandId == command && row.nodeId == node && !row.acked
  }

  function AckRows(rows: seq<DispatchRow>, command: CommandId, node: NodeId): (r: seq<DispatchRow>)
    ensures |r| == |rows|
    ensures forall i :: 0 <= i < |rows| ==>
      r[i] == if AckTarget(rows[i], command, node) then rows[i].(acked := true) else rows[i]
  {
    if rows == [] then []
    else
      var last := rows[|rows| - 1];
      AckRows(rows[..|rows| - 1], command, node) +
        [if AckTarget(last, command, node) then last.(acked := true) else last]
  }

  function AcknowledgeFrom(s: Tables, command: CommandId, node: NodeId): Tables {
    s.(dispatches := AckRows(s.dispatches, command, node))
  }

  function RegisterWorker(s: Tables, channel: Channel, task: TaskId): Tables {
    s.(workers := s.workers[task := channel])
  }

  function CompleteWake(s: Tables, id: EventId): Tables {
    if id in s.wakes then s.(wakes := s.wakes[id := s.wakes[id].(processed := true)]) else s
  }

  // ----- queries ----------------------------------------------------------

  // WHERE sequence > after ORDER BY sequence; log order is sequence order (`Gapless`).
  function EventsAfter(events: seq<Event>, after: int): seq<Event> {
    if events == [] then []
    else
      var last := events[|events| - 1];
      EventsAfter(events[..|events| - 1], after) + if last.sequence > after then [last] else []
  }

  function PendingMessages(rows: seq<DispatchRow>, node: NodeId): (r: seq<HubToNode>)
    ensures forall i :: 0 <= i < |rows| && rows[i].nodeId == node && !rows[i].acked ==> rows[i].message in r
    ensures forall m :: m in r ==>
      exists i :: 0 <= i < |rows| && rows[i].nodeId == node && !rows[i].acked && rows[i].message == m
  {
    if rows == [] then []
    else
      var last := rows[|rows| - 1];
      var init := rows[..|rows| - 1];
      assert forall i :: 0 <= i < |init| ==> rows[i] == init[i];
      PendingMessages(init, node) + if last.nodeId == node && !last.acked then [last.message] else []
  }

  // These messages are those of the node's unacknowledged rows, and `at` is where they
  // stand: every such row, and in row order.
  ghost predicate InRowOrder(rows: seq<DispatchRow>, node: NodeId, pending: seq<HubToNode>, at: seq<nat>) {
    && |at| == |pending|
    && (forall k :: 0 <= k < |at| ==> at[k] < |rows| && rows[at[k]].message == pending[k])
    && (forall j, k :: 0 <= j < k < |at| ==> at[j] < at[k])
    && (forall i :: i in at <==> 0 <= i < |rows| && rows[i].nodeId == node && !rows[i].acked)
  }

  ghost predicate OldestFirst(rows: seq<DispatchRow>, node: NodeId, pending: seq<HubToNode>) {
    exists at: seq<nat> :: InRowOrder(rows, node, pending, at)
  }

  lemma RowPassed(rows: seq<DispatchRow>, row: DispatchRow, node: NodeId, pending: seq<HubToNode>, at: seq<nat>)
    requires InRowOrder(rows, node, pending, at) && !(row.nodeId == node && !row.acked)
    ensures InRowOrder(rows + [row], node, pending, at)
  {
  }

  lemma RowTaken(rows: seq<DispatchRow>, row: DispatchRow, node: NodeId, pending: seq<HubToNode>, at: seq<nat>)
    requires InRowOrder(rows, node, pending, at) && row.nodeId == node && !row.acked
    ensures InRowOrder(rows + [row], node, pending + [row.message], at + [|rows|])
  {
    var at', rows' := at + [|rows|], rows + [row];
    forall j, k | 0 <= j < k < |at'|
      ensures at'[j] < at'[k]
    {
      assert at[j] in at;
    }
    assert forall i :: i in at' <==> i in at || i == |rows|;
    assert forall i :: 0 <= i < |rows| ==> rows'[i] == rows[i];
  }

  lemma {:induction false} PendingAt(rows: seq<DispatchRow>, node: NodeId) returns (at: seq<nat>)
    ensures InRowOrder(rows, node, PendingMessages(rows, node), at)
  {
    at := [];
    if rows != [] {
      hide InRowOrder;
      var init, last := rows[..|rows| - 1], rows[|rows| - 1];
      at := PendingAt(init, node);
      var pending := PendingMessages(init, node);
      assert init + [last] == rows && pending + [] == pending;
      if last.nodeId == node && !last.acked {
        RowTaken(init, last, node, pending, at);
        at := at + [|init|];
      } else {
        RowPassed(init, last, node, pending, at);
      }
    }
  }

  lemma PendingOldestFirst(rows: seq<DispatchRow>, node: NodeId)
    ensures OldestFirst(rows, node, PendingMessages(rows, node))
  {
    hide InRowOrder;
    var at := PendingAt(rows, node);
  }

  // There is one such order.
  lemma OneRowOrder(rows: seq<DispatchRow>, node: NodeId, pending: seq<HubToNode>)
    ensures OldestFirst(rows, node, pending) <==> pending == PendingMessages(rows, node)
  {
    var at := PendingAt(rows, node);
    if OldestFirst(rows, node, pending) {
      var at': seq<nat> :| InRowOrder(rows, node, pending, at');
      SameElements(at, at');
    }
  }

  // Two increasing sequences of the same numbers are the same.
  lemma {:induction false} SameElements(a: seq<nat>, b: seq<nat>)
    requires forall j, k :: 0 <= j < k < |a| ==> a[j] < a[k]
    requires forall j, k :: 0 <= j < k < |b| ==> b[j] < b[k]
    requires forall i: nat :: i in a <==> i in b
    ensures a == b
  {
    NothingIn(a);
    NothingIn(b);
    if a != [] && b != [] {
      LastIsSame(a, b);
      LastIsSame(b, a);
      var m, n := |a| - 1, |b| - 1;
      forall i: nat
        ensures i in a[..m] <==> i in b[..n]
      {
        assert i in a <==> i in a[..m] || i == a[m];
        assert i in b <==> i in b[..n] || i == b[n];
      }
      SameElements(a[..m], b[..n]);
      assert a == a[..m] + [a[m]] && b == b[..n] + [b[n]];
    }
  }

  lemma NothingIn(s: seq<nat>)
    ensures s != [] ==> exists i: nat :: i in s
  {
    assert s == [] || s[0] in s;
  }

  lemma LastIsSame(a: seq<nat>, b: seq<nat>)
    requires a != [] && b != [] && forall i: nat :: i in a ==> i in b
    requires forall j, k :: 0 <= j < k < |b| ==> b[j] < b[k]
    ensures a[|a| - 1] <= b[|b| - 1]
  {
    assert a[|a| - 1] in b;
  }

  // ----- what the log says ------------------------------------------------

  // Sequences are exactly 1..n.
  ghost predicate Gapless(events: seq<Event>) {
    forall i :: 0 <= i < |events| ==> events[i].sequence == i + 1
  }

  lemma GaplessNext(events: seq<Event>)
    requires Gapless(events)
    ensures NextSequence(events) == |events| + 1
  {
    if events != [] {
      assert events[|events| - 1] in events;
    }
  }

  // On a gapless log the catch-up query is a suffix of the log.
  lemma {:induction false} EventsAfterIsSuffix(events: seq<Event>, after: int)
    requires Gapless(events)
    ensures EventsAfter(events, after) ==
            if after <= 0 then events else if after <= |events| then events[after..] else []
  {
    if events != [] {
      var init := events[..|events| - 1];
      EventsAfterIsSuffix(init, after);
      assert events == init + [events[|events| - 1]];
    }
  }
}
