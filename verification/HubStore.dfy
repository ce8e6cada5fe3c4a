// The store as the hub holds it: one object, updated statement by statement
// inside a transaction that is undone when a statement breaks a constraint.
module HubStore {
  import opened Wrappers
  import opened Events
  import opened Store

  // Acknowledging the rows one by one, from the front.
  lemma AckOneMore(rows: seq<DispatchRow>, i: nat, command: CommandId, node: NodeId)
    requires i < |rows|
    ensures
      var done := AckRows(rows[..i], command, node) + rows[i..];
      && done[i] == rows[i]
      && AckRows(rows[..i + 1], command, node) + rows[i + 1..]
         == if AckTarget(rows[i], command, node) then done[i := rows[i].(acked := true)] else done
  {
    assert rows[..i + 1][..i] == rows[..i];
    assert rows[i..] == [rows[i]] + rows[i + 1..];
  }

  ghost predicate AnyTarget(rows: seq<DispatchRow>, n: nat, command: CommandId, node: NodeId)
    requires n <= |rows|
  {
    exists i :: 0 <= i < n && AckTarget(rows[i], command, node)
  }

  lemma AnyOneMore(rows: seq<DispatchRow>, i: nat, command: CommandId, node: NodeId)
    requires i < |rows|
    ensures AnyTarget(rows, i + 1, command, node) <==>
      AnyTarget(rows, i, command, node) || AckTarget(rows[i], command, node)
  {
  }

  lemma NoneBefore(rows: seq<DispatchRow>, command: CommandId, node: NodeId)
    ensures AckRows(rows[..0], command, node) + rows[0..] == rows && !AnyTarget(rows, 0, command, node)
  {
  }

  lemma NonePending(rows: seq<DispatchRow>, node: NodeId)
    requires rows == []
    ensures PendingMessages(rows, node) == []
  {
  }

  lemma PendingOneMore(rows: seq<DispatchRow>, i: nat, node: NodeId)
    requires i < |rows|
    ensures PendingMessages(rows[..i + 1], node) ==
            PendingMessages(rows[..i], node)
            + if rows[i].nodeId == node && !rows[i].acked then [rows[i].message] else []
    ensures PendingMessages(rows[..i], node) + [] == PendingMessages(rows[..i], node)
  {
    assert rows[..i + 1][..i] == rows[..i];
  }

  class Hub {
    var events: seq<Event>
    var receipts: map<CommandId, Receipt>
    var tasks: map<TaskId, TaskStatus>
    var runs: map<RunId, RunRow>
    var dispatches: seq<DispatchRow>
    var workers: map<TaskId, Channel>
    var wakes: map<EventId, Wake>

    function Tables(): Tables
      reads this
    {
      Store.Tables(events, receipts, tasks, runs, dispatches, workers, wakes)
    }

    constructor ()
      ensures Tables() == EMPTY
    {
      events, receipts, tasks, runs, dispatches, workers, wakes := [], map[], map[], map[], [], map[], map[];
    }

    method Rollback(saved: Tables)
      modifies this
      ensures Tables() == saved
    {
      events, receipts, tasks, runs, dispatches, workers, wakes :=
        saved.events, saved.receipts, saved.tasks, saved.runs, saved.dispatches, saved.workers, saved.wakes;
    }

    method InsertEvent(sequence: nat, id: EventId, command: Option<CommandId>, draft: EventDraft) returns (ok: bool)
      modifies `events
      ensures ok == FindEvent(old(events), id).None?
      ensures events == if ok then old(events) + [Event(sequence, id, command, draft)] else old(events)
    {
      ok := FindEvent(events, id).None?;
      if ok {
        events := events + [Event(sequence, id, command, draft)];
      }
    }

    method InsertEntity(entity: EntityWrite) returns (ok: bool)
      modifies `tasks, `runs
      ensures ok == EntityFits(old(Tables()), entity)
      ensures Tables() == if ok then WriteEntity(old(Tables()), entity) else old(Tables())
    {
      ok := true;
      match entity {
        case NoEntity =>
        case NewTask(task, status) =>
          ok := task !in tasks;
          if ok {
            tasks := tasks[task := status];
          }
        case NewRun(run, row) =>
          ok := run !in runs;
          if ok {
            runs := runs[run := row];
            UpdateTask(row.taskId, TaskStatus.Running);
          }
      }
    }

    method UpdateTask(task: TaskId, status: TaskStatus)
      modifies `tasks
      ensures tasks == SetTask(old(tasks), task, status)
    {
      if task in tasks {
        tasks := tasks[task := status];
      }
    }

    method InsertDispatch(command: CommandId, node: NodeId, message: HubToNode) returns (ok: bool)
      modifies `dispatches
      ensures ok == !HasDispatch(old(dispatches), command)
      ensures dispatches == if ok then old(dispatches) + [DispatchRow(command, node, message, false)]
        else old(dispatches)
    {
      ok := true;
      for i := 0 to |dispatches|
        invariant ok == forall j :: 0 <= j < i ==> dispatches[j].commandId != command
      {
        if dispatches[i].commandId == command {
          ok := false;
        }
      }
      if ok {
        dispatches := dispatches + [DispatchRow(command, node, message, false)];
      }
    }

    method AppendCommandBundle(command: CommandId, freshId: EventId, draft: EventDraft,
                               entity: EntityWrite, dispatch: Option<(NodeId, HubToNode)>)
      returns (result: Result<Outcome>)
      modifies this
      ensures (Tables(), result) == Store.AppendCommandBundle(old(Tables()), command, freshId, draft, entity, dispatch)
    {
      if command in receipts {
        return Ok(Outcome(receipts[command].sequence, receipts[command].eventId, false));
      }
      var saved := Tables();
      var sequence := NextSequence(events);
      var ok := InsertEvent(sequence, freshId, Some(command), draft);
      if ok {
        receipts := receipts[command := Receipt(sequence, freshId)];
        ok := InsertEntity(entity);
      }
      if ok && dispatch.Some? {
        ok := InsertDispatch(command, dispatch.value.0, dispatch.value.1);
      }
      if !ok {
        Rollback(saved);
        return Err;
      }
      return Ok(Outcome(sequence, freshId, true));
    }

    method InsertWake(id: EventId, wake: Wake) returns (ok: bool)
      modifies `wakes
      ensures ok == !(id in old(wakes) || exists w :: w in old(wakes) && old(wakes)[w].sequence == wake.sequence)
      ensures wakes == if ok then old(wakes)[id := wake] else old(wakes)
    {
      ok := id !in wakes && forall w :: w in wakes ==> wakes[w].sequence != wake.sequence;
      if ok {
        wakes := wakes[id := wake];
      }
    }

    method ApplyTerminal(id: EventId, sequence: nat, draft: EventDraft) returns (ok: bool)
      modifies `runs, `tasks, `wakes
      ensures ok == Store.ApplyTerminal(old(Tables()), id, sequence, draft).Some?
      ensures ok ==> Tables() == Store.ApplyTerminal(old(Tables()), id, sequence, draft).value
    {
      ok := true;
      var terminal := TerminalOf(draft.kind);
      if terminal.None? {
        return;
      }
      if draft.runId.None? {
        return;
      }
      var run := draft.runId.value;
      if run in runs {
        runs := runs[run := runs[run].(status := terminal.value.runStatus)];
      }
      UpdateTask(draft.taskId, terminal.value.taskStatus);
      if !terminal.value.wakes {
        return;
      }
      if draft.taskId in workers {
        ok := InsertWake(id, Wake(sequence, workers[draft.taskId], draft.taskId, run, draft.kind, false));
      }
    }

    method AppendNodeEvent(id: EventId, draft: EventDraft) returns (result: Result<Outcome>)
      modifies this
      ensures (Tables(), result) == Store.AppendNodeEvent(old(Tables()), id, draft)
    {
      var found := FindEvent(events, id);
      if found.Some? {
        return Ok(Outcome(events[found.value].sequence, id, false));
      }
      var saved := Tables();
      var sequence := NextSequence(events);
      var inserted := InsertEvent(sequence, id, None, draft);
      var applied := ApplyTerminal(id, sequence, draft);
      if !applied {
        Rollback(saved);
        return Err;
      }
      return Ok(Outcome(sequence, id, true));
    }

    // The number of rows the UPDATE touched is at most one when command ids are
    // unique, so the answer is whether it touched any.
    method AcknowledgeDispatchFrom(command: CommandId, node: NodeId) returns (changed: bool)
      modifies `dispatches
      ensures Tables() == AcknowledgeFrom(old(Tables()), command, node)
      ensures changed == exists i :: 0 <= i < |old(dispatches)| && AckTarget(old(dispatches)[i], command, node)
    {
      hide AckRows, AckTarget;
      changed := false;
      ghost var was := dispatches;
      NoneBefore(was, command, node);
      for i := 0 to |dispatches|
        invariant |dispatches| == |was| && dispatches == AckRows(was[..i], command, node) + was[i..]
        invariant changed == AnyTarget(was, i, command, node)
      {
        AckOneMore(was, i, command, node);
        AnyOneMore(was, i, command, node);
        if AckTarget(dispatches[i], command, node) {
          dispatches := dispatches[i := dispatches[i].(acked := true)];
          changed := true;
        }
      }
      assert was[..|was|] == was;
    }

    method RegisterAssistantWorker(channel: Channel, task: TaskId)
      modifies `workers
      ensures Tables() == RegisterWorker(old(Tables()), channel, task)
    {
      workers := workers[task := channel];
    }

    method CompleteAssistantWake(id: EventId) returns (changed: bool)
      modifies `wakes
      ensures wakes == if id in old(wakes) then old(wakes)[id := old(wakes)[id].(processed := true)] else old(wakes)
      ensures Tables() == CompleteWake(old(Tables()), id)
      ensures changed == (id in old(wakes) && !old(wakes)[id].processed)
    {
      changed := id in wakes && !wakes[id].processed;
      if changed {
        wakes := wakes[id := wakes[id].(processed := true)];
      }
    }

    // Unacknowledged work for one node, oldest first.
    method PendingDispatches(node: NodeId) returns (pending: seq<HubToNode>)
      ensures OldestFirst(dispatches, node, pending)
      ensures pending == PendingMessages(dispatches, node)
    {
      hide PendingMessages, OldestFirst;
      PendingOldestFirst(dispatches, node);
      NonePending(dispatches[..0], node);
      pending := [];
      for i := 0 to |dispatches|
        invariant pending == PendingMessages(dispatches[..i], node)
      {
        PendingOneMore(dispatches, i, node);
        if dispatches[i].nodeId == node && !dispatches[i].acked {
          pending := pending + [dispatches[i].message];
        }
      }
      assert dispatches[..|dispatches|] == dispatches;
    }
  }
}
