// The status of every task and run, told from the kinds of the events in the log alone:
// the last event that says something about it says what it is.
module Statuses {
  import opened Wrappers
  import opened Events
  import opened Ledger
  import opened ControlPlane
  import ControlPlaneTheorems

  // ----- which events say something ------------------------------------------------------

  predicate IsEnd(kind: EventKind) {
    kind == RunCompleted || kind == RunFailed || kind == RunInterrupted
  }

  // A command starts a run; anything else can only end it.
  function TellsRun(run: RunId): Event -> bool {
    (e: Event) =>
      && e.draft.runId == Some(run)
      && if e.commandId.Some? then e.draft.kind == RunStarted else IsEnd(e.draft.kind)
  }

  // A command opens a task, or starts a run of it; anything else can only end a run of it.
  function TellsTask(task: TaskId): Event -> bool {
    (e: Event) =>
      && e.draft.taskId == task
      && if e.commandId.Some? then e.draft.kind == TaskCreated || (e.draft.kind == RunStarted && e.draft.runId.Some?)
         else IsEnd(e.draft.kind) && e.draft.runId.Some?
  }

  function StartsRun(run: RunId): Event -> bool {
    (e: Event) => e.commandId.Some? && e.draft.kind == RunStarted && e.draft.runId == Some(run)
  }

  function OpensTask(task: TaskId): Event -> bool {
    (e: Event) => e.commandId.Some? && e.draft.kind == TaskCreated && e.draft.taskId == task
  }

  ghost predicate Any(log: seq<Event>, tells: Event -> bool) {
    exists i :: 0 <= i < |log| && tells(log[i])
  }

  ghost predicate Last(log: seq<Event>, tells: Event -> bool, i: nat) {
    i < |log| && tells(log[i]) && forall j :: i < j < |log| ==> !tells(log[j])
  }

  // The last such event is of this kind.
  ghost predicate Says(log: seq<Event>, tells: Event -> bool, kind: EventKind) {
    exists i: nat :: Last(log, tells, i) && log[i].draft.kind == kind
  }

  // The last such event is of this task and this node.
  ghost predicate Places(log: seq<Event>, tells: Event -> bool, task: TaskId, node: NodeId) {
    exists i: nat :: Last(log, tells, i) && log[i].draft.taskId == task && log[i].draft.nodeId == node
  }

  // ----- what the log says of a run and of a task ------------------------------------------

  ghost predicate RunTold(log: seq<Event>, runs: map<RunId, RunRow>, run: RunId) {
    && (run in runs <==> Any(log, StartsRun(run)))
    && (run in runs ==>
         && Places(log, StartsRun(run), runs[run].taskId, runs[run].nodeId)
         && (runs[run].status == RunStatus.Started <==> Says(log, TellsRun(run), RunStarted))
         && (runs[run].status == RunStatus.Completed <==> Says(log, TellsRun(run), RunCompleted))
         && (runs[run].status == RunStatus.Failed <==> Says(log, TellsRun(run), RunFailed))
         && (runs[run].status == RunStatus.Interrupted <==> Says(log, TellsRun(run), RunInterrupted)))
  }

  ghost predicate TaskTold(log: seq<Event>, tasks: map<TaskId, TaskStatus>, task: TaskId) {
    && (task in tasks <==> Any(log, OpensTask(task)))
    && (task in tasks ==>
         && (tasks[task] == TaskStatus.Open <==> Says(log, TellsTask(task), TaskCreated))
         && (tasks[task] == TaskStatus.Running <==> Says(log, TellsTask(task), RunStarted))
         && (tasks[task] == TaskStatus.Completed <==> Says(log, TellsTask(task), RunCompleted))
         && (tasks[task] == TaskStatus.Failed <==> Says(log, TellsTask(task), RunFailed))
         && (tasks[task] == TaskStatus.Interrupted <==> Says(log, TellsTask(task), RunInterrupted)))
  }

  // ----- one more event -----------------------------------------------------------------------

  lemma LastMore(log: seq<Event>, e: Event, tells: Event -> bool, i: nat)
    ensures Last(log + [e], tells, i) <==> if tells(e) then i == |log| else Last(log, tells, i)
    ensures i < |log| ==> (log + [e])[i] == log[i]
    ensures (log + [e])[|log|] == e
  {
    var more := log + [e];
    assert more[|log|] == e && forall j :: 0 <= j < |log| ==> more[j] == log[j];
  }

  lemma SaysMore(log: seq<Event>, e: Event, tells: Event -> bool)
    ensures Any(log + [e], tells) <==> tells(e) || Any(log, tells)
    ensures forall kind :: Says(log + [e], tells, kind) <==>
      if tells(e) then e.draft.kind == kind else Says(log, tells, kind)
    ensures forall task, node :: Places(log + [e], tells, task, node) <==>
      if tells(e) then e.draft.taskId == task && e.draft.nodeId == node else Places(log, tells, task, node)
  {
    forall i: nat
      ensures Last(log + [e], tells, i) <==> if tells(e) then i == |log| else Last(log, tells, i)
      ensures i < |log| ==> (log + [e])[i] == log[i]
    {
      LastMore(log, e, tells, i);
    }
    assert (log + [e])[|log|] == e;
    forall i: nat
      ensures Last(log, tells, i) ==> i < |log|
      ensures tells(e) && i == |log| ==> Last(log + [e], tells, i)
    {
    }
    hide Last;
  }

  lemma RunToldMore(log: seq<Event>, rows: Rows, e: Event, run: RunId)
    requires RunTold(log, rows.runs, run)
    ensures RunTold(log + [e], ReplayOne(rows, e).runs, run)
  {
    hide Any, Says, Places;
    SaysMore(log, e, TellsRun(run));
    SaysMore(log, e, StartsRun(run));
  }

  lemma TaskToldMore(log: seq<Event>, rows: Rows, e: Event, task: TaskId)
    requires TaskTold(log, rows.tasks, task)
    ensures TaskTold(log + [e], ReplayOne(rows, e).tasks, task)
  {
    hide Any, Says, Places;
    SaysMore(log, e, TellsTask(task));
    SaysMore(log, e, OpensTask(task));
  }

  lemma {:induction false} FoldTells(log: seq<Event>, run: RunId, task: TaskId)
    ensures RunTold(log, Replay(log).runs, run) && TaskTold(log, Replay(log).tasks, task)
  {
    if log != [] {
      hide RunTold, TaskTold, ReplayOne;
      var init, last := log[..|log| - 1], log[|log| - 1];
      FoldTells(init, run, task);
      RunToldMore(init, Replay(init), last, run);
      TaskToldMore(init, Replay(init), last, task);
      assert init + [last] == log;
    }
  }

  // ----- over every run -------------------------------------------------------------------

  // A run has a row exactly if a command started it. It is completed, failed or interrupted
  // exactly if the last that the log says of it is that, and started exactly if that is its
  // start; task and node are those of its start.
  lemma RunStatusIsTheLastWord(labels: seq<Label>, run: RunId)
    ensures RunTold(Run(labels).ledger.tables.events, Run(labels).ledger.tables.runs, run)
  {
    hide RunTold, Replay;
    ControlPlaneTheorems.StatusIsTheFoldOfTheLog(labels);
    FoldTells(Run(labels).ledger.tables.events, run, 0);
  }

  // The same for a task: open after its creation, running after the start of a run of it,
  // and ended as that run did.
  lemma TaskStatusIsTheLastWord(labels: seq<Label>, task: TaskId)
    ensures TaskTold(Run(labels).ledger.tables.events, Run(labels).ledger.tables.tasks, task)
  {
    hide TaskTold, Replay;
    ControlPlaneTheorems.StatusIsTheFoldOfTheLog(labels);
    FoldTells(Run(labels).ledger.tables.events, 0, task);
  }
}
