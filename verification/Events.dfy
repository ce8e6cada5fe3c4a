// The control-plane vocabulary: identifiers, events, and the two link protocols.
module Events {
  import opened Wrappers

  // UUID-backed identifiers are modelled by numbers; a node picks its own name.
  type TaskId = nat
  type RunId = nat
  type EventId = nat
  type CommandId = nat
  type NodeId = string
  type Channel = string

  const HUB_NODE: NodeId := "hub"
  // The nil UUID, stamped on events that belong to no task.
  const SYSTEM_TASK: TaskId := 0

  datatype EventKind =
    | TaskCreated
    | RunStarted
    | RunInterrupted
    | RunCompleted
    | RunFailed
    | MessageUser
    | MessageAssistantDelta
    | MessageAssistantCompleted
    | ApprovalRequested
    | ApprovalResolved
    | NodeConnected
    | NodeDisconnected

  // `payload` stands for every field the hub only stores and forwards.
  datatype EventDraft = EventDraft(kind: EventKind, taskId: TaskId, runId: Option<RunId>, nodeId: NodeId,
    payload: string)

  datatype Event = Event(sequence: nat, eventId: EventId, commandId: Option<CommandId>, draft: EventDraft)

  datatype TaskStatus = Open | Running | Completed | Failed | Interrupted

  datatype RunStatus = Started | Interrupted | Completed | Failed

  datatype RunRow = RunRow(taskId: TaskId, nodeId: NodeId, status: RunStatus)

  datatype NodeWork =
    | StartRun(runId: RunId, taskId: TaskId, config: string)
    | SendPrompt(taskId: TaskId, runId: RunId, text: string)
    | InterruptRun(runId: RunId)

  datatype HubToNode =
    | DispatchCommand(commandId: CommandId, work: NodeWork)
    | EventAck(eventId: EventId)

  datatype NodeToHub =
    | NodeEvent(eventId: EventId, draft: EventDraft)
    | CommandAck(commandId: CommandId)
}
