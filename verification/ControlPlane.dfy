// The whole control plane as a labelled step function: the hub's store, live
// feed, connection slots and in-progress commands, the network, and the nodes.
//
// A label names the step and settles every choice the environment makes; a label
// whose guard fails changes nothing. One label is one critical section of the
// hub, one frame on a link, or one action of a node, so a run of labels is an
// arbitrary interleaving.
module ControlPlane {
  import opened Wrappers
  import opened Events
  import opened Store
  import opened Ledger
  import opened LiveFeed
  import opened NodeRegistry

  type ProcId = nat

  datatype ClientCommand =
    | CreateTask(commandId: CommandId, title: string)
    | SendUserMessage(commandId: CommandId, taskId: TaskId, toRun: Option<RunId>, text: string)
    | StartRunCommand(commandId: CommandId, taskId: TaskId, preferred: Option<NodeId>, config: string)
    | InterruptRunCommand(commandId: CommandId, runId: RunId)
    | ResolveApproval(commandId: CommandId, taskId: TaskId, approvedRun: RunId, decision: string)

  // A command from a client socket dies with the socket; an in-process one does not.
  datatype Origin = ClientSocket | InProcess

  // How far a command, a worker creation or an event acknowledgement has come.
  datatype Proc =
    | Checked(command: ClientCommand, origin: Origin)
    | Planned(plan: Plan, origin: Origin)
    | Routing(node: NodeId, message: HubToNode, origin: Origin)
    | WorkerCreate(channel: Option<Channel>, node: NodeId)
    | WorkerEnrol(channel: Option<Channel>, node: NodeId, task: TaskId)
    | WorkerStart(channel: Option<Channel>, node: NodeId, task: TaskId)
    | WorkerRoute(node: NodeId, message: HubToNode, task: TaskId, run: RunId)

  function PendingRoute(p: Proc): Option<(NodeId, HubToNode)> {
    match p
    case Routing(node, message, _) => Some((node, message))
    case WorkerRoute(node, message, _, _) => Some((node, message))
    case _ => None
  }

  function EnRoute(procs: map<ProcId, Proc>): set<(NodeId, HubToNode)> {
    set p | p in procs && PendingRoute(procs[p]).Some? :: PendingRoute(procs[p]).value
  }

  // `effects` is history: the dispatches the engine acted on, in order.
  datatype Node = Node(outbox: seq<(EventId, EventDraft)>, seen: set<CommandId>, effects: seq<HubToNode>)

  const FRESH_NODE: Node := Node([], {}, [])

  // Frames may be delivered any number of times, in any order, or dropped.
  // `emitted`, `promised` and `rejected` are history: every event a node ever
  // emitted, those the hub's check would have admitted at that moment, and those
  // the check turned away.
  datatype Net = Net(
    toHub: set<(NodeId, NodeToHub)>,
    toNode: set<(NodeId, HubToNode)>,
    nodes: map<NodeId, Node>,
    emitted: map<EventId, (NodeId, EventDraft)>,
    promised: set<EventId>,
    rejected: set<EventId>)

  // `cache` is the run-to-node binding kept in memory. The last three fields are
  // history: every receipt returned to a client, the runs of workers created for
  // an assistant channel, and the work whose command came in on a client socket.
  datatype Sys = Sys(
    ledger: Ledger,
    feed: Feed,
    registry: Registry,
    cache: map<RunId, (NodeId, TaskId)>,
    procs: map<ProcId, Proc>,
    net: Net,
    answers: set<(CommandId, nat, EventId)>,
    workerRuns: map<RunId, TaskId>,
    socketWork: set<HubToNode>)

  const INIT: Sys :=
    Sys(NEW_LEDGER, Feed(0, [], map[]), NO_NODES, map[], map[], Net({}, {}, map[], map[], {}, {}), {}, map[], {})

  datatype Label =
    // commands
    | Receive(p: ProcId, command: ClientCommand, origin: Origin)
    | Decide(p: ProcId, mintTask: TaskId, mintRun: RunId, fallback: Option<NodeId>, pick: Option<NodeId>)
    | Commit(p: ProcId, mintEvent: EventId)
    | RouteStep(p: ProcId)
    | Abandon(p: ProcId)
    // create_worker_task
    | WorkerBegin(p: ProcId, channel: Option<Channel>, node: NodeId)
    | WorkerCommitTask(p: ProcId, mintCommand: CommandId, mintTask: TaskId, mintEvent: EventId)
    | WorkerEnrolStep(p: ProcId)
    | WorkerCommitRun(p: ProcId, mintCommand: CommandId, mintRun: RunId, mintEvent: EventId)
    | WorkerRouteStep(p: ProcId, mintCommand: CommandId, prompt: string)
    // the rest of the hub's own durable work
    | TrackWorker(forChannel: Channel, task: TaskId, run: RunId)
    | HubRun(mintCommand: CommandId, mintRun: RunId, task: TaskId, mintEvent: EventId)
    | HubMessage(mintCommand: CommandId, task: TaskId, run: RunId, mintEvent: EventId, text: string)
    | HubEvent(mintEvent: EventId, draft: EventDraft)
    | CompleteWakeStep(wake: EventId)
    | CacheRun(run: RunId)
    // clients
    | Subscribe(client: ClientId)
    | SnapshotStep(client: ClientId, cursor: int)
    | PumpStep(client: ClientId)
    | Leave(client: ClientId)
    // node links
    | RegisterNode(node: NodeId)
    | ReadPendingStep(conn: ConnId)
    | ReplayStep(conn: ConnId)
    | HandStep(conn: ConnId)
    | UnregisterNode(conn: ConnId)
    | HubReceive(p: ProcId, from: NodeId, up: NodeToHub)
    | NodeReceive(node: NodeId, down: HubToNode)
    | DropUp(from: NodeId, up: NodeToHub)
    | DropDown(node: NodeId, down: HubToNode)
    // nodes
    | Emit(node: NodeId, mintEvent: EventId, draft: EventDraft)
    | SendEvent(node: NodeId, event: EventId)
    | SendAck(node: NodeId, ack: CommandId)
    // the hub process dies and starts again on the same database
    | HubRestart

  // ----- durable operations, broadcast inside the same lock ---------------------

  function Durable(s: Sys, op: HubOp): (Sys, Result<Outcome>) {
    var (ledger, result) := Perform(s.ledger, op);
    PerformGrows(s.ledger, op);
    var logged := ledger.tables.events[|s.ledger.tables.events|..];
    (s.(ledger := ledger, feed := s.feed.(bus := s.feed.bus + logged)), result)
  }

  predicate FreshEvent(s: Sys, id: EventId) {
    id !in s.net.emitted && FindEvent(s.ledger.tables.events, id).None?
  }

  // ----- commands ---------------------------------------------------------------

  function Binding(s: Sys, run: RunId): Option<(NodeId, TaskId)> {
    if run in s.cache then Some(s.cache[run])
    else if run in s.ledger.tables.runs then
      Some((s.ledger.tables.runs[run].nodeId, s.ledger.tables.runs[run].taskId))
    else None
  }

  // Replays are answered from the receipt before anything else is looked at.
  function DoReceive(s: Sys, p: ProcId, command: ClientCommand, origin: Origin): Sys {
    if p in s.procs then s
    else if command.commandId in s.ledger.tables.receipts then
      var r := s.ledger.tables.receipts[command.commandId];
      s.(answers := s.answers + {(command.commandId, r.sequence, r.eventId)})
    else s.(procs := s.procs[p := Checked(command, origin)])
  }

  // `None` is a rejection. `fallback` is the task's most recent node, if any.
  function PlanFor(s: Sys, command: ClientCommand, task: TaskId, run: RunId, fallback: Option<NodeId>,
                   pick: Option<NodeId>): Option<Plan> {
    match command
    case CreateTask(id, title) => Some(PlanTask(id, task, title))
    case SendUserMessage(id, onTask, toRun, text) =>
      var owner :=
        if toRun.Some? && Binding(s, toRun.value).Some? then Some(Binding(s, toRun.value).value.0) else fallback;
      if owner == Some(HUB_NODE) then None else Some(PlanMessage(id, onTask, toRun, owner, text))
    case StartRunCommand(id, onTask, preferred, config) =>
      if pick.Some? && pick.value in s.registry.slots && (preferred.None? || preferred == pick)
      then Some(PlanRun(id, run, onTask, pick.value, config, true)) else None
    case InterruptRunCommand(id, target) =>
      (match Binding(s, target)
       case None => Some(PlanInterrupt(id, target, SYSTEM_TASK, None))
       case Some(b) => if b.0 == HUB_NODE then None else Some(PlanInterrupt(id, target, b.1, Some(b.0))))
    case ResolveApproval(id, onTask, onRun, decision) => Some(PlanApproval(id, onTask, onRun, decision))
  }

  function DoDecide(s: Sys, p: ProcId, task: TaskId, run: RunId, fallback: Option<NodeId>, pick: Option<NodeId>): Sys {
    if p in s.procs && s.procs[p].Checked? then
      match PlanFor(s, s.procs[p].command, task, run, fallback, pick)
      case None => s.(procs := s.procs - {p})
      case Some(plan) => s.(procs := s.procs[p := Planned(plan, s.procs[p].origin)])
    else s
  }

  // Dispatch only what this very commit created.
  function DoCommit(s: Sys, p: ProcId, id: EventId): Sys {
    if p in s.procs && s.procs[p].Planned? && FreshEvent(s, id) then
      var plan := s.procs[p].plan;
      var (t, result) := Durable(s, Command(plan, id));
      if result.Err? then t.(procs := s.procs - {p})
      else
        var answered := t.(answers := s.answers + {(plan.commandId, result.value.sequence, result.value.eventId)});
        if result.value.created && DispatchOf(plan).Some? then
          var d := DispatchOf(plan).value;
          answered.(procs := s.procs[p := Routing(d.0, d.1, s.procs[p].origin)],
                    cache := if plan.PlanRun? then s.cache[plan.runId := (plan.nodeId, plan.taskId)] else s.cache,
                    socketWork := if s.procs[p].origin == ClientSocket then s.socketWork + {d.1} else s.socketWork)
        else answered.(procs := s.procs - {p})
    else s
  }

  function DoRoute(s: Sys, p: ProcId): Sys {
    if p in s.procs && s.procs[p].Routing? then
      s.(registry := Route(s.registry, s.procs[p].node, s.procs[p].message), procs := s.procs - {p})
    else s
  }

  // The client handler ends when it cannot send the receipt, before routing.
  function DoAbandon(s: Sys, p: ProcId): Sys {
    if p in s.procs && s.procs[p].Routing? && s.procs[p].origin == ClientSocket then
      s.(registry := Skip(s.registry, s.procs[p].node, s.procs[p].message), procs := s.procs - {p})
    else s
  }

  // ----- create_worker_task -----------------------------------------------------------

  function DoWorkerBegin(s: Sys, p: ProcId, channel: Option<Channel>, node: NodeId): Sys {
    if p !in s.procs && node in s.registry.slots then s.(procs := s.procs[p := WorkerCreate(channel, node)]) else s
  }

  function DoWorkerCommitTask(s: Sys, p: ProcId, command: CommandId, task: TaskId, id: EventId): Sys {
    if p in s.procs && s.procs[p].WorkerCreate? && FreshEvent(s, id) && command !in s.ledger.tables.receipts then
      var (t, result) := Durable(s, Command(PlanTask(command, task, ""), id));
      if result.Err? then t.(procs := s.procs - {p})
      else t.(procs := s.procs[p := WorkerEnrol(s.procs[p].channel, s.procs[p].node, task)])
    else s
  }

  function DoWorkerEnrol(s: Sys, p: ProcId): Sys {
    if p in s.procs && s.procs[p].WorkerEnrol? then
      var w := s.procs[p];
      var t := if w.channel.Some? then Durable(s, Enrol(w.channel.value, w.task)).0 else s;
      t.(procs := s.procs[p := WorkerStart(w.channel, w.node, w.task)])
    else s
  }

  function DoWorkerCommitRun(s: Sys, p: ProcId, command: CommandId, run: RunId, id: EventId): Sys {
    if p in s.procs && s.procs[p].WorkerStart? && FreshEvent(s, id) && command !in s.ledger.tables.receipts then
      var w := s.procs[p];
      var plan := PlanRun(command, run, w.task, w.node, "", true);
      var (t, result) := Durable(s, Command(plan, id));
      if result.Err? then t.(procs := s.procs - {p})
      else t.(procs := s.procs[p := WorkerRoute(w.node, DispatchOf(plan).value.1, w.task, run)],
              cache := s.cache[run := (w.node, w.task)],
              workerRuns := if w.channel.Some? then s.workerRuns[run := w.task] else s.workerRuns)
    else s
  }

  // Routes the run and goes on with the prompt as an ordinary in-process command.
  function DoWorkerRoute(s: Sys, p: ProcId, command: CommandId, prompt: string): Sys {
    if p in s.procs && s.procs[p].WorkerRoute? && command !in s.ledger.tables.receipts then
      var w := s.procs[p];
      s.(registry := Route(s.registry, w.node, w.message),
         procs := s.procs[p := Checked(SendUserMessage(command, w.task, Some(w.run), prompt), InProcess)])
    else s
  }

  // ----- the hub's own durable work ------------------------------------------------------

  function DoTrackWorker(s: Sys, channel: Channel, task: TaskId, run: RunId): Sys {
    var b := Binding(s, run);
    if b.Some? && b.value.1 == task && b.value.0 != HUB_NODE then Durable(s, Enrol(channel, task)).0 else s
  }

  function DoHubCommand(s: Sys, plan: Plan, id: EventId): Sys {
    if FreshEvent(s, id) && plan.commandId !in s.ledger.tables.receipts then Durable(s, Command(plan, id)).0 else s
  }

  function DoHubEvent(s: Sys, id: EventId, draft: EventDraft): Sys {
    if FreshEvent(s, id) then Durable(s, NodeAppend(id, draft)).0 else s
  }

  function DoCacheRun(s: Sys, run: RunId): Sys {
    if Binding(s, run).Some? then s.(cache := s.cache[run := Binding(s, run).value]) else s
  }

  // ----- clients ------------------------------------------------------------------------

  function WithClient(s: Sys, k: ClientId, c: Client): Sys {
    s.(feed := s.feed.(clients := s.feed.clients[k := c]))
  }

  function DoClient(s: Sys, l: Label): Sys
    requires l.Subscribe? || l.SnapshotStep? || l.PumpStep? || l.Leave?
  {
    var k := l.client;
    if l.Subscribe? then (if k in s.feed.clients then s else WithClient(s, k, Join(s.feed)))
    else if k !in s.feed.clients then s
    else if l.SnapshotStep? then WithClient(s, k, TakeSnapshot(s.ledger.tables.events, s.feed.clients[k], l.cursor))
    else if l.PumpStep? then WithClient(s, k, Pump(s.ledger.tables.events, s.feed.bus, s.feed.clients[k]))
    else WithClient(s, k, s.feed.clients[k].(phase := Gone))
  }

  // ----- node links -------------------------------------------------------------------------

  function DoRegistry(s: Sys, l: Label): Sys
    requires l.RegisterNode? || l.ReadPendingStep? || l.ReplayStep? || l.UnregisterNode?
  {
    match l
    case RegisterNode(node) => s.(registry := Register(s.registry, node))
    case ReadPendingStep(conn) => s.(registry := ReadPending(s.registry, s.ledger.tables.dispatches, conn))
    case ReplayStep(conn) => s.(registry := ReplayTurn(s.registry, conn))
    case UnregisterNode(conn) => s.(registry := Unregister(s.registry, conn))
  }

  function DoHand(s: Sys, conn: ConnId): Sys {
    if CanHand(s.registry, conn) then
      var c := s.registry.conns[conn];
      s.(registry := Hand(s.registry, conn), net := s.net.(toNode := s.net.toNode + {(c.node, c.channel[0])}))
    else s
  }

  // The hub's check on a node event.
  predicate Admits(s: Sys, from: NodeId, draft: EventDraft) {
    draft.nodeId == from && draft.runId.Some? && Binding(s, draft.runId.value) == Some((from, draft.taskId))
  }

  // An event is acknowledged once it is logged, or turned away.
  function DoHubReceive(s: Sys, p: ProcId, from: NodeId, up: NodeToHub): Sys {
    if (from, up) !in s.net.toHub || p in s.procs then s
    else match up
      case CommandAck(command) => Durable(s, Acknowledge(command, from)).0
      case NodeEvent(id, draft) =>
        if !Admits(s, from, draft) then
          s.(net := s.net.(rejected := s.net.rejected + {id}),
            procs := s.procs[p := Routing(from, EventAck(id), InProcess)])
        else
          var (t, result) := Durable(s, NodeAppend(id, draft));
          if result.Ok? then t.(procs := s.procs[p := Routing(from, EventAck(id), InProcess)]) else t
  }

  function NodeAt(net: Net, n: NodeId): Node {
    if n in net.nodes then net.nodes[n] else FRESH_NODE
  }

  function WithNode(s: Sys, n: NodeId, node: Node): Sys {
    s.(net := s.net.(nodes := s.net.nodes[n := node]))
  }

  function RemoveEvent(outbox: seq<(EventId, EventDraft)>, id: EventId): (r: seq<(EventId, EventDraft)>)
    ensures forall e :: e in r ==> e in outbox
    ensures forall e :: e in outbox && e.0 != id ==> e in r
  {
    if outbox == [] then [] else if outbox[0].0 == id then outbox[1..] else [outbox[0]] + RemoveEvent(outbox[1..], id)
  }

  // The gate: a dispatch the engine has seen before is only acknowledged again.
  function Accept(node: Node, m: HubToNode): Node
    requires m.DispatchCommand?
  {
    if m.commandId in node.seen then node
    else node.(seen := node.seen + {m.commandId}, effects := node.effects + [m])
  }

  function DoNodeReceive(s: Sys, n: NodeId, down: HubToNode): Sys {
    var node := NodeAt(s.net, n);
    if (n, down) !in s.net.toNode then s
    else match down
      case EventAck(id) => WithNode(s, n, node.(outbox := RemoveEvent(node.outbox, id)))
      case DispatchCommand(command, _) => if command in node.seen then s else WithNode(s, n, Accept(node, down))
  }

  function DoEmit(s: Sys, n: NodeId, id: EventId, draft: EventDraft): Sys {
    if FreshEvent(s, id) then
      var node := NodeAt(s.net, n);
      var t := WithNode(s, n, node.(outbox := node.outbox + [(id, draft)]));
      t.(net := t.net.(emitted := s.net.emitted[id := (n, draft)],
                       promised := if Admits(s, n, draft) then s.net.promised + {id} else s.net.promised))
    else s
  }

  function DoSendEvent(s: Sys, n: NodeId, id: EventId): Sys {
    if id in s.net.emitted && (id, s.net.emitted[id].1) in NodeAt(s.net, n).outbox then
      s.(net := s.net.(toHub := s.net.toHub + {(n, NodeEvent(id, s.net.emitted[id].1))}))
    else s
  }

  function DoSendAck(s: Sys, n: NodeId, command: CommandId): Sys {
    if command in NodeAt(s.net, n).seen then
      s.(net := s.net.(toHub := s.net.toHub + {(n, CommandAck(command))}))
    else s
  }

  function DoRestart(s: Sys): Sys {
    s.(feed := Feed(|s.ledger.tables.events|, [], map[]), registry := NO_NODES, cache := map[], procs := map[])
  }

  function Next(s: Sys, l: Label): Sys {
    match l
    case Receive(p, command, origin) => DoReceive(s, p, command, origin)
    case Decide(p, task, run, fallback, pick) => DoDecide(s, p, task, run, fallback, pick)
    case Commit(p, id) => DoCommit(s, p, id)
    case RouteStep(p) => DoRoute(s, p)
    case Abandon(p) => DoAbandon(s, p)
    case WorkerBegin(p, channel, node) => DoWorkerBegin(s, p, channel, node)
    case WorkerCommitTask(p, command, task, id) => DoWorkerCommitTask(s, p, command, task, id)
    case WorkerEnrolStep(p) => DoWorkerEnrol(s, p)
    case WorkerCommitRun(p, command, run, id) => DoWorkerCommitRun(s, p, command, run, id)
    case WorkerRouteStep(p, command, prompt) => DoWorkerRoute(s, p, command, prompt)
    case TrackWorker(channel, task, run) => DoTrackWorker(s, channel, task, run)
    case HubRun(command, run, task, id) => DoHubCommand(s, PlanRun(command, run, task, HUB_NODE, "", false), id)
    case HubMessage(command, task, run, id, text) =>
      DoHubCommand(s, PlanMessage(command, task, Some(run), None, text), id)
    case HubEvent(id, draft) => DoHubEvent(s, id, draft)
    case CompleteWakeStep(wake) => Durable(s, FinishWake(wake)).0
    case CacheRun(run) => DoCacheRun(s, run)
    case Subscribe(_) => DoClient(s, l)
    case SnapshotStep(_, _) => DoClient(s, l)
    case PumpStep(_) => DoClient(s, l)
    case Leave(_) => DoClient(s, l)
    case RegisterNode(_) => DoRegistry(s, l)
    case ReadPendingStep(_) => DoRegistry(s, l)
    case ReplayStep(_) => DoRegistry(s, l)
    case UnregisterNode(_) => DoRegistry(s, l)
    case HandStep(conn) => DoHand(s, conn)
    case HubReceive(p, from, up) => DoHubReceive(s, p, from, up)
    case NodeReceive(n, down) => DoNodeReceive(s, n, down)
    case DropUp(from, up) => s.(net := s.net.(toHub := s.net.toHub - {(from, up)}))
    case DropDown(n, down) => s.(net := s.net.(toNode := s.net.toNode - {(n, down)}))
    case Emit(n, id, draft) => DoEmit(s, n, id, draft)
    case SendEvent(n, id) => DoSendEvent(s, n, id)
    case SendAck(n, command) => DoSendAck(s, n, command)
    case HubRestart => DoRestart(s)
  }

  function Run(labels: seq<Label>): Sys {
    if labels == [] then INIT else Next(Run(labels[..|labels| - 1]), labels[|labels| - 1])
  }

  lemma RunExtends(labels: seq<Label>, l: Label)
    ensures Run(labels + [l]) == Next(Run(labels), l)
  {
    assert (labels + [l])[..|labels|] == labels;
  }
}
