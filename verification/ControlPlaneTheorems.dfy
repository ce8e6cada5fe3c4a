// What holds in every state the control plane can reach.
module ControlPlaneTheorems {
  import opened Wrappers
  import opened Events
  import opened Store
  import opened Ledger
  import opened LiveFeed
  import opened NodeRegistry
  import opened ControlPlane
  import opened StoreRuns
  import opened DispatchRuns
  import opened DeliveryRuns
  import opened NodeSteps
  import opened WorkerRuns

  ghost predicate SysInv(s: Sys) {
    StoreInv(s) && DispatchInv(s) && NetInv(s) && WorkerInv(s)
  }

  lemma StepKeepsInv(s: Sys, l: Label)
    requires SysInv(s)
    ensures SysInv(Next(s, l))
  {
    StepKeepsStore(s, l);
    StepKeepsDispatch(s, l);
    StepKeepsNet(s, l);
    StepKeepsWorkers(s, l);
  }

  lemma FirstState()
    ensures SysInv(INIT)
  {
  }

  lemma {:induction false} EveryReachableState(labels: seq<Label>)
    ensures SysInv(Run(labels))
  {
    if labels == [] {
      FirstState();
    } else {
      hide SysInv;
      EveryReachableState(labels[..|labels| - 1]);
      StepKeepsInv(Run(labels[..|labels| - 1]), labels[|labels| - 1]);
    }
  }

  lemma ReachableStore(labels: seq<Label>)
    ensures StoreInv(Run(labels))
  {
    EveryReachableState(labels);
  }

  lemma ReachableDispatch(labels: seq<Label>)
    ensures DispatchInv(Run(labels))
  {
    EveryReachableState(labels);
  }

  lemma ReachableNet(labels: seq<Label>)
    ensures NetInv(Run(labels))
  {
    EveryReachableState(labels);
  }

  lemma LogAndReceipts(t: Tables)
    requires Gapless(t.events) && UniqueIds(t.events) && ReceiptsMatchLog(t)
    ensures forall i :: 0 <= i < |t.events| ==> t.events[i].sequence == i + 1
    ensures forall i, j :: 0 <= i < |t.events| && 0 <= j < |t.events| ==>
      t.events[i].eventId == t.events[j].eventId ==> i == j
    ensures forall i, j :: 0 <= i < |t.events| && 0 <= j < |t.events| ==>
                             t.events[i].commandId.Some? && t.events[i].commandId == t.events[j].commandId ==> i == j
    ensures forall c :: c in t.receipts <==> exists i :: 0 <= i < |t.events| && t.events[i].commandId == Some(c)
  {
  }

  lemma OneAnswer(t: Tables, answers: set<(CommandId, nat, EventId)>)
    requires AnswersHold(t, answers) && ReceiptsNameEvents(t)
    ensures forall a, b :: a in answers && b in answers && a.0 == b.0 ==> a == b
    ensures forall a :: a in answers ==>
      1 <= a.1 <= |t.events| && t.events[a.1 - 1].eventId == a.2 && t.events[a.1 - 1].commandId == Some(a.0)
  {
  }

  // The log is 1..n without gaps or repeated ids; receipts and command events
  // correspond one to one; and every receipt ever returned, to however many copies
  // of a command, names the one event of that command.
  lemma LogReceiptsAndAnswers(labels: seq<Label>)
    ensures
      var s := Run(labels);
      var t := s.ledger.tables;
      && (forall i :: 0 <= i < |t.events| ==> t.events[i].sequence == i + 1)
      && (forall i, j :: 0 <= i < |t.events| && 0 <= j < |t.events| ==>
           t.events[i].eventId == t.events[j].eventId ==> i == j)
      && (forall i, j :: 0 <= i < |t.events| && 0 <= j < |t.events| ==>
            t.events[i].commandId.Some? && t.events[i].commandId == t.events[j].commandId ==> i == j)
      && (forall c :: c in t.receipts <==> exists i :: 0 <= i < |t.events| && t.events[i].commandId == Some(c))
      && (forall a, b :: a in s.answers && b in s.answers && a.0 == b.0 ==> a == b)
      && (forall a :: a in s.answers ==>
           1 <= a.1 <= |t.events| && t.events[a.1 - 1].eventId == a.2 && t.events[a.1 - 1].commandId == Some(a.0))
  {
    EveryReachableState(labels);
    LogAndReceipts(Run(labels).ledger.tables);
    OneAnswer(Run(labels).ledger.tables, Run(labels).answers);
  }

  // The status columns are the left fold of the log.
  lemma StatusIsTheFoldOfTheLog(labels: seq<Label>)
    ensures
      var t := Run(labels).ledger.tables;
      Rows(t.tasks, t.runs) == Replay(t.events)
  {
    ReachableStore(labels);
  }

  // A client holds exactly the log from its cursor on, as far as it has come, and
  // once it has drained the bus it has come to the head. The cursor must not have
  // been ahead of the log; one that was is moved back to the head.
  lemma ClientsMissNothing(labels: seq<Label>, k: ClientId)
    requires k in Run(labels).feed.clients
    ensures
      var s := Run(labels);
      var log, c := s.ledger.tables.events, s.feed.clients[k];
      && c.start + |c.delivered| <= |log|
      && c.delivered == log[c.start..c.start + |c.delivered|]
      && (0 <= c.cursor ==> (c.start == c.cursor <==> c.cursor <= c.joinedAt))
      && (c.phase.Live? && c.next == |s.feed.bus| ==> c.delivered == log[c.start..])
  {
    ReachableStore(labels);
    hide LedgerInv;
    var s := Run(labels);
    DeliveryIsContiguous(s.ledger.tables.events, s.feed, k);
    if s.feed.clients[k].phase.Live? && s.feed.clients[k].next == |s.feed.bus| {
      IdleClientIsCurrent(s.ledger.tables.events, s.feed, k);
    }
  }

  // A cursor that is ahead of the log: in any run, a client that joins with one is
  // served from the head, not from where it asked.
  lemma CursorAheadStartsAtTheHead(labels: seq<Label>, k: ClientId, cursor: int)
    requires k !in Run(labels).feed.clients && cursor > |Run(labels).ledger.tables.events|
    ensures
      var s := Run(labels + [Subscribe(k)] + [SnapshotStep(k, cursor)]);
      && k in s.feed.clients && s.feed.clients[k].cursor == cursor
      && s.feed.clients[k].start == |s.ledger.tables.events| < cursor
  {
    hide Run, LedgerInv, FeedInv;
    ReachableStore(labels);
    RunExtends(labels, Subscribe(k));
    RunExtends(labels + [Subscribe(k)], SnapshotStep(k, cursor));
    SnapshotOf(Run(labels), k, cursor);
  }

  lemma SnapshotOf(s: Sys, k: ClientId, cursor: int)
    requires StoreInv(s) && k !in s.feed.clients
    ensures
      var t := DoClient(DoClient(s, Subscribe(k)), SnapshotStep(k, cursor));
      && t.ledger == s.ledger && k in t.feed.clients && t.feed.clients[k].cursor == cursor
      && t.feed.clients[k].phase.CatchUp?
      && t.feed.clients[k].start == StartOf(cursor, |s.ledger.tables.events|)
  {
    assert Gapless(s.ledger.tables.events);
    hide LedgerInv, FeedInv, Snapshot;
    SnapshotIsExact(s.ledger.tables.events, cursor);
  }

  // No stranded dispatch.
  lemma NoStrandedDispatch(labels: seq<Label>, n: NodeId, row: DispatchRow)
    requires n in Run(labels).registry.slots
    requires row in Run(labels).ledger.tables.dispatches && row.nodeId == n && !row.acked
    ensures
      var s := Run(labels);
      var id := s.registry.slots[n];
      && id in s.registry.conns
      && s.registry.conns[id].node == n
      && (s.registry.conns[id].replay.Replayed? ==>
            || row.message in s.registry.conns[id].channel
            || row.message in s.registry.conns[id].handed
            || row.message in s.registry.conns[id].skipped
            || (n, row.message) in EnRoute(s.procs))
  {
    ReachableDispatch(labels);
    var s := Run(labels);
    var i :| 0 <= i < |s.ledger.tables.dispatches| && s.ledger.tables.dispatches[i] == row;
    assert RowCovered(s.registry, s.ledger.tables.dispatches[i], EnRoute(s.procs));
  }

  // For work that did not come in on a client socket there is no exception left:
  // submit_command and create_worker_task always get to the route step.
  lemma InProcessWorkIsNeverStranded(labels: seq<Label>, n: NodeId, row: DispatchRow)
    requires n in Run(labels).registry.slots
    requires row in Run(labels).ledger.tables.dispatches && row.nodeId == n && !row.acked
    requires row.message !in Run(labels).socketWork
    ensures
      var s := Run(labels);
      var id := s.registry.slots[n];
      && id in s.registry.conns
      && (s.registry.conns[id].replay.Replayed? ==>
            || row.message in s.registry.conns[id].channel + s.registry.conns[id].handed
            || (n, row.message) in EnRoute(s.procs))
  {
    NoStrandedDispatch(labels, n, row);
    SocketWorkOnly(labels);
  }

  ghost predicate SocketInv(s: Sys) {
    && (forall p :: p in s.procs && s.procs[p].Routing? && s.procs[p].origin == ClientSocket ==>
         s.procs[p].message in s.socketWork)
    && SkippedWithin(s.registry, s.socketWork)
  }

  lemma CommitKeepsSocket(s: Sys, p: ProcId, id: EventId)
    requires SocketInv(s)
    ensures SocketInv(DoCommit(s, p, id))
  {
    hide Perform, FreshEvent, DispatchOf;
    var t := DoCommit(s, p, id);
    assert t.registry == s.registry && s.socketWork <= t.socketWork;
    assert forall q :: q in t.procs && q != p ==> q in s.procs && t.procs[q] == s.procs[q];
  }

  // Any other step leaves other processes alone and starts no routing for a socket.
  ghost predicate SocketQuiet(s: Sys, t: Sys) {
    && t.socketWork == s.socketWork
    && forall p :: p in t.procs && t.procs[p].Routing? && t.procs[p].origin == ClientSocket ==>
         p in s.procs && t.procs[p] == s.procs[p]
  }

  ghost predicate CommandStep(l: Label) {
    l.Receive? || l.Decide? || l.RouteStep? || l.Abandon? || l.WorkerBegin? || l.WorkerRouteStep? || l.WorkerCommitTask?
  }

  lemma CommandStepIsSocketQuiet(s: Sys, l: Label)
    requires CommandStep(l)
    ensures SocketQuiet(s, Next(s, l))
  {
    hide Perform, PlanFor, Route, Skip, FreshEvent, DoCommit, DoWorkerEnrol, DoWorkerCommitRun, DoTrackWorker;
    hide DoHubCommand, DoHubEvent, DoCacheRun, DoClient, DoRegistry, DoHand, DoHubReceive, DoNodeReceive, DoEmit;
    hide DoSendEvent, DoSendAck, DoRestart;
  }

  lemma HubReceiveIsSocketQuiet(s: Sys, p: ProcId, from: NodeId, up: NodeToHub)
    ensures SocketQuiet(s, DoHubReceive(s, p, from, up))
  {
    hide Perform, Admits;
  }

  lemma HubStepIsSocketQuiet(s: Sys, l: Label)
    requires l.WorkerEnrolStep? || l.WorkerCommitRun? || l.HubRestart?
    ensures SocketQuiet(s, Next(s, l))
  {
    hide Perform;
  }

  ghost predicate ProcessStep(l: Label) {
    l.Commit? || CommandStep(l) || l.WorkerEnrolStep? || l.WorkerCommitRun? || l.HubReceive? || l.HubRestart?
  }

  // No process takes part in any other step.
  lemma OtherStepIsSocketQuiet(s: Sys, l: Label)
    requires !ProcessStep(l)
    ensures SocketQuiet(s, Next(s, l))
  {
    hide SocketQuiet;
    OtherStepKeepsProcesses(s, l);
    SameProcessesAreQuiet(s, Next(s, l));
  }

  lemma SameProcessesAreQuiet(s: Sys, t: Sys)
    requires t.procs == s.procs && t.socketWork == s.socketWork
    ensures SocketQuiet(s, t)
  {
  }

  lemma OtherStepKeepsProcesses(s: Sys, l: Label)
    requires !ProcessStep(l)
    ensures Next(s, l).procs == s.procs && Next(s, l).socketWork == s.socketWork
  {
    hide DoCommit, DoReceive, DoDecide, DoRoute, DoAbandon, DoWorkerBegin, DoWorkerRoute, DoWorkerCommitTask;
    hide DoWorkerEnrol, DoWorkerCommitRun, DoHubReceive, DoRestart, FreshEvent;
    hide Perform, Register, Unregister, ReplayTurn, ReadPending, Hand, RemoveEvent, Accept, Pump, TakeSnapshot, Admits;
  }

  lemma StepIsSocketQuiet(s: Sys, l: Label)
    requires !l.Commit?
    ensures SocketQuiet(s, Next(s, l))
  {
    if CommandStep(l) {
      CommandStepIsSocketQuiet(s, l);
    } else if l.HubReceive? {
      HubReceiveIsSocketQuiet(s, l.p, l.from, l.up);
    } else if l.WorkerEnrolStep? || l.WorkerCommitRun? || l.HubRestart? {
      HubStepIsSocketQuiet(s, l);
    } else {
      OtherStepIsSocketQuiet(s, l);
    }
  }

  ghost predicate SkippedWithin(r: Registry, work: set<HubToNode>) {
    forall c :: c in r.conns ==> r.conns[c].skipped <= work
  }

  lemma RegistrySkipsOnlyOnSkip(r: Registry, work: set<HubToNode>, n: NodeId, m: HubToNode, id: ConnId,
                                rows: seq<DispatchRow>)
    requires SkippedWithin(r, work)
    ensures SkippedWithin(Register(r, n), work) && SkippedWithin(Unregister(r, id), work)
    ensures SkippedWithin(Route(r, n, m), work) && SkippedWithin(ReadPending(r, rows, id), work)
    ensures CanHand(r, id) ==> SkippedWithin(Hand(r, id), work)
    ensures m in work ==> SkippedWithin(Skip(r, n, m), work)
  {
  }

  lemma ReplaySkipsNothing(r: Registry, work: set<HubToNode>, id: ConnId)
    requires SkippedWithin(r, work)
    ensures SkippedWithin(ReplayTurn(r, id), work)
  {
  }

  ghost predicate RegistryStep(l: Label) {
    || l.RouteStep? || l.Abandon? || l.WorkerRouteStep? || l.RegisterNode? || l.ReadPendingStep? || l.HandStep?
    || l.UnregisterNode? || l.ReplayStep? || l.HubRestart?
  }

  ghost predicate CommittingStep(l: Label) {
    l.Commit? || l.WorkerCommitTask? || l.WorkerEnrolStep? || l.WorkerCommitRun?
  }

  lemma CommittingKeepsRegistry(s: Sys, l: Label)
    requires CommittingStep(l)
    ensures Next(s, l).registry == s.registry
  {
    hide Perform, FreshEvent, DoTrackWorker, DoHubCommand, DoHubEvent, DoCacheRun, DoClient, DoRegistry, DoReceive,
      DoDecide;
    hide DoHand, DoNodeReceive, DoEmit, DoSendEvent, DoSendAck, DoRestart, DoRoute, DoAbandon, DoWorkerRoute,
      DoWorkerBegin;
    hide DoHubReceive;
  }

  ghost predicate PlanningStep(l: Label) {
    l.Receive? || l.Decide? || l.WorkerBegin? || l.HubReceive?
  }

  lemma PlanningKeepsRegistry(s: Sys, l: Label)
    requires PlanningStep(l)
    ensures Next(s, l).registry == s.registry
  {
    hide Perform, PlanFor, Admits, DoTrackWorker, DoHubCommand, DoHubEvent, DoCacheRun, DoClient, DoRegistry, DoCommit;
    hide DoHand, DoNodeReceive, DoEmit, DoSendEvent, DoSendAck, DoRestart, DoRoute, DoAbandon, DoWorkerRoute;
    hide DoWorkerCommitTask, DoWorkerEnrol, DoWorkerCommitRun;
  }

  lemma OtherStepKeepsRegistry(s: Sys, l: Label)
    requires !RegistryStep(l)
    ensures Next(s, l).registry == s.registry
  {
    hide Perform, RemoveEvent, Accept, Pump, TakeSnapshot, Admits, Binding, FreshEvent, DoCommit, DoReceive, DoDecide;
    hide DoRoute, DoAbandon, DoWorkerBegin, DoWorkerRoute, DoWorkerCommitTask, DoWorkerEnrol, DoWorkerCommitRun;
    hide DoHubReceive, DoRestart, DoRegistry, DoHand;
    if CommittingStep(l) {
      CommittingKeepsRegistry(s, l);
    } else if PlanningStep(l) {
      PlanningKeepsRegistry(s, l);
    }
  }

  lemma RoutingKeepsSocket(s: Sys, l: Label)
    requires SocketInv(s) && (l.RouteStep? || l.Abandon? || l.WorkerRouteStep?)
    ensures SkippedWithin(Next(s, l).registry, s.socketWork)
  {
    if l.p in s.procs && (s.procs[l.p].Routing? || s.procs[l.p].WorkerRoute?) {
      RegistrySkipsOnlyOnSkip(s.registry, s.socketWork, s.procs[l.p].node, s.procs[l.p].message, 0, []);
    }
  }

  lemma LinkKeepsSocket(s: Sys, l: Label)
    requires SocketInv(s) &&
      (l.RegisterNode? || l.ReadPendingStep? || l.HandStep? || l.UnregisterNode? || l.ReplayStep?)
    ensures SkippedWithin(Next(s, l).registry, s.socketWork)
  {
    hide SkippedWithin, Register, Unregister, ReadPending, Hand, ReplayTurn;
    var r, work, rows := s.registry, s.socketWork, s.ledger.tables.dispatches;
    if l.RegisterNode? {
      RegistrySkipsOnlyOnSkip(r, work, l.node, EventAck(0), 0, rows);
    } else if l.ReplayStep? {
      ReplaySkipsNothing(r, work, l.conn);
    } else {
      RegistrySkipsOnlyOnSkip(r, work, "", EventAck(0), l.conn, rows);
    }
  }

  lemma RegistryKeepsSocket(s: Sys, l: Label)
    requires SocketInv(s) && !l.Commit?
    ensures SkippedWithin(Next(s, l).registry, s.socketWork)
  {
    if !RegistryStep(l) {
      OtherStepKeepsRegistry(s, l);
    } else if l.RouteStep? || l.Abandon? || l.WorkerRouteStep? {
      RoutingKeepsSocket(s, l);
    } else if !l.HubRestart? {
      LinkKeepsSocket(s, l);
    }
  }

  lemma StepKeepsSocket(s: Sys, l: Label)
    requires SocketInv(s)
    ensures SocketInv(Next(s, l))
  {
    if l.Commit? {
      CommitKeepsSocket(s, l.p, l.mintEvent);
    } else {
      StepIsSocketQuiet(s, l);
      RegistryKeepsSocket(s, l);
    }
  }

  lemma {:induction false} SocketWorkOnly(labels: seq<Label>)
    ensures SocketInv(Run(labels))
  {
    if labels != [] {
      SocketWorkOnly(labels[..|labels| - 1]);
      StepKeepsSocket(Run(labels[..|labels| - 1]), labels[|labels| - 1]);
    }
  }

  // The slot is empty or holds the newest connection of its node.
  lemma SlotHoldsTheNewest(labels: seq<Label>, n: NodeId, id: ConnId)
    requires n in Run(labels).registry.slots
    requires id in Run(labels).registry.conns && Run(labels).registry.conns[id].node == n
    ensures
      var r := Run(labels).registry;
      n in r.newest && r.slots[n] == r.newest[n] && id <= r.slots[n]
  {
    ReachableDispatch(labels);
    hide CoverInv;
  }

  // Exactly once: an event a node emitted, and the hub's check would have admitted
  // then, is in the node's outbox or in the log; it is in the log at most once, as
  // it was emitted.
  lemma EmittedEventsArriveOnce(labels: seq<Label>, id: EventId)
    requires id in Run(labels).net.promised
    ensures
      var s := Run(labels);
      var log := s.ledger.tables.events;
      && id in s.net.emitted
      && ((id, s.net.emitted[id].1) in NodeAt(s.net, s.net.emitted[id].0).outbox || Logged(log, id))
      && (forall i, j :: 0 <= i < |log| && 0 <= j < |log| && log[i].eventId == id && log[j].eventId == id ==> i == j)
      && (forall i :: 0 <= i < |log| && log[i].eventId == id ==>
           log[i].draft == s.net.emitted[id].1 && log[i].commandId.None?)
  {
    ReachableStore(labels);
    ReachableNet(labels);
    var s := Run(labels);
    assert Kept(s.ledger.tables.events, s.net, id);
  }

  // Of all emitted events, exactly those the check turned away may leave an outbox
  // without entering the log, and none of them was admissible when it was emitted.
  lemma NothingElseIsDropped(labels: seq<Label>, id: EventId)
    requires id in Run(labels).net.emitted
    ensures
      var s := Run(labels);
      || (id, s.net.emitted[id].1) in NodeAt(s.net, s.net.emitted[id].0).outbox
      || Logged(s.ledger.tables.events, id)
      || (id in s.net.rejected && id !in s.net.promised)
  {
    ReachableNet(labels);
    var s := Run(labels);
    assert Kept(s.ledger.tables.events, s.net, id);
  }

  predicate SameWork(m: HubToNode, m': HubToNode) {
    m.DispatchCommand? && m'.DispatchCommand? && m.commandId == m'.commandId
  }

  // An engine acts on a command id once, on the very message of its dispatch row,
  // and a row is acknowledged only after its own node recorded the id.
  lemma WorkHasOneEffect(labels: seq<Label>, n: NodeId)
    ensures
      var s := Run(labels);
      var effects := NodeAt(s.net, n).effects;
      && (forall i, j :: 0 <= i < |effects| && 0 <= j < |effects| && SameWork(effects[i], effects[j]) ==> i == j)
      && (forall i :: 0 <= i < |effects| ==>
           effects[i].DispatchCommand? && HasRow(s.ledger.tables.dispatches, n, effects[i]))
      && (forall row :: row in s.ledger.tables.dispatches && row.nodeId == n && row.acked ==> row.message in effects)
  {
    EveryReachableState(labels);
    var s := Run(labels);
    var effects := NodeAt(s.net, n).effects;
    EngineAt(s.ledger.tables.dispatches, s.net, n);
    forall row | row in s.ledger.tables.dispatches && row.nodeId == n && row.acked
      ensures row.message in effects
    {
      AckedWorkWasDone(s, n, row);
    }
  }

  lemma AckedWorkWasDone(s: Sys, n: NodeId, row: DispatchRow)
    requires DispatchesMatchReceipts(s.ledger.tables) && AcksTrue(s.ledger.tables.dispatches, s.net)
    requires EngineOk(s.ledger.tables.dispatches, n, NodeAt(s.net, n))
    requires row in s.ledger.tables.dispatches && row.nodeId == n && row.acked
    ensures row.message in NodeAt(s.net, n).effects
  {
    var rows, node := s.ledger.tables.dispatches, NodeAt(s.net, n);
    var k :| 0 <= k < |rows| && rows[k] == row;
    assert row.commandId in node.seen;
    var i :| 0 <= i < |node.effects| && node.effects[i].DispatchCommand? && node.effects[i].commandId == row.commandId;
    var j :| 0 <= j < |rows| && rows[j].nodeId == n && rows[j].message == node.effects[i];
    assert rows[j].commandId == rows[k].commandId;
  }

  // One wake per finished run event whose task was registered when it was logged,
  // and none otherwise.
  lemma WakesAreExactlyDue(labels: seq<Label>, i: nat)
    requires i < |Run(labels).ledger.tables.events|
    ensures
      var l := Run(labels).ledger;
      var t, e := l.tables, l.tables.events[i];
      && |l.marks| == |t.events|
      && (e.eventId in t.wakes <==> WakeDue(e, l.marks[i]))
      && (forall w :: w in t.wakes && t.wakes[w].sequence == i + 1 ==> w == e.eventId)
      && (e.eventId in t.wakes ==>
            t.wakes[e.eventId] ==
              Wake(i + 1, l.marks[i].value, e.draft.taskId, e.draft.runId.value, e.draft.kind,
                t.wakes[e.eventId].processed))
  {
    ReachableStore(labels);
    WakesOf(Run(labels).ledger, i);
  }

  lemma WakesOf(l: Ledger, i: nat)
    requires WakesAreDue(l) && UniqueIds(l.tables.events) && i < |l.tables.events|
    ensures
      var t, e := l.tables, l.tables.events[i];
      && |l.marks| == |t.events|
      && (e.eventId in t.wakes <==> WakeDue(e, l.marks[i]))
      && (forall w :: w in t.wakes && t.wakes[w].sequence == i + 1 ==> w == e.eventId)
      && (e.eventId in t.wakes ==>
            t.wakes[e.eventId] ==
              Wake(i + 1, l.marks[i].value, e.draft.taskId, e.draft.runId.value, e.draft.kind,
                t.wakes[e.eventId].processed))
  {
    assert forall w :: w in l.tables.wakes ==> WakeIsDue(l, w);
  }

  // The end of a run that create_worker_task started for a channel always wakes it.
  lemma WorkerEndsAlwaysWake(labels: seq<Label>, i: nat)
    requires i < |Run(labels).ledger.tables.events|
    requires WorkerEnd(Run(labels).ledger.tables.events[i], Run(labels).net.emitted, Run(labels).workerRuns)
    ensures Run(labels).ledger.tables.events[i].eventId in Run(labels).ledger.tables.wakes
  {
    EveryReachableState(labels);
    WakesAreExactlyDue(labels, i);
  }

  // Nothing durable is ever lost, across any number of further steps.
  lemma GrowsItself(t: Tables)
    ensures Grows(t, t)
  {
  }

  lemma {:induction false} DurableForever(labels: seq<Label>, more: seq<Label>)
    ensures Grows(Run(labels).ledger.tables, Run(labels + more).ledger.tables)
  {
    hide Grows, StoreInv, Next;
    if more == [] {
      assert labels + more == labels;
      GrowsItself(Run(labels).ledger.tables);
    } else {
      var init, last := more[..|more| - 1], more[|more| - 1];
      DurableForever(labels, init);
      assert labels + more == labels + init + [last];
      OneStepGrows(labels + init, last);
      GrowsTransitive(Run(labels).ledger.tables, Run(labels + init).ledger.tables, Run(labels + more).ledger.tables);
    }
  }

  lemma OneStepGrows(labels: seq<Label>, last: Label)
    ensures Grows(Run(labels).ledger.tables, Run(labels + [last]).ledger.tables)
  {
    hide Grows, StoreInv, Next;
    assert (labels + [last])[..|labels|] == labels;
    ReachableStore(labels);
    StepKeepsStore(Run(labels), last);
  }
}
