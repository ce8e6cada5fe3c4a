// Events get through: from any state that a run can reach, an event in an outbox is logged
// or turned away, and leaves the outbox, in a few steps, if nothing comes between them.
module EventProgress {
  import opened Wrappers
  import opened Events
  import opened Ledger
  import LiveFeed
  import opened NodeRegistry
  import opened ControlPlane
  import opened DeliveryRuns
  import opened NodeSteps
  import opened ControlPlaneTheorems
  import opened WorkProgress

  // ----- outboxes ---------------------------------------------------------------------------

  ghost predicate NoEventTwice(outbox: seq<(EventId, EventDraft)>) {
    forall i, j :: 0 <= i < j < |outbox| ==> outbox[i].0 != outbox[j].0
  }

  ghost predicate OutboxesInv(net: Net) {
    forall n :: n in net.nodes ==> NoEventTwice(net.nodes[n].outbox)
  }

  lemma {:induction false} RemovedOnce(outbox: seq<(EventId, EventDraft)>, id: EventId)
    requires NoEventTwice(outbox)
    ensures NoEventTwice(RemoveEvent(outbox, id))
    ensures forall e :: e in RemoveEvent(outbox, id) <==> e in outbox && e.0 != id
  {
    if outbox != [] {
      assert outbox == [outbox[0]] + outbox[1..];
      if outbox[0].0 != id {
        RemovedOnce(outbox[1..], id);
      }
    }
  }

  lemma AddedOnce(outbox: seq<(EventId, EventDraft)>, id: EventId, draft: EventDraft)
    requires NoEventTwice(outbox) && forall e :: e in outbox ==> e.0 != id
    ensures NoEventTwice(outbox + [(id, draft)])
  {
  }

  lemma CommandStepKeepsNodes(s: Sys, l: Label)
    requires CommandStep(l)
    ensures Next(s, l).net == s.net
  {
    hide Perform, PlanFor, Route, Skip, FreshEvent, DoCommit, DoWorkerEnrol, DoWorkerCommitRun, DoHubReceive, DoRestart;
  }

  lemma ProcessStepKeepsNodes(s: Sys, l: Label)
    requires ProcessStep(l)
    ensures Next(s, l).net.nodes == s.net.nodes
  {
    hide Perform, PlanFor, Admits, FreshEvent, DoReceive, DoDecide, DoRoute, DoAbandon, DoWorkerBegin, DoWorkerRoute;
    hide DoWorkerCommitTask;
    if CommandStep(l) {
      CommandStepKeepsNodes(s, l);
    }
  }

  lemma OtherStepKeepsNodes(s: Sys, l: Label)
    requires !l.NodeReceive? && !l.Emit?
    ensures Next(s, l).net.nodes == s.net.nodes
  {
    hide Perform, Register, Unregister, ReplayTurn, ReadPending, Admits, FreshEvent, LiveFeed.Pump, LiveFeed.Join;
    hide LiveFeed.TakeSnapshot, DoCommit, DoReceive, DoDecide, DoRoute, DoAbandon, DoWorkerBegin, DoWorkerRoute;
    hide DoWorkerCommitTask, DoWorkerEnrol, DoWorkerCommitRun, DoHubReceive, DoRestart, DoNodeReceive, DoEmit, Hand;
    if ProcessStep(l) {
      ProcessStepKeepsNodes(s, l);
    }
  }

  lemma EmitShape(s: Sys, n: NodeId, id: EventId, draft: EventDraft)
    requires FreshEvent(s, id)
    ensures
      var t := Next(s, Emit(n, id, draft));
      && NodeAt(t.net, n) == NodeAt(s.net, n).(outbox := NodeAt(s.net, n).outbox + [(id, draft)])
      && t.net.nodes == s.net.nodes[n := NodeAt(t.net, n)]
      && t.net.emitted == s.net.emitted[id := (n, draft)] && t.ledger == s.ledger
      && t.net.promised == s.net.promised + (if Admits(s, n, draft) then {id} else {})
  {
    hide FreshEvent, Admits;
  }

  lemma AckedShape(s: Sys, n: NodeId, id: EventId)
    requires (n, EventAck(id)) in s.net.toNode
    ensures
      var t, node := Next(s, NodeReceive(n, EventAck(id))), NodeAt(s.net, n);
      t == s.(net := s.net.(nodes := s.net.nodes[n := node.(outbox := RemoveEvent(node.outbox, id))]))
  {
  }

  lemma StepKeepsOutboxes(s: Sys, l: Label)
    requires OutboxesInv(s.net) && NetInv(s)
    ensures OutboxesInv(Next(s, l).net)
  {
    hide NoEventTwice, MessageInv, EngineInv, CacheInv, NoneLost, LogAdmitted, PromisesKept, Next, FreshEvent;
    if l.Emit? {
      if FreshEvent(s, l.mintEvent) {
        EmitShape(s, l.node, l.mintEvent, l.draft);
        FreshIsNotOut(s, l.node, l.mintEvent);
        AddedOnce(NodeAt(s.net, l.node).outbox, l.mintEvent, l.draft);
      } else {
        IdleStep(s, l);
      }
    } else if l.NodeReceive? {
      if (l.node, l.down) !in s.net.toNode {
        IdleStep(s, l);
      } else if l.down.EventAck? {
        AckedShape(s, l.node, l.down.eventId);
        NothingTwice(s.net, l.node);
        RemovedOnce(NodeAt(s.net, l.node).outbox, l.down.eventId);
      } else {
        ReceiptShape(s, l.node, l.down);
        NothingTwice(s.net, l.node);
        SameOutboxes(s.net, Next(s, l).net);
      }
    } else {
      OtherStepKeepsNodes(s, l);
    }
  }

  lemma IdleStep(s: Sys, l: Label)
    requires (l.Emit? && !FreshEvent(s, l.mintEvent)) || (l.NodeReceive? && (l.node, l.down) !in s.net.toNode)
    ensures Next(s, l) == s
  {
  }

  lemma NothingTwice(net: Net, n: NodeId)
    requires OutboxesInv(net)
    ensures NoEventTwice(NodeAt(net, n).outbox)
  {
  }

  lemma SameOutboxes(net: Net, net': Net)
    requires OutboxesInv(net) && forall n :: NodeAt(net', n).outbox == NodeAt(net, n).outbox
    ensures OutboxesInv(net')
  {
    forall n | n in net'.nodes
      ensures NoEventTwice(net'.nodes[n].outbox)
    {
      assert NodeAt(net', n) == net'.nodes[n];
      NothingTwice(net, n);
    }
  }

  lemma FreshIsNotOut(s: Sys, n: NodeId, id: EventId)
    requires FramesEmitted(s.net) && FreshEvent(s, id) && OutboxesInv(s.net)
    ensures forall e :: e in NodeAt(s.net, n).outbox ==> e.0 != id
    ensures NoEventTwice(NodeAt(s.net, n).outbox)
  {
    if n in s.net.nodes {
      assert OutboxEmitted(s.net, n, s.net.nodes[n].outbox);
    }
  }

  lemma {:induction false} OutboxesHoldOnce(labels: seq<Label>)
    ensures OutboxesInv(Run(labels).net)
  {
    if labels != [] {
      hide OutboxesInv, Next, NetInv;
      OutboxesHoldOnce(labels[..|labels| - 1]);
      ReachableNet(labels[..|labels| - 1]);
      StepKeepsOutboxes(Run(labels[..|labels| - 1]), labels[|labels| - 1]);
    } else {
      assert Run(labels).net.nodes == map[];
    }
  }

  // ----- one event, from its outbox to the log ---------------------------------------------------

  lemma SentShape(s: Sys, n: NodeId, id: EventId, draft: EventDraft)
    requires id in s.net.emitted && s.net.emitted[id].1 == draft && (id, draft) in NodeAt(s.net, n).outbox
    ensures Next(s, SendEvent(n, id)) == s.(net := s.net.(toHub := s.net.toHub + {(n, NodeEvent(id, draft))}))
  {
  }

  // What the hub makes of the event: it is logged now or was before, or it is turned away.
  ghost predicate Settles(s: Sys, t: Sys, n: NodeId, id: EventId, draft: EventDraft) {
    var before, after := s.ledger.tables.events, t.ledger.tables.events;
    if Bound(s.ledger.tables, n, draft) then
      && Logged(after, id) && t.net.rejected == s.net.rejected
      && (after == before || after == before + [Event(|before| + 1, id, None, draft)])
    else t.ledger == s.ledger && t.net.rejected == s.net.rejected + {id}
  }

  lemma HubLogs(s: Sys, p: ProcId, n: NodeId, id: EventId, draft: EventDraft)
    requires (n, NodeEvent(id, draft)) in s.net.toHub && p !in s.procs && Admits(s, n, draft)
    ensures
      var t := Next(s, HubReceive(p, n, NodeEvent(id, draft)));
      && t.ledger == Durable(s, NodeAppend(id, draft)).0.ledger && t.net == s.net && t.registry == s.registry
      && (Durable(s, NodeAppend(id, draft)).1.Ok? ==> t.procs == s.procs[p := Routing(n, EventAck(id), InProcess)])
  {
    hide Perform, Admits;
  }

  lemma HubTurnsAway(s: Sys, p: ProcId, n: NodeId, id: EventId, draft: EventDraft)
    requires (n, NodeEvent(id, draft)) in s.net.toHub && p !in s.procs && !Admits(s, n, draft)
    ensures
      Next(s, HubReceive(p, n, NodeEvent(id, draft))) ==
      s.(net := s.net.(rejected := s.net.rejected + {id}), procs := s.procs[p := Routing(n, EventAck(id), InProcess)])
  {
    hide Perform, Admits;
  }

  lemma HubTakesEvent(s: Sys, p: ProcId, n: NodeId, id: EventId, draft: EventDraft)
    requires LedgerInv(s.ledger) && CacheInv(s) && (n, NodeEvent(id, draft)) in s.net.toHub && p !in s.procs
    ensures
      var t := Next(s, HubReceive(p, n, NodeEvent(id, draft)));
      && Settles(s, t, n, id, draft)
      && t.procs == s.procs[p := Routing(n, EventAck(id), InProcess)]
      && t.registry == s.registry && t.net.nodes == s.net.nodes && t.net.toNode == s.net.toNode
  {
    hide Next, Durable, LedgerInv, CacheInv, Bound, Admits, Logged;
    AdmitsIsBound(s, n, draft);
    if Admits(s, n, draft) {
      AdmittedTables(s, id, draft);
      HubLogs(s, p, n, id, draft);
    } else {
      HubTurnsAway(s, p, n, id, draft);
    }
  }

  lemma RoutesTo(s: Sys, p: ProcId, n: NodeId, c: ConnId, waiting: seq<HubToNode>, m: HubToNode)
    requires p in s.procs && s.procs[p] == Routing(n, m, InProcess) && Serves(s.registry, n, c, waiting)
    ensures
      var t := Next(s, RouteStep(p));
      Serves(t.registry, n, c, waiting + [m]) && t == s.(registry := t.registry, procs := s.procs - {p})
  {
  }

  function GetThrough(n: NodeId, id: EventId, draft: EventDraft, p: ProcId, c: ConnId, k: nat): seq<Label> {
    [SendEvent(n, id)] + [HubReceive(p, n, NodeEvent(id, draft))] + [RouteStep(p)] + HandSteps(c, k)
    + [NodeReceive(n, EventAck(id))]
  }

  // Up to the acknowledgement's frame.
  lemma Acknowledged(labels: seq<Label>, n: NodeId, id: EventId, draft: EventDraft, p: ProcId, c: ConnId,
                     waiting: seq<HubToNode>)
    requires id in Run(labels).net.emitted && Run(labels).net.emitted[id].1 == draft
    requires (id, draft) in NodeAt(Run(labels).net, n).outbox && p !in Run(labels).procs
    requires Serves(Run(labels).registry, n, c, waiting)
    ensures
      var sent := labels + [SendEvent(n, id)] + [HubReceive(p, n, NodeEvent(id, draft))] + [RouteStep(p)];
      var s, t := Run(labels), Run(sent + HandSteps(c, |waiting| + 1));
      && Settles(s, t, n, id, draft) && t.net.nodes == s.net.nodes && (n, EventAck(id)) in t.net.toNode
  {
    hide Run, Next, Serves, Settles, NodeAt, LedgerInv, CacheInv, MessageInv, EventInv, EngineInv, LiveFeed.FeedInv;
    var s1, s2 := labels + [SendEvent(n, id)], labels + [SendEvent(n, id)] + [HubReceive(p, n, NodeEvent(id, draft))];
    RunExtends(labels, SendEvent(n, id));
    SentShape(Run(labels), n, id, draft);
    ReachableStore(s1);
    ReachableNet(s1);
    RunExtends(s1, HubReceive(p, n, NodeEvent(id, draft)));
    HubTakesEvent(Run(s1), p, n, id, draft);
    RunExtends(s2, RouteStep(p));
    RoutesTo(Run(s2), p, n, c, waiting, EventAck(id));
    HandsAll(s2 + [RouteStep(p)], n, c, waiting + [EventAck(id)]);
    SameSettles(Run(labels), Run(s1), Run(s2), Run(s2 + [RouteStep(p)] + HandSteps(c, |waiting| + 1)), n, id, draft);
  }

  lemma SameSettles(s: Sys, s': Sys, t: Sys, t': Sys, n: NodeId, id: EventId, draft: EventDraft)
    requires Settles(s', t, n, id, draft) && s'.ledger == s.ledger && s'.net.rejected == s.net.rejected
    requires t'.ledger == t.ledger && t'.net.rejected == t.net.rejected
    ensures Settles(s, t', n, id, draft)
  {
  }

  // In any run: an event that waits in the outbox of a node whose connection has replayed
  // can be sent, settled and acknowledged, and then it is out of the outbox, alone. It is
  // in the log, as it was emitted, exactly if the run it names is a run of this node and
  // this task; otherwise it was turned away.
  lemma WaitingEventsGetThrough(labels: seq<Label>, n: NodeId, id: EventId, p: ProcId) returns (steps: seq<Label>)
    requires id in Run(labels).net.emitted && (id, Run(labels).net.emitted[id].1) in NodeAt(Run(labels).net, n).outbox
    requires p !in Run(labels).procs && n in Run(labels).registry.slots
    requires
      var r := Run(labels).registry;
      r.slots[n] in r.conns && r.conns[r.slots[n]].replay.Replayed?
    ensures
      var s, t := Run(labels), Run(labels + steps);
      && Settles(s, t, n, id, s.net.emitted[id].1)
      && (forall e :: e in NodeAt(t.net, n).outbox <==> e in NodeAt(s.net, n).outbox && e.0 != id)
      && NodeAt(t.net, n).effects == NodeAt(s.net, n).effects && NodeAt(t.net, n).seen == NodeAt(s.net, n).seen
  {
    hide Run, Next, Settles, CoverInv, NoEventTwice, OutboxesInv;
    var s := Run(labels);
    var draft, c := s.net.emitted[id].1, s.registry.slots[n];
    var waiting := s.registry.conns[c].channel;
    ReachableDispatch(labels);
    OutboxesHoldOnce(labels);
    NothingTwice(s.net, n);
    RemovedOnce(NodeAt(s.net, n).outbox, id);
    Acknowledged(labels, n, id, draft, p, c, waiting);
    var before := labels + [SendEvent(n, id)] + [HubReceive(p, n, NodeEvent(id, draft))] + [RouteStep(p)] +
      HandSteps(c, |waiting| + 1);
    RunExtends(before, NodeReceive(n, EventAck(id)));
    AckedShape(Run(before), n, id);
    steps := GetThrough(n, id, draft, p, c, |waiting| + 1);
    assert labels + steps == before + [NodeReceive(n, EventAck(id))];
    SameSettles(s, s, Run(before), Run(labels + steps), n, id, draft);
  }

  // In any run: an event is queued in the outbox when it is emitted, and promised exactly if
  // the run it names is a run of this node and this task.
  lemma EmittedEventsWait(labels: seq<Label>, n: NodeId, id: EventId, draft: EventDraft)
    requires FreshEvent(Run(labels), id)
    ensures
      var s, t := Run(labels), Run(labels + [Emit(n, id, draft)]);
      && id in t.net.emitted && t.net.emitted[id] == (n, draft)
      && NodeAt(t.net, n).outbox == NodeAt(s.net, n).outbox + [(id, draft)]
      && (id in t.net.promised <==> Bound(s.ledger.tables, n, draft))
  {
    hide Run, Next, MessageInv, EngineInv, NoneLost, LogAdmitted, Bound, Admits, Binding;
    ReachableNet(labels);
    RunExtends(labels, Emit(n, id, draft));
    EmitShape(Run(labels), n, id, draft);
    AdmitsIsBound(Run(labels), n, draft);
    assert id !in Run(labels).net.emitted;
  }

  // ----- what was done stays done ----------------------------------------------------------------

  lemma StepKeepsEffects(s: Sys, l: Label, n: NodeId)
    ensures NodeAt(s.net, n).effects <= NodeAt(Next(s, l).net, n).effects
  {
    hide Next, FreshEvent;
    if l.Emit? {
      if FreshEvent(s, l.mintEvent) {
        EmitShape(s, l.node, l.mintEvent, l.draft);
      } else {
        IdleStep(s, l);
      }
    } else if l.NodeReceive? {
      if (l.node, l.down) !in s.net.toNode {
        IdleStep(s, l);
      } else if l.down.EventAck? {
        AckedShape(s, l.node, l.down.eventId);
      } else {
        ReceiptShape(s, l.node, l.down);
      }
    } else {
      OtherStepKeepsNodes(s, l);
    }
  }

  // Work that was acted on once has been acted on once ever after.
  lemma {:induction false} WorkStaysDone(labels: seq<Label>, more: seq<Label>, n: NodeId, m: HubToNode)
    requires m.DispatchCommand? && DoneOnce(NodeAt(Run(labels).net, n).effects, m)
    ensures NodeAt(Run(labels).net, n).effects <= NodeAt(Run(labels + more).net, n).effects
    ensures DoneOnce(NodeAt(Run(labels + more).net, n).effects, m)
  {
    hide Run, Next, HasRow, NodeAt;
    if more == [] {
      assert labels + more == labels;
    } else {
      var init, last := more[..|more| - 1], more[|more| - 1];
      WorkStaysDone(labels, init, n, m);
      assert labels + more == labels + init + [last];
      RunExtends(labels + init, last);
      StepKeepsEffects(Run(labels + init), last, n);
      WorkHasOneEffect(labels + more, n);
    }
  }
}
