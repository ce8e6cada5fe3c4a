// What every step of the control plane does to the tables and to the live feed.
module StoreRuns {
  import opened Wrappers
  import opened Events
  import opened Store
  import opened Ledger
  import opened LiveFeed
  import opened NodeRegistry
  import opened ControlPlane

  // The step extended the tables by at most one operation and broadcast whatever
  // it logged.
  ghost predicate Moved(l: Ledger, feed: Feed, l': Ledger, feed': Feed) {
    && Grows(l.tables, l'.tables)
    && (LedgerInv(l) ==> LedgerInv(l'))
    && feed' == feed.(bus := feed.bus + l'.tables.events[|l.tables.events|..])
  }

  ghost predicate SysMoved(s: Sys, t: Sys) {
    Moved(s.ledger, s.feed, t.ledger, t.feed)
  }

  lemma Unmoved(l: Ledger, feed: Feed)
    ensures Moved(l, feed, l, feed)
  {
    var events := l.tables.events;
    assert events[|events|..] == [];
    assert feed.bus + [] == feed.bus;
  }

  lemma DurableMoves(s: Sys, op: HubOp)
    ensures SysMoved(s, Durable(s, op).0)
  {
    PerformGrows(s.ledger, op);
    if LedgerInv(s.ledger) {
      PerformKeepsInv(s.ledger, op);
    }
  }

  ghost predicate ClientLabel(l: Label) {
    l.Subscribe? || l.SnapshotStep? || l.PumpStep? || l.Leave?
  }

  // Only these steps acknowledge a dispatch, register a worker or complete a wake.
  predicate OpFits(l: Label, op: HubOp) {
    match op
    case Acknowledge(command, node) => l.HubReceive? && l.from == node && l.up == CommandAck(command)
    case Enrol(_, _) => l.WorkerEnrolStep? || l.TrackWorker?
    case FinishWake(wake) => l == CompleteWakeStep(wake)
    case _ => true
  }

  // Either nothing durable happened, or exactly one operation did.
  ghost predicate OneOp(s: Sys, l: Label, t: Sys) {
    || (t.ledger == s.ledger && t.feed == s.feed)
    || exists op :: Fits(s, l, t, op)
  }

  ghost predicate Fits(s: Sys, l: Label, t: Sys, op: HubOp) {
    OpFits(l, op) && DidOp(s, t, op)
  }

  ghost predicate DidOp(s: Sys, t: Sys, op: HubOp) {
    t.ledger == Durable(s, op).0.ledger && t.feed == Durable(s, op).0.feed
  }

  lemma CommandStep(s: Sys, l: Label)
    requires l.Receive? || l.Decide? || l.Commit? || l.RouteStep? || l.Abandon?
    ensures OneOp(s, l, Next(s, l))
  {
    hide Durable, Route, Skip, PlanFor;
    if l.Commit? && l.p in s.procs && s.procs[l.p].Planned? {
      assert Fits(s, l, Next(s, l), Command(s.procs[l.p].plan, l.mintEvent)) || Next(s, l) == s;
    }
  }

  lemma WorkerStep(s: Sys, l: Label)
    requires l.WorkerBegin? || l.WorkerCommitTask? || l.WorkerEnrolStep? || l.WorkerCommitRun? || l.WorkerRouteStep?
    ensures OneOp(s, l, Next(s, l))
  {
    hide Durable, Route;
    if l.p in s.procs {
      var w := s.procs[l.p];
      if l.WorkerCommitTask? && w.WorkerCreate? {
        assert Fits(s, l, Next(s, l), Command(PlanTask(l.mintCommand, l.mintTask, ""), l.mintEvent)) || Next(s, l) == s;
      } else if l.WorkerEnrolStep? && w.WorkerEnrol? && w.channel.Some? {
        assert Fits(s, l, Next(s, l), Enrol(w.channel.value, w.task));
      } else if l.WorkerCommitRun? && w.WorkerStart? {
        assert Fits(s, l, Next(s, l),
          Command(PlanRun(l.mintCommand, l.mintRun, w.task, w.node, "", true), l.mintEvent)) || Next(s, l) == s;
      }
    }
  }

  lemma HubCommandStep(s: Sys, l: Label, plan: Plan, id: EventId)
    ensures OneOp(s, l, DoHubCommand(s, plan, id))
  {
    var t := DoHubCommand(s, plan, id);
    assert t == s || Fits(s, l, t, Command(plan, id));
  }

  lemma HubEventStep(s: Sys, l: Label, id: EventId, draft: EventDraft)
    ensures OneOp(s, l, DoHubEvent(s, id, draft))
  {
    var t := DoHubEvent(s, id, draft);
    assert t == s || Fits(s, l, t, NodeAppend(id, draft));
  }

  lemma HubUpkeepStep(s: Sys, l: Label)
    requires l.TrackWorker? || l.CompleteWakeStep? || l.CacheRun?
    ensures OneOp(s, l, Next(s, l))
  {
    hide Durable;
    var t := Next(s, l);
    match l
    case TrackWorker(channel, task, run) => assert t == s || Fits(s, l, t, Enrol(channel, task));
    case CompleteWakeStep(wake) => assert Fits(s, l, t, FinishWake(wake));
    case CacheRun(run) =>
  }

  lemma HubStep(s: Sys, l: Label)
    requires l.TrackWorker? || l.HubRun? || l.HubMessage? || l.HubEvent? || l.CompleteWakeStep? || l.CacheRun?
    ensures OneOp(s, l, Next(s, l))
  {
    hide OneOp;
    match l
    case HubRun(command, run, task, id) => HubCommandStep(s, l, PlanRun(command, run, task, HUB_NODE, "", false), id);
    case HubMessage(command, task, run, id, text) =>
      HubCommandStep(s, l, PlanMessage(command, task, Some(run), None, text), id);
    case HubEvent(id, draft) => HubEventStep(s, l, id, draft);
    case _ => HubUpkeepStep(s, l);
  }

  lemma NodeLinkStep(s: Sys, l: Label)
    requires l.RegisterNode? || l.ReadPendingStep? || l.ReplayStep? || l.HandStep? || l.UnregisterNode? || l.HubReceive?
    ensures OneOp(s, l, Next(s, l))
  {
    hide Durable, Register, Unregister, ReplayTurn, ReadPending, Hand;
    if l.HubReceive? {
      match l.up
      case CommandAck(command) => assert Next(s, l) == s || Fits(s, l, Next(s, l), Acknowledge(command, l.from));
      case NodeEvent(id, draft) =>
        assert (Next(s, l).ledger == s.ledger && Next(s, l).feed == s.feed) ||
          Fits(s, l, Next(s, l), NodeAppend(id, draft));
    }
  }

  lemma NodeStep(s: Sys, l: Label)
    requires l.NodeReceive? || l.DropUp? || l.DropDown? || l.Emit? || l.SendEvent? || l.SendAck?
    ensures OneOp(s, l, Next(s, l))
  {
    hide RemoveEvent, Accept, Admits;
  }

  lemma StepIsOneOp(s: Sys, l: Label)
    requires !ClientLabel(l) && !l.HubRestart?
    ensures OneOp(s, l, Next(s, l))
  {
    hide OneOp;
    if l.Receive? || l.Decide? || l.Commit? || l.RouteStep? || l.Abandon? {
      CommandStep(s, l);
    } else if l.WorkerBegin? || l.WorkerCommitTask? || l.WorkerEnrolStep? || l.WorkerCommitRun? || l.WorkerRouteStep? {
      WorkerStep(s, l);
    } else if l.TrackWorker? || l.HubRun? || l.HubMessage? || l.HubEvent? || l.CompleteWakeStep? || l.CacheRun? {
      HubStep(s, l);
    } else if l.RegisterNode? || l.ReadPendingStep? || l.ReplayStep? || l.HandStep? || l.UnregisterNode? ||
      l.HubReceive? {
      NodeLinkStep(s, l);
    } else {
      NodeStep(s, l);
    }
  }

  lemma OneOpMoves(s: Sys, l: Label, t: Sys)
    requires OneOp(s, l, t)
    ensures SysMoved(s, t)
  {
    if op :| Fits(s, l, t, op) {
      DurableMoves(s, op);
    } else {
      Unmoved(s.ledger, s.feed);
    }
  }

  ghost predicate StoreInv(s: Sys) {
    LedgerInv(s.ledger) && FeedInv(s.ledger.tables.events, s.feed)
  }

  lemma LogPart(s: Sys)
    requires StoreInv(s)
    ensures Gapless(s.ledger.tables.events)
  {
  }

  lemma DidOpLedger(s: Sys, t: Sys, op: HubOp)
    requires DidOp(s, t, op)
    ensures t.ledger == Perform(s.ledger, op).0
  {
    hide Perform;
  }

  lemma MovedKeepsStore(s: Sys, t: Sys)
    requires StoreInv(s) && SysMoved(s, t)
    ensures StoreInv(t)
  {
    var log, log' := s.ledger.tables.events, t.ledger.tables.events;
    assert log' == log + log'[|log|..];
    BroadcastKeepsInv(log, s.feed, log'[|log|..]);
  }

  lemma ClientStepKeepsStore(s: Sys, l: Label)
    requires StoreInv(s) && ClientLabel(l)
    ensures StoreInv(Next(s, l)) && Next(s, l).ledger == s.ledger
  {
    assert Gapless(s.ledger.tables.events);
    hide LedgerInv, FeedInv, Join, Pump, TakeSnapshot;
    ClientStepKeepsFeed(s, l);
  }

  lemma ClientStepKeepsFeed(s: Sys, l: Label)
    requires FeedInv(s.ledger.tables.events, s.feed) && Gapless(s.ledger.tables.events) && ClientLabel(l)
    ensures FeedInv(s.ledger.tables.events, DoClient(s, l).feed)
  {
    hide Join, Pump, TakeSnapshot, Gapless;
    var log, k := s.ledger.tables.events, l.client;
    JoinKeepsInv(log, s.feed);
    if k in s.feed.clients {
      var c := s.feed.clients[k];
      PumpKeepsInv(log, s.feed, c);
      LeaveKeepsInv(log, s.feed.base, |s.feed.bus|, c);
      if l.SnapshotStep? {
        TakeSnapshotKeepsInv(log, s.feed, c, l.cursor);
      }
    }
  }

  lemma StepKeepsStore(s: Sys, l: Label)
    requires StoreInv(s)
    ensures StoreInv(Next(s, l))
    ensures Grows(s.ledger.tables, Next(s, l).ledger.tables)
  {
    if ClientLabel(l) {
      ClientStepKeepsStore(s, l);
    } else if !l.HubRestart? {
      StepIsOneOp(s, l);
      OneOpMoves(s, l, Next(s, l));
      MovedKeepsStore(s, Next(s, l));
    }
  }
}
