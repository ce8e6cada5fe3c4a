// Clients get on: however far behind one is, a bounded number of turns of its loop brings
// it to the head of the log.
module ClientProgress {
  import opened Events
  import opened Store
  import opened Ledger
  import opened LiveFeed
  import opened ControlPlane
  import opened StoreRuns
  import opened ControlPlaneTheorems

  ghost predicate Follows(c: Client) {
    !c.phase.Joining? && !c.phase.Gone?
  }

  // Has the whole log from where it started, and waits for more.
  ghost predicate Current(log: seq<Event>, bus: seq<Event>, c: Client) {
    c.phase.Live? && c.next == |bus| && c.last == |log| && c.start <= |log| && c.delivered == log[c.start..]
  }

  // The turns that are left.
  function Left(log: seq<Event>, bus: seq<Event>, c: Client): int {
    match c.phase
    case CatchUp(queue, head) => |queue| + 1 + LiveTurns(log, bus, c.next, head)
    case Live => LiveTurns(log, bus, c.next, c.last)
    case Lagged => 2 + |log| - c.last + LiveTurns(log, bus, c.next, |log|)
    case Resync(queue) => |queue| + 1 + LiveTurns(log, bus, c.next, c.last + |queue|)
    case _ => 0
  }

  // From live, with a detour if the bus has dropped what comes next.
  function LiveTurns(log: seq<Event>, bus: seq<Event>, next: nat, last: nat): int {
    if next < Oldest(bus) then 3 + |log| - last + |bus| - Oldest(bus) else |bus| - next
  }

  ghost predicate Feeds(log: seq<Event>, feed: Feed, c: Client) {
    && Gapless(log) && feed.base + |feed.bus| == |log| && feed.bus == log[feed.base..]
    && ClientInv(log, feed.base, |feed.bus|, c)
  }

  ghost predicate OneLess(log: seq<Event>, bus: seq<Event>, c: Client) {
    && 0 <= Left(log, bus, c) <= 3 * |log| + 5
    && (Left(log, bus, c) == 0 ==> Current(log, bus, c))
    && (Left(log, bus, c) > 0 ==>
         Follows(Pump(log, bus, c)) && Left(log, bus, Pump(log, bus, c)) == Left(log, bus, c) - 1)
  }

  lemma CatchingUp(log: seq<Event>, feed: Feed, c: Client)
    requires Feeds(log, feed, c) && c.phase.CatchUp?
    ensures OneLess(log, feed.bus, c)
  {
    assert |c.phase.queue| <= |c.delivered + c.phase.queue| <= |log|;
  }

  lemma Living(log: seq<Event>, feed: Feed, c: Client)
    requires Feeds(log, feed, c) && c.phase.Live?
    ensures OneLess(log, feed.bus, c)
  {
    if Oldest(feed.bus) <= c.next < |feed.bus| {
      assert feed.bus[c.next] == log[feed.base + c.next];
    }
  }

  lemma Lagging(log: seq<Event>, feed: Feed, c: Client)
    requires Feeds(log, feed, c) && c.phase.Lagged?
    ensures OneLess(log, feed.bus, c)
  {
    hide Offer, Gapless, EventsAfter;
    EventsAfterIsSuffix(log, c.last);
    assert log[0..] == log;
  }

  lemma Resyncing(log: seq<Event>, feed: Feed, c: Client)
    requires Feeds(log, feed, c) && c.phase.Resync?
    ensures OneLess(log, feed.bus, c)
  {
    if c.phase.queue != [] {
      assert c.phase.queue[0] == log[c.last];
    }
  }

  // Every turn is one less, until there is none.
  lemma OneTurnLess(log: seq<Event>, feed: Feed, c: Client)
    requires Feeds(log, feed, c) && Follows(c)
    ensures OneLess(log, feed.bus, c)
  {
    hide Feeds, OneLess;
    match c.phase
    case CatchUp(_, _) => CatchingUp(log, feed, c);
    case Live => Living(log, feed, c);
    case Lagged => Lagging(log, feed, c);
    case Resync(_) => Resyncing(log, feed, c);
    case _ =>
  }

  // ----- over every run -----------------------------------------------------------------

  function Turns(k: ClientId, n: nat): seq<Label> {
    if n == 0 then [] else [PumpStep(k)] + Turns(k, n - 1)
  }

  lemma OneTurn(labels: seq<Label>, k: ClientId)
    requires k in Run(labels).feed.clients && Follows(Run(labels).feed.clients[k])
    ensures
      var s, t := Run(labels), Run(labels + [PumpStep(k)]);
      var log, c := s.ledger.tables.events, s.feed.clients[k];
      && Feeds(log, s.feed, c) && t.ledger == s.ledger
      && t.feed == s.feed.(clients := s.feed.clients[k := Pump(log, s.feed.bus, c)])
      && Pump(log, s.feed.bus, c).start == c.start
  {
    ReachableStore(labels);
    RunExtends(labels, PumpStep(k));
    hide Run, UniqueIds, ReceiptsMatchLog, DispatchesMatchReceipts, StatusIsReplay, WakesAreDue, ClientInv, EventsAfter;
  }

  ghost predicate CaughtUp(labels: seq<Label>, k: ClientId, n: nat)
    requires k in Run(labels).feed.clients
  {
    var s, t := Run(labels), Run(labels + Turns(k, n));
    && t.ledger == s.ledger && t.feed.bus == s.feed.bus && k in t.feed.clients
    && var log, c := s.ledger.tables.events, t.feed.clients[k];
       && c.phase == Live && c.next == |t.feed.bus| && c.last == |log|
       && c.start == s.feed.clients[k].start <= |log| && c.delivered == log[c.start..]
  }

  lemma {:induction false} TurnsCatchUp(labels: seq<Label>, k: ClientId, n: nat)
    requires k in Run(labels).feed.clients && Follows(Run(labels).feed.clients[k])
    requires n == Left(Run(labels).ledger.tables.events, Run(labels).feed.bus, Run(labels).feed.clients[k])
    ensures CaughtUp(labels, k, n)
    decreases n
  {
    hide Run, Feeds, Follows, Left, Pump;
    var s := Run(labels);
    OneTurn(labels, k);
    OneTurnLess(s.ledger.tables.events, s.feed, s.feed.clients[k]);
    if n == 0 {
      assert labels + Turns(k, 0) == labels;
    } else {
      TurnsCatchUp(labels + [PumpStep(k)], k, n - 1);
      assert labels + Turns(k, n) == labels + [PumpStep(k)] + Turns(k, n - 1);
    }
  }

  // In any run, a client that has its snapshot and has not left comes to the head of the
  // log within a bounded number of turns of its own: catching up or live, told that it
  // lags, or resynchronising. It has then been sent everything from its start on.
  lemma ClientsCatchUp(labels: seq<Label>, k: ClientId) returns (n: nat)
    requires k in Run(labels).feed.clients && Follows(Run(labels).feed.clients[k])
    ensures n <= 3 * |Run(labels).ledger.tables.events| + 5 && CaughtUp(labels, k, n)
  {
    hide Run, Feeds, Follows, Left, Pump, CaughtUp;
    var s := Run(labels);
    OneTurn(labels, k);
    OneTurnLess(s.ledger.tables.events, s.feed, s.feed.clients[k]);
    n := Left(s.ledger.tables.events, s.feed.bus, s.feed.clients[k]);
    TurnsCatchUp(labels, k, n);
  }

  lemma Subscribed(labels: seq<Label>, k: ClientId, cursor: int)
    requires k !in Run(labels).feed.clients
    ensures
      var s, t := Run(labels), Run(labels + [Subscribe(k)] + [SnapshotStep(k, cursor)]);
      && t.ledger == s.ledger && k in t.feed.clients && Follows(t.feed.clients[k])
      && t.feed.clients[k].start == StartOf(cursor, |s.ledger.tables.events|)
  {
    hide Run, LedgerInv, FeedInv;
    ReachableStore(labels);
    RunExtends(labels, Subscribe(k));
    RunExtends(labels + [Subscribe(k)], SnapshotStep(k, cursor));
    SnapshotOf(Run(labels), k, cursor);
  }

  // A client that joins is sent the log from its cursor on: from the start if the cursor is
  // negative, and nothing old if it is ahead of the log.
  lemma SubscribersGetTheLog(labels: seq<Label>, k: ClientId, cursor: int) returns (n: nat)
    requires k !in Run(labels).feed.clients
    ensures n <= 3 * |Run(labels).ledger.tables.events| + 5
    ensures
      var log := Run(labels).ledger.tables.events;
      var t := Run(labels + [Subscribe(k)] + [SnapshotStep(k, cursor)] + Turns(k, n));
      && t.ledger == Run(labels).ledger && k in t.feed.clients
      && t.feed.clients[k].phase == Live && t.feed.clients[k].next == |t.feed.bus|
      && t.feed.clients[k].delivered == if cursor < 0 then log else if cursor > |log| then [] else log[cursor..]
  {
    hide Run, Follows;
    Subscribed(labels, k, cursor);
    n := ClientsCatchUp(labels + [Subscribe(k)] + [SnapshotStep(k, cursor)], k);
  }

  // ----- falling behind -------------------------------------------------------------------

  lemma LiveTurnShape(s: Sys, k: ClientId)
    requires k in s.feed.clients && s.feed.clients[k].phase == Live
    ensures
      var t, bus, c := Next(s, PumpStep(k)), s.feed.bus, s.feed.clients[k];
      && k in t.feed.clients && t.feed.bus == bus && t.ledger == s.ledger
      && t.feed.clients[k] ==
           if c.next + 1024 < |bus| then c.(phase := Lagged, next := |bus| - 1024)
           else if c.next == |bus| || |bus| < c.next then c
           else if bus[c.next].sequence <= c.last then c.(next := c.next + 1)
           else c.(next := c.next + 1, last := bus[c.next].sequence, delivered := c.delivered + [bus[c.next]])
  {
  }

  // In any run, the bus keeps its last 1024 events: a live client that is further behind is
  // told so and has missed what is gone, and any other is sent the next one unless it has it.
  lemma SlowClientsAreTold(labels: seq<Label>, k: ClientId)
    requires k in Run(labels).feed.clients && Run(labels).feed.clients[k].phase == Live
    ensures
      var s, t := Run(labels), Run(labels + [PumpStep(k)]);
      var log, c := s.ledger.tables.events, s.feed.clients[k];
      && k in t.feed.clients && t.feed.bus == s.feed.bus && c.next <= |s.feed.bus| <= |log|
      && t.feed.clients[k] ==
           if c.next + 1024 < |s.feed.bus| then c.(phase := Lagged, next := |s.feed.bus| - 1024)
           else if c.next == |s.feed.bus| then c
           else
             var e := log[|log| - |s.feed.bus| + c.next];
             if e.sequence <= c.last then c.(next := c.next + 1)
             else c.(next := c.next + 1, last := c.last + 1, delivered := c.delivered + [e])
  {
    hide Run, Next, UniqueIds, ReceiptsMatchLog, DispatchesMatchReceipts, StatusIsReplay, WakesAreDue;
    ReachableStore(labels);
    RunExtends(labels, PumpStep(k));
    LiveTurnShape(Run(labels), k);
  }

  // ----- leaving --------------------------------------------------------------------------

  lemma GoneStays(s: Sys, k: ClientId, l: Label)
    requires k in s.feed.clients && s.feed.clients[k].phase.Gone? && !l.HubRestart?
    ensures k in Next(s, l).feed.clients && Next(s, l).feed.clients[k] == s.feed.clients[k]
  {
    hide Perform, Next;
    if ClientLabel(l) {
      ClientTurn(s, k, l);
    } else {
      StepIsOneOp(s, l);
    }
  }

  lemma ClientTurn(s: Sys, k: ClientId, l: Label)
    requires k in s.feed.clients && s.feed.clients[k].phase.Gone? && ClientLabel(l)
    ensures k in Next(s, l).feed.clients && Next(s, l).feed.clients[k] == s.feed.clients[k]
  {
  }

  // A client that has left is sent nothing more, whatever happens.
  lemma {:induction false} LeavingIsFinal(labels: seq<Label>, k: ClientId, more: seq<Label>)
    requires k in Run(labels).feed.clients && forall l :: l in more ==> !l.HubRestart?
    ensures
      var s, t := Run(labels), Run(labels + [Leave(k)] + more);
      k in t.feed.clients && t.feed.clients[k] == s.feed.clients[k].(phase := Gone)
  {
    hide Run, Next;
    if more == [] {
      assert labels + [Leave(k)] + more == labels + [Leave(k)];
      RunExtends(labels, Leave(k));
      Leaves(Run(labels), k);
    } else {
      var init, last := more[..|more| - 1], more[|more| - 1];
      LeavingIsFinal(labels, k, init);
      assert labels + [Leave(k)] + more == labels + [Leave(k)] + init + [last];
      RunExtends(labels + [Leave(k)] + init, last);
      GoneStays(Run(labels + [Leave(k)] + init), k, last);
    }
  }

  lemma Leaves(s: Sys, k: ClientId)
    requires k in s.feed.clients
    ensures
      var t := Next(s, Leave(k));
      k in t.feed.clients && t.feed.clients[k] == s.feed.clients[k].(phase := Gone)
  {
  }
}
