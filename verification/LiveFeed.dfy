// Fan-out to subscribed clients: a bounded live bus, catch-up from the log, and
// resynchronisation from the log when a client lags behind the bus.
module LiveFeed {
  import opened Events
  import opened Store

  const EVENT_BUS_CAPACITY: nat := 1024

  type ClientId = nat

  datatype Phase =
    | Joining                                  // subscribed to the bus, no snapshot yet
    | CatchUp(queue: seq<Event>, head: nat)    // sending the snapshot
    | Live                                     // receiving from the bus
    | Lagged                                   // told that events were dropped
    | Resync(queue: seq<Event>)                // sending what was missed
    | Gone

  // `next` is the client's position on the bus, `last` its `last_delivered`. The
  // rest is history: the cursor it asked for, the head at its snapshot, where
  // delivery started, and everything delivered.
  datatype Client = Client(next: nat, last: nat, phase: Phase, cursor: int, joinedAt: nat, start: nat,
    delivered: seq<Event>)

  // `base` is the log length when this hub process started: the bus has carried
  // every event logged since.
  datatype Feed = Feed(base: nat, bus: seq<Event>, clients: map<ClientId, Client>)

  function Oldest(bus: seq<Event>): nat {
    if |bus| > EVENT_BUS_CAPACITY then |bus| - EVENT_BUS_CAPACITY else 0
  }

  function Join(feed: Feed): Client {
    Client(|feed.bus|, 0, Joining, 0, 0, 0, [])
  }

  function Snapshot(log: seq<Event>, cursor: int): (nat, seq<Event>) {
    var all := EventsAfter(log, 0);
    (if all == [] then 0 else all[|all| - 1].sequence, EventsAfter(all, cursor))
  }

  // Where delivery to a client with this cursor begins.
  function StartOf(cursor: int, head: nat): nat {
    if cursor > head then head else if cursor < 0 then 0 else cursor
  }

  function TakeSnapshot(log: seq<Event>, c: Client, cursor: int): Client {
    if c.phase != Joining then c
    else
      var (head, catchUp) := Snapshot(log, cursor);
      c.(phase := CatchUp(catchUp, head), cursor := cursor, joinedAt := head, start := StartOf(cursor, head))
  }

  // Deliver unless it was delivered before.
  function Offer(c: Client, e: Event): Client {
    if e.sequence > c.last then c.(last := e.sequence, delivered := c.delivered + [e]) else c
  }

  // One turn of the client loop; a blocked client stays as it is.
  function Pump(log: seq<Event>, bus: seq<Event>, c: Client): Client {
    match c.phase
    case CatchUp(queue, head) =>
      if queue == [] then c.(phase := Live, last := head)
      else c.(phase := CatchUp(queue[1..], head), delivered := c.delivered + [queue[0]])
    case Live =>
      if c.next < Oldest(bus) then c.(phase := Lagged, next := Oldest(bus))
      else if c.next < |bus| then Offer(c.(next := c.next + 1), bus[c.next])
      else c
    case Lagged => c.(phase := Resync(EventsAfter(log, c.last)))
    case Resync(queue) =>
      if queue == [] then c.(phase := Live)
      else Offer(c, queue[0]).(phase := Resync(queue[1..]))
    case _ => c
  }

  // ----- the invariant ----------------------------------------------------

  // What a client has, is about to get, and may still find on the bus.
  ghost predicate ClientInv(log: seq<Event>, base: nat, sent: nat, c: Client) {
    && c.next <= sent
    && c.joinedAt <= |log|
    && c.start == StartOf(c.cursor, c.joinedAt)
    && match c.phase
       case Joining => c.delivered == []
       case CatchUp(queue, head) =>
         && c.start <= head <= |log| && base + c.next <= head
         && c.delivered + queue == log[c.start..head]
       case Live => Received(log, c) && base + c.next <= c.last
       case Lagged => Received(log, c)
       case Resync(queue) =>
         && Received(log, c)
         && base + c.next <= c.last + |queue| <= |log|
         && queue == log[c.last..c.last + |queue|]
       case Gone => c.delivered <= log[c.start..]
  }

  // Exactly the segment of the log from the start to the last delivered event.
  ghost predicate Received(log: seq<Event>, c: Client) {
    c.start <= c.last <= |log| && c.delivered == log[c.start..c.last]
  }

  ghost predicate FeedInv(log: seq<Event>, feed: Feed) {
    && feed.base + |feed.bus| == |log|
    && feed.bus == log[feed.base..]
    && forall k :: k in feed.clients ==> ClientInv(log, feed.base, |feed.bus|, feed.clients[k])
  }

  lemma JoinKeepsInv(log: seq<Event>, feed: Feed)
    requires FeedInv(log, feed)
    ensures ClientInv(log, feed.base, |feed.bus|, Join(feed))
  {
  }

  lemma SnapshotIsExact(log: seq<Event>, cursor: int)
    requires Gapless(log)
    ensures Snapshot(log, cursor) == (|log|, log[StartOf(cursor, |log|)..])
  {
    EventsAfterIsSuffix(log, 0);
    EventsAfterIsSuffix(log, cursor);
    assert log[0..] == log && log[|log|..] == [];
  }

  lemma TakeSnapshotKeepsInv(log: seq<Event>, feed: Feed, c: Client, cursor: int)
    requires Gapless(log) && feed.base + |feed.bus| == |log|
    requires ClientInv(log, feed.base, |feed.bus|, c)
    ensures ClientInv(log, feed.base, |feed.bus|, TakeSnapshot(log, c, cursor))
  {
    SnapshotIsExact(log, cursor);
  }

  // Offering the event right after the last one extends the received segment.
  lemma OfferNext(log: seq<Event>, c: Client, e: Event)
    requires Gapless(log) && Received(log, c)
    requires c.last < |log| && e == log[c.last]
    ensures Received(log, Offer(c, e)) && Offer(c, e).last == c.last + 1
  {
  }

  lemma PumpKeepsInv(log: seq<Event>, feed: Feed, c: Client)
    requires Gapless(log) && feed.base + |feed.bus| == |log| && feed.bus == log[feed.base..]
    requires ClientInv(log, feed.base, |feed.bus|, c)
    ensures ClientInv(log, feed.base, |feed.bus|, Pump(log, feed.bus, c))
  {
    match c.phase
    case CatchUp(queue, head) => CatchUpTurn(log, feed, c);
    case Live => LiveTurn(log, feed, c);
    case Lagged => EventsAfterIsSuffix(log, c.last); assert log[0..] == log;
    case Resync(queue) => ResyncTurn(log, feed, c);
    case _ =>
  }

  lemma CatchUpTurn(log: seq<Event>, feed: Feed, c: Client)
    requires c.phase.CatchUp? && ClientInv(log, feed.base, |feed.bus|, c)
    ensures ClientInv(log, feed.base, |feed.bus|, Pump(log, feed.bus, c))
  {
    var queue := c.phase.queue;
    if queue != [] {
      assert c.delivered + queue == (c.delivered + [queue[0]]) + queue[1..];
    } else {
      assert c.delivered + queue == c.delivered;
    }
  }

  lemma LiveTurn(log: seq<Event>, feed: Feed, c: Client)
    requires Gapless(log) && feed.base + |feed.bus| == |log| && feed.bus == log[feed.base..]
    requires c.phase.Live? && ClientInv(log, feed.base, |feed.bus|, c)
    ensures ClientInv(log, feed.base, |feed.bus|, Pump(log, feed.bus, c))
  {
    if Oldest(feed.bus) <= c.next < |feed.bus| {
      assert feed.bus[c.next] == log[feed.base + c.next];
      assert feed.bus[c.next].sequence == feed.base + c.next + 1;
      if feed.base + c.next == c.last {
        OfferNext(log, c.(next := c.next + 1), feed.bus[c.next]);
      }
    }
  }

  lemma ResyncTurn(log: seq<Event>, feed: Feed, c: Client)
    requires Gapless(log) && c.phase.Resync? && ClientInv(log, feed.base, |feed.bus|, c)
    ensures ClientInv(log, feed.base, |feed.bus|, Pump(log, feed.bus, c))
  {
    var queue := c.phase.queue;
    if queue != [] {
      assert queue[0] == log[c.last];
      OfferNext(log, c, queue[0]);
      assert queue[1..] == log[c.last + 1..c.last + |queue|];
    }
  }

  lemma LeaveKeepsInv(log: seq<Event>, base: nat, sent: nat, c: Client)
    requires ClientInv(log, base, sent, c)
    ensures ClientInv(log, base, sent, c.(phase := Gone))
  {
    if c.phase.CatchUp? {
      assert c.delivered <= c.delivered + c.phase.queue;
      assert log[c.start..c.phase.head] <= log[c.start..];
    }
  }

  // A longer log, broadcast in full, disturbs no client.
  lemma BroadcastKeepsInv(log: seq<Event>, feed: Feed, more: seq<Event>)
    requires FeedInv(log, feed)
    ensures FeedInv(log + more, feed.(bus := feed.bus + more))
  {
    var log' := log + more;
    forall k | k in feed.clients
      ensures ClientInv(log', feed.base, |feed.bus + more|, feed.clients[k])
    {
      var c := feed.clients[k];
      assert forall i, j :: 0 <= i <= j <= |log| ==> log'[i..j] == log[i..j];
      if c.phase.Gone? {
        assert log[c.start..] <= log'[c.start..];
      }
    }
  }

  // ----- what a client can rely on ------------------------------------------

  // No gap, duplicate or reorder, whatever happened: a client holds a contiguous
  // segment of the log, which starts right after its cursor exactly if the log
  // reached that far when the client joined.
  lemma DeliveryIsContiguous(log: seq<Event>, feed: Feed, k: ClientId)
    requires FeedInv(log, feed) && k in feed.clients
    ensures
      var c := feed.clients[k];
      && c.start + |c.delivered| <= |log| && c.delivered == log[c.start..c.start + |c.delivered|]
      && (0 <= c.cursor ==> (c.start == c.cursor <==> c.cursor <= c.joinedAt))
  {
    var c := feed.clients[k];
    match c.phase
    case CatchUp(queue, head) => assert c.delivered == (c.delivered + queue)[..|c.delivered|];
    case _ =>
  }

  // A live client with nothing left on the bus has the whole log.
  lemma IdleClientIsCurrent(log: seq<Event>, feed: Feed, k: ClientId)
    requires FeedInv(log, feed) && k in feed.clients
    requires feed.clients[k].phase == Live && feed.clients[k].next == |feed.bus|
    ensures feed.clients[k].last == |log| && feed.clients[k].delivered == log[feed.clients[k].start..]
  {
  }

  // ----- the client loop as the connection task runs it ------------------------

  class ClientLink {
    var lastDelivered: nat
    var sent: seq<Event>
    var open: bool

    // What the link would be after `events` if every send went through.
    static function OfferAll(c: Client, events: seq<Event>): (r: Client)
      ensures c.delivered <= r.delivered
      decreases |events|
    {
      if events == [] then c else OfferAll(Offer(c, events[0]), events[1..])
    }

    function View(): Client
      reads this
    {
      Client(0, lastDelivered, Live, 0, 0, 0, sent)
    }

    constructor (head: nat, caughtUp: seq<Event>)
      ensures open && lastDelivered == head && sent == caughtUp
    {
      lastDelivered, sent, open := head, caughtUp, true;
    }

    // Stream the missed tail; `budget` sends succeed before the socket breaks.
    method ResyncFrom(missed: seq<Event>, budget: nat)
      requires open
      modifies this
      ensures open ==> View() == OfferAll(old(View()), missed)
      ensures !open ==> sent <= OfferAll(old(View()), missed).delivered
    {
      var left := budget;
      for i := 0 to |missed|
        invariant open
        invariant OfferAll(View(), missed[i..]) == OfferAll(old(View()), missed)
      {
        var e := missed[i];
        assert missed[i..][0] == e && missed[i..][1..] == missed[i + 1..];
        if e.sequence <= lastDelivered {
          continue;
        }
        lastDelivered := e.sequence;
        if left == 0 {
          open := false;
          assert sent <= OfferAll(old(View()), missed).delivered;
          return;
        }
        left := left - 1;
        sent := sent + [e];
      }
      assert missed[|missed|..] == [];
    }
  }

  // The loop is the resync turns of `Pump`, run to the end.
  lemma {:induction false} ResyncLoopIsPumping(log: seq<Event>, bus: seq<Event>, c: Client, turns: nat)
    requires c.phase.Resync? && turns == |c.phase.queue| + 1
    ensures PumpTimes(log, bus, c, turns) == ClientLink.OfferAll(c, c.phase.queue).(phase := Live)
    decreases turns
  {
    var queue := c.phase.queue;
    if queue != [] {
      ResyncLoopIsPumping(log, bus, Pump(log, bus, c), turns - 1);
      OfferAllIgnoresPhase(Offer(c, queue[0]), queue[1..], Resync(queue[1..]));
    }
  }

  function PumpTimes(log: seq<Event>, bus: seq<Event>, c: Client, turns: nat): Client
    decreases turns
  {
    if turns == 0 then c else PumpTimes(log, bus, Pump(log, bus, c), turns - 1)
  }

  lemma {:induction false} OfferAllIgnoresPhase(c: Client, events: seq<Event>, phase: Phase)
    ensures ClientLink.OfferAll(c.(phase := phase), events) == ClientLink.OfferAll(c, events).(phase := phase)
    decreases |events|
  {
    if events != [] {
      OfferAllIgnoresPhase(Offer(c, events[0]), events[1..], phase);
      assert Offer(c.(phase := phase), events[0]) == Offer(c, events[0]).(phase := phase);
    }
  }
}
