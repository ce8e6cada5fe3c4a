// The node side as objects: the outbox that resends until acknowledged, and the
// engine's gate on commands it has seen.
module NodeOutbox {
  import opened Basics
  import opened Events
  import opened ControlPlane

  function Frames(pending: seq<(EventId, EventDraft)>): (r: seq<NodeToHub>)
    ensures |r| == |pending|
    ensures forall i :: 0 <= i < |r| ==> r[i] == NodeEvent(pending[i].0, pending[i].1)
  {
    seq(|pending|, i requires 0 <= i < |pending| => NodeEvent(pending[i].0, pending[i].1))
  }

  // The channel to the writer task: it takes `room` more frames, then the link is gone.
  class Link {
    var queue: seq<NodeToHub>
    var room: nat

    method Send(m: NodeToHub) returns (ok: bool)
      modifies this
      ensures ok == (old(room) > 0)
      ensures queue == if ok then old(queue) + [m] else old(queue)
      ensures room == if ok then old(room) - 1 else 0
    {
      ok := room > 0;
      if ok {
        queue := queue + [m];
        room := room - 1;
      }
    }

    // Send in order, stopping at the first failure.
    method SendAll(messages: seq<NodeToHub>)
      modifies this
      ensures queue == old(queue) + messages[..Min(old(room), |messages|)]
    {
      for i := 0 to |messages|
        invariant i <= old(room) && room == old(room) - i
        invariant queue == old(queue) + messages[..i]
      {
        var ok := Send(messages[i]);
        if !ok {
          break;
        }
        assert messages[..i + 1] == messages[..i] + [messages[i]];
      }
    }
  }

  // Removing by id takes out the first entry that has it.
  lemma {:induction false} RemovedAt(outbox: seq<(EventId, EventDraft)>, i: nat, id: EventId)
    requires i <= |outbox| && (i < |outbox| ==> outbox[i].0 == id) && forall k :: 0 <= k < i ==> outbox[k].0 != id
    ensures RemoveEvent(outbox, id) == if i < |outbox| then outbox[..i] + outbox[i + 1..] else outbox
  {
    if i > 0 {
      RemovedAt(outbox[1..], i - 1, id);
      FirstKept(outbox, i);
    }
  }

  lemma FirstKept<T>(s: seq<T>, i: nat)
    requires 0 < i <= |s|
    ensures [s[0]] + s[1..] == s
    ensures i < |s| ==> [s[0]] + (s[1..][..i - 1] + s[1..][i..]) == s[..i] + s[i + 1..]
  {
  }

  class EngineOutbox {
    var pending: seq<(EventId, EventDraft)>
    var tx: Link?

    constructor ()
      ensures pending == [] && tx == null
    {
      pending, tx := [], null;
    }

    // A new session: everything still unacknowledged is sent again, oldest first.
    method Attach(link: Link)
      modifies this, link
      ensures tx == link && pending == old(pending)
      ensures link.queue == old(link.queue) + Frames(pending)[..Min(old(link.room), |pending|)]
    {
      tx := link;
      link.SendAll(Frames(pending));
    }

    method Detach()
      modifies `tx
      ensures tx == null
    {
      tx := null;
    }

    method ResendPending()
      modifies tx
      ensures tx != null ==> tx.queue == old(tx.queue) + Frames(pending)[..Min(old(tx.room), |pending|)]
    {
      if tx != null {
        tx.SendAll(Frames(pending));
      }
    }

    // Drops the first entry with this id, if there is one.
    method AcknowledgeEvent(id: EventId)
      modifies `pending
      ensures pending == RemoveEvent(old(pending), id)
    {
      var i := 0;
      while i < |pending| && pending[i].0 != id
        invariant i <= |pending| && forall k :: 0 <= k < i ==> pending[k].0 != id
      {
        i := i + 1;
      }
      RemovedAt(pending, i, id);
      if i < |pending| {
        pending := pending[..i] + pending[i + 1..];
      }
    }

    // Queued first, then sent: an event emitted without a link waits in the outbox.
    method EmitDraft(id: EventId, draft: EventDraft) returns (ok: bool)
      modifies this, tx
      ensures pending == old(pending) + [(id, draft)] && tx == old(tx)
      ensures ok == (tx == null || old(tx.room) > 0)
      ensures tx != null ==> tx.queue == old(tx.queue) + if ok then [NodeEvent(id, draft)] else []
    {
      pending := pending + [(id, draft)];
      if tx == null {
        return true;
      }
      ok := tx.Send(NodeEvent(id, draft));
    }

    method Ack(command: CommandId) returns (ok: bool)
      modifies tx
      ensures ok == (tx != null && old(tx.room) > 0)
      ensures tx != null ==> tx.queue == old(tx.queue) + if ok then [CommandAck(command)] else []
    {
      if tx == null {
        return false;
      }
      ok := tx.Send(CommandAck(command));
    }
  }

  // The engine as far as the gate goes: what it has seen and what it acted on.
  class Engine {
    var seen: set<CommandId>
    var effects: seq<HubToNode>

    constructor ()
      ensures seen == {} && effects == []
    {
      seen, effects := {}, [];
    }

    function View(out: EngineOutbox): Node
      reads this, out
    {
      Node(out.pending, seen, effects)
    }

    // Every delivery is acknowledged; only the first one is acted on.
    method Dispatch(m: HubToNode, out: EngineOutbox) returns (acted: bool)
      requires m.DispatchCommand?
      modifies this, out.tx
      ensures acted == (m.commandId !in old(seen)) && out.pending == old(out.pending)
      ensures seen == old(seen) + {m.commandId}
      ensures effects == old(effects) + if m.commandId in old(seen) then [] else [m]
      ensures View(out) == Accept(old(View(out)), m)
      ensures out.tx != null && old(out.tx.room) > 0 ==> out.tx.queue == old(out.tx.queue) + [CommandAck(m.commandId)]
    {
      acted := m.commandId !in seen;
      assert !acted ==> seen + {m.commandId} == seen && effects + [] == effects;
      if acted {
        seen := seen + {m.commandId};
        effects := effects + [m];
      }
      var _ := out.Ack(m.commandId);
    }
  }
}
