// When the flags in the tables are set: a dispatch is acknowledged exactly when its node
// said so, and a wake is processed exactly when it was completed.
module FlagRuns {
  import opened Events
  import opened Store
  import opened Ledger
  import LiveFeed
  import opened ControlPlane
  import opened StoreRuns
  import opened ControlPlaneTheorems
  import CommandWork
  import WorkProgress

  // ----- acknowledgements -------------------------------------------------------------------

  function RowsOf(s: Sys): seq<DispatchRow> {
    s.ledger.tables.dispatches
  }

  // The step by which the hub receives the node's acknowledgement of this row.
  ghost predicate Acks(s: Sys, l: Label, row: DispatchRow) {
    && l.HubReceive? && l.from == row.nodeId && l.up == CommandAck(row.commandId)
    && (l.from, l.up) in s.net.toHub && l.p !in s.procs
  }

  ghost predicate AckedAt(labels: seq<Label>, i: nat, k: nat) {
    k < |labels| && i < |RowsOf(Run(labels[..k]))| && Acks(Run(labels[..k]), labels[k], RowsOf(Run(labels[..k]))[i])
  }

  ghost predicate EverAcked(labels: seq<Label>, i: nat) {
    exists k: nat :: AckedAt(labels, i, k)
  }

  // Any other operation leaves the flags of old rows, and new rows begin without.
  lemma OtherOpKeepsFlags(l: Ledger, op: HubOp)
    requires !op.Acknowledge? && Gapless(l.tables.events)
    ensures
      var rows, rows' := l.tables.dispatches, Perform(l, op).0.tables.dispatches;
      && |rows| <= |rows'|
      && (forall i :: 0 <= i < |rows| ==> rows'[i] == rows[i])
      && (forall i :: |rows| <= i < |rows'| ==> !rows'[i].acked)
  {
    if op.Command? && Created(l, op) {
      CommandWork.RowsAdded(l, op);
    } else {
      OtherOpKeepsRows(l, op);
    }
    hide Perform, Created;
  }

  lemma OtherOpKeepsRows(l: Ledger, op: HubOp)
    requires !op.Acknowledge? && !(op.Command? && Created(l, op))
    ensures Perform(l, op).0.tables.dispatches == l.tables.dispatches
  {
  }

  ghost predicate FlagsStep(s: Sys, l: Label, t: Sys) {
    && |RowsOf(s)| <= |RowsOf(t)|
    && (forall i :: 0 <= i < |RowsOf(s)| ==> RowsOf(t)[i].commandId == RowsOf(s)[i].commandId)
    && (forall i :: 0 <= i < |RowsOf(s)| ==> RowsOf(t)[i].acked == (RowsOf(s)[i].acked || Acks(s, l, RowsOf(s)[i])))
    && (forall i :: |RowsOf(s)| <= i < |RowsOf(t)| ==> !RowsOf(t)[i].acked)
  }

  lemma HubReceiveNeedsItsFrame(s: Sys, l: Label)
    requires l.HubReceive? && ((l.from, l.up) !in s.net.toHub || l.p in s.procs)
    ensures Next(s, l) == s
  {
  }

  lemma AckStepSetsFlags(s: Sys, l: Label)
    requires l.HubReceive? && l.up.CommandAck?
    ensures FlagsStep(s, l, Next(s, l))
  {
    hide Next;
    if (l.from, l.up) in s.net.toHub && l.p !in s.procs {
      WorkProgress.AckReceived(s, l.from, l.up.commandId, l.p);
      AckSets(s, l, Next(s, l));
    } else {
      HubReceiveNeedsItsFrame(s, l);
      SameRows(s, l, s);
    }
  }

  lemma OtherStepSetsFlags(s: Sys, l: Label)
    requires Gapless(s.ledger.tables.events) && !ClientLabel(l) && !l.HubRestart?
    requires !(l.HubReceive? && l.up.CommandAck?)
    ensures FlagsStep(s, l, Next(s, l))
  {
    hide Perform, Next, DidOp;
    StepIsOneOp(s, l);
    var t := Next(s, l);
    if op :| Fits(s, l, t, op) {
      OtherOpKeepsFlags(s.ledger, op);
      DidOpLedger(s, t, op);
      OtherRowsKept(s, l, t);
    } else {
      SameRows(s, l, t);
    }
  }

  lemma StepSetsFlags(s: Sys, l: Label)
    requires StoreInv(s)
    ensures FlagsStep(s, l, Next(s, l))
  {
    hide Next, LedgerInv, LiveFeed.FeedInv, RowsOf, Grows, FlagsStep;
    LogPart(s);
    if l.HubRestart? {
      Restarts(s);
    } else if ClientLabel(l) {
      ClientStepKeepsStore(s, l);
      SameRows(s, l, Next(s, l));
    } else if l.HubReceive? && l.up.CommandAck? {
      AckStepSetsFlags(s, l);
    } else {
      OtherStepSetsFlags(s, l);
    }
  }

  lemma Restarts(s: Sys)
    ensures FlagsStep(s, HubRestart, Next(s, HubRestart))
    ensures Next(s, HubRestart).ledger == s.ledger
  {
  }

  lemma SameRows(s: Sys, l: Label, t: Sys)
    requires t.ledger == s.ledger && forall row :: row in RowsOf(s) ==> !Acks(s, l, row)
    ensures FlagsStep(s, l, t)
  {
  }

  lemma OtherRowsKept(s: Sys, l: Label, t: Sys)
    requires forall row :: row in RowsOf(s) ==> !Acks(s, l, row)
    requires |RowsOf(s)| <= |RowsOf(t)| && forall i :: 0 <= i < |RowsOf(s)| ==> RowsOf(t)[i] == RowsOf(s)[i]
    requires forall i :: |RowsOf(s)| <= i < |RowsOf(t)| ==> !RowsOf(t)[i].acked
    ensures FlagsStep(s, l, t)
  {
  }

  lemma AckSets(s: Sys, l: Label, t: Sys)
    requires l.HubReceive? && l.up.CommandAck? && (l.from, l.up) in s.net.toHub && l.p !in s.procs
    requires WorkProgress.AcksOne(RowsOf(s), RowsOf(t), l.from, l.up.commandId)
    ensures FlagsStep(s, l, t)
  {
  }

  lemma AtFirst(labels: seq<Label>)
    requires labels == []
    ensures RowsOf(Run(labels)) == [] && WakesOf(Run(labels)) == map[]
  {
  }

  lemma {:induction false} FlagsOfRun(labels: seq<Label>, i: nat)
    ensures i < |RowsOf(Run(labels))| ==> (RowsOf(Run(labels))[i].acked <==> EverAcked(labels, i))
    ensures i >= |RowsOf(Run(labels))| ==> !EverAcked(labels, i)
  {
    hide Run, Next, Acks, StoreInv;
    if labels == [] {
      AtFirst(labels);
    } else {
      hide RowsOf, EverAcked;
      var init, last := labels[..|labels| - 1], labels[|labels| - 1];
      FlagsOfRun(init, i);
      ReachableStore(init);
      StepSetsFlags(Run(init), last);
      RunExtends(init, last);
      AckedMore(init, last, i);
      assert init + [last] == labels;
    }
  }

  lemma AckedMore(labels: seq<Label>, l: Label, i: nat)
    ensures EverAcked(labels + [l], i) <==>
            EverAcked(labels, i) || (i < |RowsOf(Run(labels))| && Acks(Run(labels), l, RowsOf(Run(labels))[i]))
  {
    hide Run, Acks, RowsOf;
    var more := labels + [l];
    assert more[|labels|] == l && more[..|labels|] == labels;
    assert forall k :: 0 <= k < |labels| ==> more[k] == labels[k] && more[..k] == labels[..k];
    assert AckedAt(more, i, |labels|) <==>
      i < |RowsOf(Run(labels))| && Acks(Run(labels), l, RowsOf(Run(labels))[i]);
    if k: nat :| AckedAt(labels, i, k) {
      assert AckedAt(more, i, k);
    }
    if k: nat :| AckedAt(more, i, k) && k < |labels| {
      assert AckedAt(labels, i, k);
    }
  }

  // In any run, a dispatch is acknowledged if and only if at some step since it was queued
  // the hub received an acknowledgement of its command from its own node.
  lemma AckedIffTold(labels: seq<Label>, i: nat)
    requires i < |RowsOf(Run(labels))|
    ensures RowsOf(Run(labels))[i].acked <==> EverAcked(labels, i)
  {
    FlagsOfRun(labels, i);
  }

  // ----- wakes --------------------------------------------------------------------------------

  function WakesOf(s: Sys): map<EventId, Wake> {
    s.ledger.tables.wakes
  }

  ghost predicate CompletedAt(labels: seq<Label>, w: EventId, k: nat) {
    k < |labels| && labels[k] == CompleteWakeStep(w) && w in WakesOf(Run(labels[..k]))
  }

  ghost predicate EverCompleted(labels: seq<Label>, w: EventId) {
    exists k: nat :: CompletedAt(labels, w, k)
  }

  lemma OtherOpKeepsWake(l: Ledger, op: HubOp, w: EventId)
    requires op != FinishWake(w)
    ensures
      var wakes, wakes' := l.tables.wakes, Perform(l, op).0.tables.wakes;
      && (w in wakes ==> w in wakes' && wakes'[w] == wakes[w])
      && (w !in wakes && w in wakes' ==> !wakes'[w].processed)
  {
    match op
    case Command(plan, id) => CommandKeepsWakeTable(l, plan, id);
    case _ =>
  }

  lemma CommandKeepsWakeTable(l: Ledger, plan: Plan, id: EventId)
    ensures Perform(l, Command(plan, id)).0.tables.wakes == l.tables.wakes
  {
    hide DraftOf, EntityOf, DispatchOf;
  }

  ghost predicate WakeStep(s: Sys, l: Label, t: Sys, w: EventId) {
    && (w in WakesOf(s) ==>
         && w in WakesOf(t)
         && WakesOf(t)[w] == WakesOf(s)[w].(processed := WakesOf(s)[w].processed || l == CompleteWakeStep(w)))
    && (w !in WakesOf(s) && w in WakesOf(t) ==> !WakesOf(t)[w].processed)
  }

  lemma CompletingStep(s: Sys, w: EventId)
    ensures WakeStep(s, CompleteWakeStep(w), Next(s, CompleteWakeStep(w)), w)
  {
  }

  lemma StepSetsWake(s: Sys, l: Label, w: EventId)
    requires StoreInv(s)
    ensures WakeStep(s, l, Next(s, l), w)
  {
    hide Next, StoreInv, Grows;
    if l.HubRestart? {
      Restarts(s);
    } else if ClientLabel(l) {
      ClientStepKeepsStore(s, l);
    } else if l == CompleteWakeStep(w) {
      CompletingStep(s, w);
    } else {
      OtherStepSetsWake(s, l, w);
    }
  }

  lemma OtherStepSetsWake(s: Sys, l: Label, w: EventId)
    requires !ClientLabel(l) && !l.HubRestart? && l != CompleteWakeStep(w)
    ensures WakeStep(s, l, Next(s, l), w)
  {
    hide Next, Perform, DidOp;
    StepIsOneOp(s, l);
    if op :| Fits(s, l, Next(s, l), op) {
      OtherOpKeepsWake(s.ledger, op, w);
      DidOpLedger(s, Next(s, l), op);
    }
  }

  lemma CompletedMore(labels: seq<Label>, l: Label, w: EventId)
    ensures EverCompleted(labels + [l], w) <==>
            EverCompleted(labels, w) || (l == CompleteWakeStep(w) && w in WakesOf(Run(labels)))
  {
    hide Run, WakesOf;
    var more := labels + [l];
    assert more[|labels|] == l && more[..|labels|] == labels;
    assert forall k :: 0 <= k < |labels| ==> more[k] == labels[k] && more[..k] == labels[..k];
    assert CompletedAt(more, w, |labels|) <==> l == CompleteWakeStep(w) && w in WakesOf(Run(labels));
    if k: nat :| CompletedAt(labels, w, k) {
      assert CompletedAt(more, w, k);
    }
    if k: nat :| CompletedAt(more, w, k) && k < |labels| {
      assert CompletedAt(labels, w, k);
    }
  }

  // In any run, a wake is processed if and only if it was completed at some step since it
  // was due.
  lemma {:induction false} ProcessedIffCompleted(labels: seq<Label>, w: EventId)
    ensures w in WakesOf(Run(labels)) ==> (WakesOf(Run(labels))[w].processed <==> EverCompleted(labels, w))
    ensures w !in WakesOf(Run(labels)) ==> !EverCompleted(labels, w)
  {
    hide Run, Next, StoreInv;
    if labels == [] {
      AtFirst(labels);
    } else {
      hide WakesOf, EverCompleted;
      var init, last := labels[..|labels| - 1], labels[|labels| - 1];
      ProcessedIffCompleted(init, w);
      ReachableStore(init);
      StepSetsWake(Run(init), last, w);
      RunExtends(init, last);
      CompletedMore(init, last, w);
      assert init + [last] == labels;
    }
  }
}
