// Where collection ends up: the queue drains, and the server holds what the source
// gave.
module CrashOutcomes {
  import opened Basics
  import opened JsonLines
  import opened Tail
  import opened Queue
  import opened Tick
  import opened CrashSafety
  import opened CrashTheorems
  import opened CrashStrays

  // ----- watchers whose rows depend on the line alone ------------------------------------

  ghost predicate Stateless<Memory(!new), Row>(w: Watcher<Memory, Row>, rowsOf: Line -> seq<Row>) {
    forall now, m, line :: w.onLine(now, m, line).1 == rowsOf(line)
  }

  function RowsIn<Row>(lines: seq<Line>, rowsOf: Line -> seq<Row>): seq<Row> {
    if lines == [] then [] else RowsIn(lines[..|lines| - 1], rowsOf) + rowsOf(lines[|lines| - 1])
  }

  lemma {:induction false} RowsInConcat<Row>(a: seq<Line>, b: seq<Line>, rowsOf: Line -> seq<Row>)
    ensures RowsIn(a + b, rowsOf) == RowsIn(a, rowsOf) + RowsIn(b, rowsOf)
  {
    if b == [] {
      assert a + b == a;
    } else {
      assert (a + b)[..|a + b| - 1] == a + b[..|b| - 1];
      RowsInConcat(a, b[..|b| - 1], rowsOf);
    }
  }

  lemma {:induction false} LinesGiveRows<Memory(!new), Row>(w: Watcher<Memory, Row>, rowsOf: Line -> seq<Row>,
                                                            now: int, m: Memory, lines: seq<Line>)
    requires Stateless(w, rowsOf)
    ensures WatchLines(w, now, m, lines).1 == RowsIn(lines, rowsOf)
  {
    if lines != [] {
      LinesGiveRows(w, rowsOf, now, m, lines[..|lines| - 1]);
    }
  }

  ghost predicate ReadFrom<Row>(readings: seq<Reading>, rowsOf: Line -> seq<Row>, r: Row, n: string) {
    r in RowsIn(LinesOf(readings, n), rowsOf)
  }

  lemma ReadFromSnoc<Row>(init: seq<Reading>, last: Reading, rowsOf: Line -> seq<Row>, r: Row, n: string)
    ensures ReadFrom(init + [last], rowsOf, r, n) <==>
            ReadFrom(init, rowsOf, r, n) || (last.name == n && r in RowsIn(last.lines, rowsOf))
  {
    LinesOfSnoc(init, last, n);
    RowsInConcat(LinesOf(init, n), if last.name == n then last.lines else [], rowsOf);
    assert RowsIn(LinesOf(init, n), rowsOf) + [] == RowsIn(LinesOf(init, n), rowsOf);
  }

  // A tick finds exactly the rows of the lines it read, of whichever file.
  lemma {:induction false} FoundInSomeFile<Memory(!new), Row>(w: Watcher<Memory, Row>, rowsOf: Line -> seq<Row>,
                                                              now: int, m: Memory, readings: seq<Reading>, r: Row)
    requires Stateless(w, rowsOf)
    ensures r in RowsFound(w, now, m, readings) <==> exists n :: ReadFrom(readings, rowsOf, r, n)
  {
    if readings != [] {
      var init, last := readings[..|readings| - 1], readings[|readings| - 1];
      assert init + [last] == readings;
      FoundInSomeFile(w, rowsOf, now, m, init, r);
      LinesGiveRows(w, rowsOf, now, WatchReadings(w, now, m, init).0, last.lines);
      hide ReadFrom;
      forall n: string
        ensures ReadFrom(readings, rowsOf, r, n) <==>
          ReadFrom(init, rowsOf, r, n) || (last.name == n && r in RowsIn(last.lines, rowsOf))
      {
        ReadFromSnoc(init, last, rowsOf, r, n);
      }
      assert r in RowsIn(last.lines, rowsOf) ==> ReadFrom(readings, rowsOf, r, last.name);
    }
  }

  ghost predicate SavedFrom<Row>(history: seq<Entry>, rowsOf: Line -> seq<Row>, r: Row, n: string) {
    r in RowsIn(HistoryLines(history, n), rowsOf)
  }

  lemma SavedFromSnoc<Row>(history: seq<Entry>, rowsOf: Line -> seq<Row>, r: Row, n: string)
    requires history != []
    ensures SavedFrom(history, rowsOf, r, n) <==>
            SavedFrom(history[..|history| - 1], rowsOf, r, n) || ReadFrom(history[|history| - 1].readings, rowsOf, r, n)
  {
    RowsInConcat(HistoryLines(history[..|history| - 1], n), LinesOf(history[|history| - 1].readings, n), rowsOf);
  }

  lemma {:induction false} DerivedFromSomeFile<Memory(!new), Row>(w: Watcher<Memory, Row>, rowsOf: Line -> seq<Row>,
                                                                  history: seq<Entry>, r: Row)
    requires Stateless(w, rowsOf)
    ensures r in Replay(w, history).1 <==> exists n :: SavedFrom(history, rowsOf, r, n)
  {
    if history != [] {
      var init, e := history[..|history| - 1], history[|history| - 1];
      DerivedFromSomeFile(w, rowsOf, init, r);
      FoundInSomeFile(w, rowsOf, e.now, Replay(w, init).0, e.readings, r);
      hide SavedFrom, ReadFrom, RowsFound, MemoryAfter;
      forall n: string
        ensures SavedFrom(history, rowsOf, r, n) <==>
          SavedFrom(init, rowsOf, r, n) || ReadFrom(e.readings, rowsOf, r, n)
      {
        SavedFromSnoc(history, rowsOf, r, n);
      }
    }
  }

  // Row `r` comes from what file `n` has gained since it was first sighted.
  ghost predicate InSource<Memory, Row>(x: World<Memory, Row>, n: string, r: Row, rowsOf: Line -> seq<Row>)
    requires AllPlaced(x) && n in x.disk.offsets
  {
    r in RowsIn(Lines(x.files[n][x.first[n]..]), rowsOf)
  }

  // No complete line is left above any saved offset.
  ghost predicate CaughtUp<Memory, Row>(x: World<Memory, Row>)
    requires AllPlaced(x)
  {
    forall n :: n in x.disk.offsets ==> Unbroken(x.files[n], x.disk.offsets[n], |x.files[n]|)
  }

  lemma NoLinesLeft(b: seq<byte>, first: nat, o: nat)
    requires Placed(b, first, o) && Unbroken(b, o, |b|)
    ensures Lines(b[first..]) == Lines(b[first..o])
  {
    LinesJoin(b, first, o, |b|);
    assert b[first..|b|] == b[first..];
    assert !HasNewline(b[o..|b|]);
  }

  lemma JustifiedIsInSource<Memory(!new), Row(!new)>(x: World<Memory, Row>, w: Watcher<Memory, Row>,
                                                     rowsOf: Line -> seq<Row>, r: Row,
                                                     k: nat, now: int, readings: seq<Reading>) returns (n: string)
    requires Stateless(w, rowsOf) && AllPlaced(x) && Justified(x, w, r, k, now, readings)
    ensures n in x.disk.offsets && InSource(x, n, r, rowsOf)
  {
    FoundInSomeFile(w, rowsOf, now, Replay(w, x.history[..k]).0, readings, r);
    n :| ReadFrom(readings, rowsOf, r, n);
    assert ComesNext(x, k, readings, n);
    var earlier, lines := HistoryLines(x.history[..k], n), Lines(x.files[n][x.first[n]..]);
    var rest := lines[|earlier + LinesOf(readings, n)|..];
    assert lines == (earlier + LinesOf(readings, n)) + rest;
    RowsInConcat(earlier, LinesOf(readings, n), rowsOf);
    RowsInConcat(earlier + LinesOf(readings, n), rest, rowsOf);
  }

  lemma InSourceIsDerived<Memory(!new), Row(!new)>(x: World<Memory, Row>, w: Watcher<Memory, Row>,
                                                   rowsOf: Line -> seq<Row>, r: Row, n: string)
    requires Stateless(w, rowsOf) && Consistent(x, w) && CaughtUp(x) && n in x.disk.offsets && InSource(x, n, r, rowsOf)
    ensures r in Derived(x, w)
  {
    assert LinesConsumed(x, n);
    NoLinesLeft(x.files[n], x.first[n], x.disk.offsets[n]);
    assert SavedFrom(x.history, rowsOf, r, n);
    DerivedFromSomeFile(w, rowsOf, x.history, r);
  }

  // Any watcher, drained while no tick does harm: the server was given what the saved
  // ticks made, if and only if these made each row that an unsaved tick left behind.
  lemma ServerHoldsTheDerivedRows<Memory, Row(!new)>(plans: seq<Plan>, w: Watcher<Memory, Row>, c: Codec<Row>)
    requires c.Valid() && GrowingRun(plans, w, c) && AlwaysHarmless(plans, w, c)
    requires ReadRows(Run(plans, w, c).disk.queue, c) == []
    ensures
      var x := Run(plans, w, c);
      Elements(x.disk.given) == Elements(Derived(x, w)) <==> StraysAreMade(plans, w, c)
  {
    var x := Run(plans, w, c);
    CollectionIsCrashSafe(plans, w, c);
    KeptSoFar(plans, w, c);
    HeldIsDerived(plans, w, c);
    assert Held(x.disk, c) == Elements(x.disk.given);
    hide Run, ReadRows, Derived, Strays;
  }

  // Any watcher, caught up and drained while no tick does harm: the saved ticks read
  // every complete line since each file was first sighted, once and in order; and what
  // the server was given is what they made of these lines, if and only if they also made
  // each row that an unsaved tick left behind.
  lemma ServerHoldsTheSource<Memory, Row(!new)>(plans: seq<Plan>, w: Watcher<Memory, Row>, c: Codec<Row>)
    requires c.Valid() && GrowingRun(plans, w, c) && AlwaysHarmless(plans, w, c)
    requires
      var x := Run(plans, w, c);
      AllPlaced(x) && CaughtUp(x) && ReadRows(x.disk.queue, c) == []
    ensures
      var x := Run(plans, w, c);
      && (forall n :: n in x.disk.offsets ==> HistoryLines(x.history, n) == Lines(x.files[n][x.first[n]..]))
      && (Elements(x.disk.given) == Elements(Derived(x, w)) <==> StraysAreMade(plans, w, c))
  {
    hide Run, ReadRows, Derived, Strays;
    var x := Run(plans, w, c);
    RunIsSound(plans, w, c);
    ServerHoldsTheDerivedRows(plans, w, c);
    forall n | n in x.disk.offsets
      ensures HistoryLines(x.history, n) == Lines(x.files[n][x.first[n]..])
    {
      assert LinesConsumed(x, n);
      NoLinesLeft(x.files[n], x.first[n], x.disk.offsets[n]);
    }
  }

  // For a watcher whose rows depend on the line alone, whatever was left behind is made
  // again, so that nothing more is needed: the server holds exactly the source's rows.
  lemma StatelessServerHoldsTheSource<Memory(!new), Row(!new)>(plans: seq<Plan>, w: Watcher<Memory, Row>,
                                                               rowsOf: Line -> seq<Row>, c: Codec<Row>, r: Row)
    requires c.Valid() && Stateless(w, rowsOf) && GrowingRun(plans, w, c) && AlwaysHarmless(plans, w, c)
    requires forall i :: 0 <= i < |plans| ==> plans[i].stateReads
    requires
      var x := Run(plans, w, c);
      AllPlaced(x) && CaughtUp(x) && ReadRows(x.disk.queue, c) == []
    ensures
      var x := Run(plans, w, c);
      AllPlaced(x) && (r in x.disk.given <==> exists n :: n in x.disk.offsets && InSource(x, n, r, rowsOf))
  {
    var x := Run(plans, w, c);
    RunIsSound(plans, w, c);
    CollectionIsCrashSafe(plans, w, c);
    KeptSoFar(plans, w, c);
    NothingPast(plans, w, c);
    assert Held(x.disk, c) == Elements(x.disk.given);
    hide Run, ReadRows, CaughtUp, InSource, Justified, Stateless;
    if r in x.disk.given {
      assert HasReason(x, w, r);
      var k, now, readings :| Justified(x, w, r, k, now, readings);
      var n := JustifiedIsInSource(x, w, rowsOf, r, k, now, readings);
    }
    if n :| n in x.disk.offsets && InSource(x, n, r, rowsOf) {
      InSourceIsDerived(x, w, rowsOf, r, n);
    }
  }

  // While every tick can read the state, none begins anew.
  lemma {:induction false} NothingPast<Memory, Row(!new)>(plans: seq<Plan>, w: Watcher<Memory, Row>, c: Codec<Row>)
    requires forall i :: 0 <= i < |plans| ==> plans[i].stateReads
    ensures Run(plans, w, c).past == []
  {
    if plans != [] {
      NothingPast(plans[..|plans| - 1], w, c);
    }
  }

  // ----- draining -----------------------------------------------------------------------------------

  // A tick that finds nothing new, reads the queue, and runs to the end with a
  // confirmed send.
  ghost predicate IdleSend<Memory, Row>(d: Durable<Memory, Row>, p: Plan, w: Watcher<Memory, Row>) {
    && RowsFound(w, p.now, MemoryRead(d, p, w), LookAll(OffsetsRead(d, p), p.files).0) == []
    && p.readWorks && p.reached >= 4 && p.send.Confirmed? && p.rewriteWorks
  }

  function Ticks<Memory, Row(!new)>(d: Durable<Memory, Row>, plans: seq<Plan>, w: Watcher<Memory, Row>,
                                    c: Codec<Row>): Durable<Memory, Row> {
    if plans == [] then d
    else AfterTick(Ticks(d, plans[..|plans| - 1], w, c), plans[|plans| - 1], w, c)
  }

  lemma IdleSendTakesABatch<Memory, Row(!new)>(d: Durable<Memory, Row>, p: Plan, w: Watcher<Memory, Row>, c: Codec<Row>)
    requires c.Valid() && WellFramed(d.queue) && IdleSend(d, p, w)
    ensures
      var queued, after := ReadRows(d.queue, c), AfterTick(d, p, w, c);
      var take := BatchLength(queued, MAX_SEND_BYTES, c);
      && WellFramed(after.queue)
      && ReadRows(after.queue, c) == queued[take..]
      && after.given == d.given + queued[..take]
  {
    var queued := ReadRows(d.queue, c);
    var (readings, offsets) := LookAll(OffsetsRead(d, p), p.files);
    assert queued + [] == queued;
    QueueAfter(d, p, [], offsets, MemoryAfter(w, p.now, MemoryRead(d, p, w), readings), queued, c);
    if queued == [] {
      assert queued[BatchLength(queued, MAX_SEND_BYTES, c)..] == [];
    }
  }

  // The first `n` batches have left the queue for the server.
  ghost predicate Drained<Memory, Row(!new)>(d: Durable<Memory, Row>, after: Durable<Memory, Row>, n: nat,
                                             c: Codec<Row>) {
    var queued := ReadRows(d.queue, c);
    var batches := Batches(queued, MAX_SEND_BYTES, c);
    && WellFramed(after.queue)
    && Batches(ReadRows(after.queue, c), MAX_SEND_BYTES, c) == (if n <= |batches| then batches[n..] else [])
    && after.given + ReadRows(after.queue, c) == d.given + queued
  }

  lemma {:induction false} IdleSendsDrain<Memory, Row(!new)>(d: Durable<Memory, Row>, plans: seq<Plan>,
                                                             w: Watcher<Memory, Row>, c: Codec<Row>)
    requires c.Valid() && WellFramed(d.queue)
    requires forall i :: 0 <= i < |plans| ==> IdleSend(Ticks(d, plans[..i], w, c), plans[i], w)
    ensures Drained(d, Ticks(d, plans, w, c), |plans|, c)
  {
    hide Drained, IdleSend, AfterTick, WellFramed;
    if plans == [] {
      DrainedAtFirst(d, c);
    } else {
      var init := plans[..|plans| - 1];
      assert forall i :: 0 <= i < |init| ==> init[..i] == plans[..i];
      IdleSendsDrain(d, init, w, c);
      DrainOneMore(d, Ticks(d, init, w, c), |init|, plans[|plans| - 1], w, c);
    }
  }

  lemma DrainedAtFirst<Memory, Row(!new)>(d: Durable<Memory, Row>, c: Codec<Row>)
    requires WellFramed(d.queue)
    ensures Drained(d, d, 0, c)
  {
    hide ReadRows, Batches, WellFramed;
  }

  lemma DrainOneMore<Memory, Row(!new)>(d: Durable<Memory, Row>, before: Durable<Memory, Row>, n: nat, p: Plan,
                                        w: Watcher<Memory, Row>, c: Codec<Row>)
    requires c.Valid() && Drained(d, before, n, c) && IdleSend(before, p, w)
    ensures Drained(d, AfterTick(before, p, w, c), n + 1, c)
  {
    hide ReadRows, Batches, WellFramed, AfterTick, IdleSend;
    IdleSendMoves(before, p, w, c);
  }

  // One such tick takes off the first batch, and moves it to the server.
  lemma IdleSendMoves<Memory, Row(!new)>(d: Durable<Memory, Row>, p: Plan, w: Watcher<Memory, Row>, c: Codec<Row>)
    requires c.Valid() && WellFramed(d.queue) && IdleSend(d, p, w)
    ensures
      var queued, after := ReadRows(d.queue, c), AfterTick(d, p, w, c);
      var batches := Batches(queued, MAX_SEND_BYTES, c);
      && WellFramed(after.queue)
      && Batches(ReadRows(after.queue, c), MAX_SEND_BYTES, c) == (if batches == [] then [] else batches[1..])
      && after.given + ReadRows(after.queue, c) == d.given + queued
  {
    hide AfterTick, IdleSend, ReadRows, Batches, BatchLength, WellFramed;
    var queued := ReadRows(d.queue, c);
    var take := BatchLength(queued, MAX_SEND_BYTES, c);
    IdleSendTakesABatch(d, p, w, c);
    BatchesStep(queued, c);
    Regrouped(d.given, queued, take);
  }

  lemma Regrouped<Row>(given: seq<Row>, queued: seq<Row>, take: nat)
    requires take <= |queued|
    ensures given + queued[..take] + queued[take..] == given + queued
  {
    assert queued[..take] + queued[take..] == queued;
  }

  lemma BatchesStep<Row(!new)>(rows: seq<Row>, c: Codec<Row>)
    ensures
      var batches := Batches(rows, MAX_SEND_BYTES, c);
      Batches(rows[BatchLength(rows, MAX_SEND_BYTES, c)..], MAX_SEND_BYTES, c) ==
        (if batches == [] then [] else batches[1..])
  {
  }

  // Such ticks empty the queue after exactly as many as it had batches.
  lemma QueueDrains<Memory, Row(!new)>(d: Durable<Memory, Row>, plans: seq<Plan>, w: Watcher<Memory, Row>,
                                       c: Codec<Row>)
    requires c.Valid() && WellFramed(d.queue)
    requires forall i :: 0 <= i < |plans| ==> IdleSend(Ticks(d, plans[..i], w, c), plans[i], w)
    ensures
      var after := Ticks(d, plans, w, c);
      var batches := Batches(ReadRows(d.queue, c), MAX_SEND_BYTES, c);
      && (ReadRows(after.queue, c) == [] <==> |plans| >= |batches|)
      && (|plans| >= |batches| ==> after.given == d.given + ReadRows(d.queue, c))
  {
    IdleSendsDrain(d, plans, w, c);
    BatchesDrain(ReadRows(Ticks(d, plans, w, c).queue, c), MAX_SEND_BYTES, c);
  }
}
