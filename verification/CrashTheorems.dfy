// What collection over any number of crashing ticks adds up to, and exactly when it
// fails.
module CrashTheorems {
  import opened Basics
  import opened Wrappers
  import opened JsonLines
  import opened Tail
  import opened Queue
  import opened Tick
  import opened CrashSafety

  function InHand<Memory, Row(!new)>(x: World<Memory, Row>, p: Plan, w: Watcher<Memory, Row>, c: Codec<Row>): seq<Row> {
    Queued(x.disk, p, c) + Finds(x, p, w)
  }

  lemma HeldThen<Memory, Row(!new)>(x: World<Memory, Row>, p: Plan, w: Watcher<Memory, Row>, c: Codec<Row>)
    requires c.Valid() && WellFramed(x.disk.queue)
    ensures WellFramed(Advance(x, p, w, c).disk.queue)
    ensures Held(Advance(x, p, w, c).disk, c) ==
            if Rewrites(p, InHand(x, p, w, c)) then Elements(x.disk.given) + Elements(InHand(x, p, w, c))
            else Held(x.disk, c) + (if Appends(p) then Elements(Finds(x, p, w)) else {})
                                 + (if Posts(p) then Elements(Batch(InHand(x, p, w, c), c)) else {})
  {
    QueueAfter(x.disk, p, Finds(x, p, w), OffsetsAfter(x, p), Remembers(x, p, w), Queued(x.disk, p, c), c);
    HeldAfter(x.disk, p, Finds(x, p, w), OffsetsAfter(x, p), Remembers(x, p, w), Queued(x.disk, p, c), c);
  }

  // A tick holds nothing but what it held and what it found.
  lemma HeldOrFound<Memory, Row(!new)>(x: World<Memory, Row>, p: Plan, w: Watcher<Memory, Row>, c: Codec<Row>, r: Row)
    requires c.Valid() && WellFramed(x.disk.queue) && r in Held(Advance(x, p, w, c).disk, c)
    ensures r in Held(x.disk, c) || r in Finds(x, p, w)
  {
    HeldThen(x, p, w, c);
    hide Advance, Finds, ReadRows, BatchLength, WellFramed;
    ElementsConcat(Queued(x.disk, p, c), Finds(x, p, w));
  }

  // What a step that the saved ticks account for does to the reason for a row.
  lemma ReasonStays<Memory, Row>(x: World<Memory, Row>, x': World<Memory, Row>, e: Entry, offsets: Offsets, saved: bool,
                                 w: Watcher<Memory, Row>, r: Row)
    requires Consistent(x, w) && Stepped(x, x', e, offsets, saved) && AllPlaced(x')
    ensures HasReason(x, w, r) ==> HasReason(x', w, r)
    ensures r in RowsFound(w, e.now, x.disk.memory, e.readings) ==> HasReason(x', w, r)
  {
    hide Stepped, Justified, Consistent;
    if HasReason(x, w, r) {
      var k, now, readings :| Justified(x, w, r, k, now, readings);
      JustifiedAfter(x, x', e, offsets, saved, w, r, k, now, readings);
    }
    if r in RowsFound(w, e.now, x.disk.memory, e.readings) {
      FoundIsJustified(x, x', e, offsets, saved, w, r);
    }
  }

  lemma ReadTickInventsNothing<Memory, Row(!new)>(x: World<Memory, Row>, p: Plan, w: Watcher<Memory, Row>,
                                                  c: Codec<Row>)
    requires c.Valid() && Sound(x, w, c) && FilesGrow(x, p) && p.stateReads
    ensures Sound(Advance(x, p, w, c), w, c)
  {
    var x', e := Advance(x, p, w, c), Entry(p.now, Readings(x, p));
    TickStaysConsistent(x, p, w, c);
    AdvanceSteps(x, p, w, c);
    HeldThen(x, p, w, c);
    forall r | r in Held(x'.disk, c)
      ensures HasReason(x', w, r) || HadReason(x'.past, w, r)
    {
      assert x'.past == x.past && (r in Held(x.disk, c) ==> HasReason(x, w, r) || HadReason(x.past, w, r));
      hide Stepped, HasReason, HadReason, Advance, Consistent, FilesGrow, Held;
      HeldOrFound(x, p, w, c, r);
      ReasonStays(x, x', e, OffsetsAfter(x, p), Saves(p), w, r);
    }
  }

  lemma AnewIsSound<Memory, Row(!new)>(x: World<Memory, Row>, w: Watcher<Memory, Row>, c: Codec<Row>)
    requires Sound(x, w, c)
    ensures Sound(Anew(x, w), w, c) && Held(Anew(x, w).disk, c) == Held(x.disk, c)
  {
    var y := Anew(x, w);
    AnewIsConsistent(x, w);
    forall r | r in Held(y.disk, c)
      ensures HasReason(y, w, r) || HadReason(y.past, w, r)
    {
      assert HasReason(x, w, r) || HadReason(x.past, w, r);
      NowPast(x, w, r);
    }
  }

  lemma NowPast<Memory, Row>(x: World<Memory, Row>, w: Watcher<Memory, Row>, r: Row)
    ensures HasReason(x, w, r) || HadReason(x.past, w, r) ==> HadReason(x.past + [x.(past := [])], w, r)
  {
    var last := x.(past := []);
    var past := x.past + [last];
    if HasReason(x, w, r) {
      var k, now, readings :| Justified(x, w, r, k, now, readings);
      assert AllPlaced(last);
      assert forall n :: ComesNext(x, k, readings, n) ==> ComesNext(last, k, readings, n);
      assert Justified(last, w, r, k, now, readings);
      assert past[|x.past|] == last;
    } else if i :| 0 <= i < |x.past| && HasReason(x.past[i], w, r) {
      assert past[i] == x.past[i];
    }
  }

  lemma UnsavedInventsNothing<Memory, Row(!new)>(x: World<Memory, Row>, p: Plan, w: Watcher<Memory, Row>, c: Codec<Row>)
    requires c.Valid() && Sound(x, w, c) && FilesGrow(x, p) && !p.stateReads && !Saves(p)
    ensures Sound(Advance(x, p, w, c), w, c)
  {
    var x', e := Advance(x, p, w, c), Entry(p.now, Readings(x, p));
    TickStaysConsistent(x, p, w, c);
    UnreadUnsaved(x, p, w, c);
    UnreadFindsNothing(x, p, w);
    HeldThen(x, p, w, c);
    forall r | r in Held(x'.disk, c)
      ensures HasReason(x', w, r) || HadReason(x'.past, w, r)
    {
      assert x'.past == x.past && (r in Held(x.disk, c) ==> HasReason(x, w, r) || HadReason(x.past, w, r));
      hide Stepped, HasReason, HadReason, Advance, Consistent, FilesGrow, Held;
      HeldOrFound(x, p, w, c, r);
      ReasonStays(x, x', e, x.disk.offsets, false, w, r);
    }
  }

  // Nothing is ever in the queue or at the server that no file produced.
  lemma TickInventsNothing<Memory, Row(!new)>(x: World<Memory, Row>, p: Plan, w: Watcher<Memory, Row>, c: Codec<Row>)
    requires c.Valid() && Sound(x, w, c) && FilesGrow(x, p)
    ensures Sound(Advance(x, p, w, c), w, c)
  {
    hide Sound, Advance, FilesGrow, Anew;
    if p.stateReads {
      ReadTickInventsNothing(x, p, w, c);
    } else if Saves(p) {
      AnewIsSound(x, w, c);
      UnreadIsAnew(x, p, w, c);
      ReadTickInventsNothing(Anew(x, w), p.(stateReads := true), w, c);
    } else {
      UnsavedInventsNothing(x, p, w, c);
    }
  }

  // ----- exactly what a tick loses ----------------------------------------------------------------

  // A row that the saved state has passed over, and that is nowhere: the append failed,
  // and nothing made up for it.
  ghost predicate Drops<Memory, Row(!new)>(x: World<Memory, Row>, p: Plan, w: Watcher<Memory, Row>, c: Codec<Row>,
                                           r: Row) {
    && Saves(p) && !Appends(p) && !Rewrites(p, InHand(x, p, w, c))
    && r in Finds(x, p, w) && r !in Held(x.disk, c)
    && !(Posts(p) && r in Batch(InHand(x, p, w, c), c))
  }

  // A queued row that a tick forgets: it could not read the queue, and rewrote it.
  ghost predicate Forgets<Memory, Row(!new)>(x: World<Memory, Row>, p: Plan, w: Watcher<Memory, Row>, c: Codec<Row>,
                                             r: Row) {
    && !p.readWorks && Rewrites(p, InHand(x, p, w, c))
    && r in ReadRows(x.disk.queue, c) && r !in Finds(x, p, w) && r !in x.disk.given
  }

  ghost predicate Harmless<Memory, Row(!new)>(x: World<Memory, Row>, p: Plan, w: Watcher<Memory, Row>, c: Codec<Row>) {
    && (forall r :: !Drops(x, p, w, c, r))
    && (forall r :: r in Derived(x, w) ==> !Forgets(x, p, w, c, r))
  }

  lemma FoundStaysUnlessDropped<Memory, Row(!new)>(x: World<Memory, Row>, p: Plan, w: Watcher<Memory, Row>,
                                                   c: Codec<Row>, r: Row)
    requires c.Valid() && WellFramed(x.disk.queue) && Saves(p) && r in Finds(x, p, w)
    ensures r in Held(Advance(x, p, w, c).disk, c) <==> !Drops(x, p, w, c, r)
  {
    HeldThen(x, p, w, c);
    hide Advance, Finds, ReadRows, BatchLength, WellFramed, Queued;
    ElementsConcat(Queued(x.disk, p, c), Finds(x, p, w));
  }

  lemma HeldStaysUnlessForgotten<Memory, Row(!new)>(x: World<Memory, Row>, p: Plan, w: Watcher<Memory, Row>,
                                                    c: Codec<Row>, r: Row)
    requires c.Valid() && WellFramed(x.disk.queue) && r in Held(x.disk, c)
    ensures r in Held(Advance(x, p, w, c).disk, c) <==> !Forgets(x, p, w, c, r)
  {
    HeldThen(x, p, w, c);
    hide Advance, Finds, ReadRows, BatchLength, WellFramed;
    ElementsConcat(Queued(x.disk, p, c), Finds(x, p, w));
  }

  lemma FramedPart<Memory, Row(!new)>(x: World<Memory, Row>, w: Watcher<Memory, Row>, c: Codec<Row>)
    requires Sound(x, w, c)
    ensures WellFramed(x.disk.queue)
  {
  }

  lemma DroppedWasFound<Memory, Row(!new)>(x: World<Memory, Row>, p: Plan, w: Watcher<Memory, Row>, c: Codec<Row>,
                                           r: Row)
    requires Drops(x, p, w, c, r)
    ensures Saves(p) && r in Finds(x, p, w)
  {
  }

  // Exactly when a tick, cut off anywhere, keeps every row that a saved tick made.
  lemma TickLosesOnlyDrops<Memory, Row(!new)>(x: World<Memory, Row>, p: Plan, w: Watcher<Memory, Row>, c: Codec<Row>)
    requires c.Valid() && Sound(x, w, c) && NothingLost(x, w, c) && FilesGrow(x, p)
    ensures NothingLost(Advance(x, p, w, c), w, c) <==> Harmless(x, p, w, c)
  {
    hide Advance, Drops, Forgets, Consistent, FilesGrow, Held, Sound, WellFramed, Derived, Finds;
    var x' := Advance(x, p, w, c);
    FramedPart(x, w, c);
    ConsistentPart(x, w, c);
    TickStaysConsistent(x, p, w, c);
    if Harmless(x, p, w, c) {
      forall r | r in Derived(x', w)
        ensures r in Held(x'.disk, c)
      {
        if r in Derived(x, w) {
          HeldStaysUnlessForgotten(x, p, w, c, r);
        } else {
          FoundStaysUnlessDropped(x, p, w, c, r);
        }
      }
    } else if r :| Drops(x, p, w, c, r) {
      DroppedWasFound(x, p, w, c, r);
      FoundStaysUnlessDropped(x, p, w, c, r);
    } else {
      var r :| r in Derived(x, w) && Forgets(x, p, w, c, r);
      HeldStaysUnlessForgotten(x, p, w, c, r);
    }
  }

  // A tick that can read the queue, and whose append works or whose state is not saved,
  // does no harm, wherever it is cut off and whatever else fails.
  lemma WorkingDiskIsHarmless<Memory, Row(!new)>(x: World<Memory, Row>, p: Plan, w: Watcher<Memory, Row>, c: Codec<Row>)
    requires p.readWorks && (p.appendWorks || !p.saveWorks)
    ensures Harmless(x, p, w, c)
  {
  }

  // ----- over every run ------------------------------------------------------------------------------

  ghost predicate GrowingRun<Memory, Row(!new)>(plans: seq<Plan>, w: Watcher<Memory, Row>, c: Codec<Row>) {
    forall i :: 0 <= i < |plans| ==> FilesGrow(Run(plans[..i], w, c), plans[i])
  }

  lemma StartIsSound<Memory, Row(!new)>(w: Watcher<Memory, Row>, c: Codec<Row>)
    ensures Sound(Start(w), w, c) && NothingLost(Start(w), w, c) && Held(Start(w).disk, c) == {}
  {
  }

  lemma {:induction false} RunIsSound<Memory, Row(!new)>(plans: seq<Plan>, w: Watcher<Memory, Row>, c: Codec<Row>)
    requires c.Valid() && GrowingRun(plans, w, c)
    ensures Sound(Run(plans, w, c), w, c)
  {
    if plans == [] {
      StartIsSound(w, c);
    } else {
      var init := plans[..|plans| - 1];
      assert forall i :: 0 <= i < |init| ==> init[..i] == plans[..i];
      RunIsSound(init, w, c);
      hide Sound, Advance, FilesGrow;
      TickInventsNothing(Run(init, w, c), plans[|plans| - 1], w, c);
    }
  }

  ghost predicate AlwaysKept<Memory, Row(!new)>(plans: seq<Plan>, w: Watcher<Memory, Row>, c: Codec<Row>) {
    forall k :: 0 <= k <= |plans| ==> NothingLost(Run(plans[..k], w, c), w, c)
  }

  ghost predicate AlwaysHarmless<Memory, Row(!new)>(plans: seq<Plan>, w: Watcher<Memory, Row>, c: Codec<Row>) {
    forall i :: 0 <= i < |plans| ==> Harmless(Run(plans[..i], w, c), plans[i], w, c)
  }

  lemma LastOfRun<Memory, Row(!new)>(plans: seq<Plan>, w: Watcher<Memory, Row>, c: Codec<Row>)
    requires plans != []
    ensures
      var init, last := plans[..|plans| - 1], plans[|plans| - 1];
      && AlwaysKept(plans, w, c) == (AlwaysKept(init, w, c) && NothingLost(Run(plans, w, c), w, c))
      && AlwaysHarmless(plans, w, c) == (AlwaysHarmless(init, w, c) && Harmless(Run(init, w, c), last, w, c))
  {
    hide NothingLost, Harmless, Run;
    var init := plans[..|plans| - 1];
    assert forall i :: 0 <= i <= |init| ==> init[..i] == plans[..i];
    assert plans[..|plans|] == plans && init[..|init|] == init;
  }

  // Never is a row missing that a saved tick made, over any number of ticks, exactly if
  // every one of them is harmless.
  lemma {:induction false} CollectionIsCrashSafe<Memory, Row(!new)>(plans: seq<Plan>, w: Watcher<Memory, Row>,
                                                                    c: Codec<Row>)
    requires c.Valid() && GrowingRun(plans, w, c)
    ensures AlwaysKept(plans, w, c) <==> AlwaysHarmless(plans, w, c)
  {
    if plans == [] {
      StartIsSound(w, c);
      assert forall k :: 0 <= k <= |plans| ==> plans[..k] == plans;
    } else {
      var init, last := plans[..|plans| - 1], plans[|plans| - 1];
      assert forall i :: 0 <= i < |init| ==> init[..i] == plans[..i];
      CollectionIsCrashSafe(init, w, c);
      RunIsSound(init, w, c);
      hide AlwaysKept, AlwaysHarmless, Run;
      LastOfRun(plans, w, c);
      if AlwaysKept(init, w, c) {
        KeptSoFar(init, w, c);
      }
      OneMoreTick(Run(init, w, c), last, w, c);
      assert Run(plans, w, c) == Advance(Run(init, w, c), last, w, c) by {
        RunsOn(plans, w, c);
      }
    }
  }

  lemma RunsOn<Memory, Row(!new)>(plans: seq<Plan>, w: Watcher<Memory, Row>, c: Codec<Row>)
    requires plans != []
    ensures Run(plans, w, c) == Advance(Run(plans[..|plans| - 1], w, c), plans[|plans| - 1], w, c)
  {
  }

  lemma KeptSoFar<Memory, Row(!new)>(plans: seq<Plan>, w: Watcher<Memory, Row>, c: Codec<Row>)
    requires AlwaysKept(plans, w, c)
    ensures NothingLost(Run(plans, w, c), w, c)
  {
    assert plans[..|plans|] == plans;
  }

  lemma OneMoreTick<Memory, Row(!new)>(x: World<Memory, Row>, p: Plan, w: Watcher<Memory, Row>, c: Codec<Row>)
    requires c.Valid() && Sound(x, w, c) && FilesGrow(x, p)
    ensures NothingLost(x, w, c) ==> (NothingLost(Advance(x, p, w, c), w, c) <==> Harmless(x, p, w, c))
  {
    hide Sound, Advance, FilesGrow, NothingLost, Harmless;
    if NothingLost(x, w, c) {
      TickLosesOnlyDrops(x, p, w, c);
    }
  }

  // A row that is nowhere stays so until a tick finds it again.
  lemma {:induction false} LostForGood<Memory, Row(!new)>(x: World<Memory, Row>, plans: seq<Plan>,
                                                          w: Watcher<Memory, Row>, c: Codec<Row>, r: Row)
    requires c.Valid() && WellFramed(x.disk.queue) && r !in Held(x.disk, c)
    requires forall i :: 0 <= i < |plans| ==> r !in Finds(RunFrom(x, plans[..i], w, c), plans[i], w)
    ensures WellFramed(RunFrom(x, plans, w, c).disk.queue) && r !in Held(RunFrom(x, plans, w, c).disk, c)
  {
    hide Held, Finds, Advance, WellFramed;
    if plans != [] {
      var init := plans[..|plans| - 1];
      assert forall i :: 0 <= i < |init| ==> init[..i] == plans[..i];
      LostForGood(x, init, w, c, r);
      var before := RunFrom(x, init, w, c);
      HeldThen(before, plans[|plans| - 1], w, c);
      if r in Held(Advance(before, plans[|plans| - 1], w, c).disk, c) {
        HeldOrFound(before, plans[|plans| - 1], w, c, r);
      }
    }
  }

  // ----- the failing cases are real -----------------------------------------------------------------

  ghost predicate CaughtUpWith<Memory, Row>(x: World<Memory, Row>, n: string) {
    n in x.disk.offsets && n in x.files && x.disk.offsets[n] == |x.files[n]|
  }

  // File `n` with one more line, all of which is read.
  function OneMoreLine(n: string, before: seq<byte>, line: Line): Sighting {
    var content := before + (line + [NEWLINE]);
    Sighting(n, Poll(|content|, content, [|line| + 1]), true)
  }

  // Its append fails, its state is saved all the same, and the server is not reached.
  function FailingAppend(n: string, before: seq<byte>, line: Line): Plan {
    Plan(0, true, [OneMoreLine(n, before, line)], true, 4, false, true, Unreached, true)
  }

  // The queue cannot be read; everything else works.
  function FailingRead(n: string, before: seq<byte>, line: Line): Plan {
    Plan(0, true, [OneMoreLine(n, before, line)], false, 4, true, true, Confirmed, true)
  }

  // Everything works but that the server is not reached.
  function Outage(n: string, before: seq<byte>, line: Line): Plan {
    Plan(0, true, [OneMoreLine(n, before, line)], true, 4, true, true, Unreached, true)
  }

  // Everything works, and file `n` is met for the first time.
  function FirstTick(n: string, content: seq<byte>): Plan {
    Plan(0, true, [Sighting(n, Poll(|content|, content, []), true)], true, 4, true, true, Confirmed, true)
  }

  lemma OneLine(line: Line)
    requires !HasNewline(line)
    ensures Lines(line + [NEWLINE]) == [line]
  {
    var b := line + [NEWLINE];
    LinesStep(b, |line|);
    assert b[..|line|] == line && b[|line| + 1..] == [];
  }

  lemma OneLineRead(o: nat, p: Poll, line: Line)
    requires o <= |p.disk| && p.disk[o..] == line + [NEWLINE] && p.size == |p.disk| && p.chunks == [|line| + 1]
    requires !HasNewline(line) && |line| < MAX_READ_PER_FILE
    ensures Read(Some(o), p) == ([line], |p.disk|)
  {
    var read, o' := PollResult(o, p);
    hide Read, Lines;
    assert Room(o, p) == |line| + 1 && Fill(p.chunks, Room(o, p)) == Room(o, p);
    assert p.disk[|p.disk| - 1] == p.disk[o..][|line|] == NEWLINE;
    assert o' == |p.disk|;
    assert p.disk[o..o'] == line + [NEWLINE];
    OneLine(line);
  }

  // A tick that meets one more line of a file than the saved offset has passed, whether
  // or not an unsaved tick has met it before.
  lemma LineIsRead<Memory, Row(!new)>(x: World<Memory, Row>, p: Plan, n: string, before: seq<byte>, line: Line,
                                      w: Watcher<Memory, Row>)
    requires AllPlaced(x) && n in x.disk.offsets && x.disk.offsets[n] == |before|
    requires x.files[n] == before || x.files[n] == before + (line + [NEWLINE])
    requires p.stateReads && p.files == [OneMoreLine(n, before, line)]
    requires !HasNewline(line) && |line| < MAX_READ_PER_FILE
    ensures FilesGrow(x, p)
    ensures Readings(x, p) == [Reading(n, [line])]
    ensures Finds(x, p, w) == w.onLine(p.now, x.disk.memory, line).1
    ensures Remembers(x, p, w) == w.atEnd(w.onLine(p.now, x.disk.memory, line).0)
    ensures OffsetsAfter(x, p) == x.disk.offsets[n := |before| + |line| + 1]
  {
    OneLookAhead(x.disk.offsets, p.files, n, before, line);
    OneReadingWatched(w, p.now, x.disk.memory, Reading(n, [line]));
    hide LookAll, Look, WatchReadings;
  }

  lemma OneLookAhead(offsets: Offsets, files: seq<Sighting>, n: string, before: seq<byte>, line: Line)
    requires n in offsets && offsets[n] == |before| && files == [OneMoreLine(n, before, line)]
    requires !HasNewline(line) && |line| < MAX_READ_PER_FILE
    ensures LookAll(offsets, files) == ([Reading(n, [line])], offsets[n := |before| + |line| + 1])
  {
    var s := files[0];
    var none: seq<Sighting> := files[..0];
    var nothing: seq<Reading> := LookAll(offsets, none).0;
    assert s.poll.disk[|before|..] == line + [NEWLINE];
    OneLineRead(|before|, s.poll, line);
    hide Read;
    assert none + [s] == files && nothing + [Reading(n, [line])] == [Reading(n, [line])];
    LookAllSnoc(offsets, none, s);
  }

  lemma OneReadingWatched<Memory, Row>(w: Watcher<Memory, Row>, now: int, m: Memory, r: Reading)
    requires |r.lines| == 1
    ensures
      var (memory, found) := w.onLine(now, m, r.lines[0]);
      MemoryAfter(w, now, m, [r]) == w.atEnd(memory) && RowsFound(w, now, m, [r]) == found
  {
    var nothing: seq<Reading> := [r][..0];
    assert nothing + [r] == [r];
    WatchReadingsSnoc(w, now, m, nothing, r);
    WatchedOne(w, now, m, r.lines);
    hide WatchLines;
    var found := w.onLine(now, m, r.lines[0]).1;
    assert [] + found == found;
  }

  // What a tick finds that meets one more line of a file it had caught up with.
  lemma LineIsFound<Memory, Row(!new)>(x: World<Memory, Row>, p: Plan, n: string, line: Line, w: Watcher<Memory, Row>)
    requires AllPlaced(x) && CaughtUpWith(x, n) && p.stateReads && p.files == [OneMoreLine(n, x.files[n], line)]
    requires !HasNewline(line) && |line| < MAX_READ_PER_FILE
    ensures FilesGrow(x, p)
    ensures Finds(x, p, w) == w.onLine(p.now, x.disk.memory, line).1
    ensures OffsetsAfter(x, p) == x.disk.offsets[n := |p.files[0].poll.disk|]
  {
    hide LookAll, AllPlaced, FilesGrow, RowsFound, MemoryAfter;
    LineIsRead(x, p, n, x.files[n], line, w);
  }

  lemma WatchedOne<Memory, Row>(w: Watcher<Memory, Row>, now: int, m: Memory, lines: seq<Line>)
    requires |lines| == 1
    ensures WatchLines(w, now, m, lines) == w.onLine(now, m, lines[0])
  {
    var before: seq<Line> := lines[..0];
    assert WatchLines(w, now, m, before) == (m, []);
    assert [] + w.onLine(now, m, lines[0]).1 == w.onLine(now, m, lines[0]).1;
  }

  // From any state that has caught up with file `n`: a row of a new line is lost if its
  // append fails, until some tick finds it again.
  lemma FailedAppendLosesRows<Memory, Row(!new)>(x: World<Memory, Row>, n: string, line: Line, r: Row, plans: seq<Plan>,
                                                 w: Watcher<Memory, Row>, c: Codec<Row>)
    requires c.Valid() && Sound(x, w, c) && NothingLost(x, w, c) && CaughtUpWith(x, n)
    requires !HasNewline(line) && |line| < MAX_READ_PER_FILE
    requires r in w.onLine(0, x.disk.memory, line).1 && r !in Held(x.disk, c)
    requires
      var x' := Advance(x, FailingAppend(n, x.files[n], line), w, c);
      forall i :: 0 <= i < |plans| ==> r !in Finds(RunFrom(x', plans[..i], w, c), plans[i], w)
    ensures
      var p := FailingAppend(n, x.files[n], line);
      var x' := Advance(x, p, w, c);
      && FilesGrow(x, p) && Drops(x, p, w, c, r)
      && r in Derived(x', w) && r !in Held(RunFrom(x', plans, w, c).disk, c)
  {
    var p := FailingAppend(n, x.files[n], line);
    LineIsFound(x, p, n, line, w);
    assert Drops(x, p, w, c, r);
    hide Drops, Advance, Held, LookAll;
    TickStaysConsistent(x, p, w, c);
    FoundStaysUnlessDropped(x, p, w, c, r);
    HeldThen(x, p, w, c);
    LostForGood(Advance(x, p, w, c), plans, w, c, r);
  }

  // From any such state: a queued row is lost if the queue cannot be read in a tick that
  // finds other rows and gets them through.
  lemma FailedReadForgetsRows<Memory, Row(!new)>(x: World<Memory, Row>, n: string, line: Line, r: Row,
                                                 w: Watcher<Memory, Row>, c: Codec<Row>)
    requires c.Valid() && Sound(x, w, c) && NothingLost(x, w, c) && CaughtUpWith(x, n)
    requires !HasNewline(line) && |line| < MAX_READ_PER_FILE
    requires r in Derived(x, w) && r in ReadRows(x.disk.queue, c) && r !in x.disk.given
    requires w.onLine(0, x.disk.memory, line).1 != [] && r !in w.onLine(0, x.disk.memory, line).1
    ensures
      var p := FailingRead(n, x.files[n], line);
      && FilesGrow(x, p) && Forgets(x, p, w, c, r)
      && !NothingLost(Advance(x, p, w, c), w, c)
  {
    var p := FailingRead(n, x.files[n], line);
    LineIsFound(x, p, n, line, w);
    assert Forgets(x, p, w, c, r);
    hide Advance, Held, LookAll, ReadRows;
    TickLosesOnlyDrops(x, p, w, c);
  }

  // Both kinds of state are reached. The first tick that sights a file catches up with
  // it, and holds nothing yet.
  lemma FirstSightCatchesUp<Memory, Row(!new)>(n: string, content: seq<byte>, w: Watcher<Memory, Row>, c: Codec<Row>)
    requires c.Valid()
    ensures
      var x := Advance(Start(w), FirstTick(n, content), w, c);
      && FilesGrow(Start(w), FirstTick(n, content))
      && Sound(x, w, c) && NothingLost(x, w, c) && CaughtUpWith(x, n) && Held(x.disk, c) == {}
  {
    var p, start := FirstTick(n, content), Start(w);
    StartIsSound(w, c);
    FirstLook(start.disk.offsets, p, w, start.disk.memory);
    HeldThen(start, p, w, c);
    TickInventsNothing(start, p, w, c);
    SightedOnce(start.files, p.files);
    hide Sound, ReadRows;
    TickLosesOnlyDrops(start, p, w, c);
  }

  lemma SightedOnce(files: map<string, seq<byte>>, seen: seq<Sighting>)
    requires |seen| == 1
    ensures SightedContent(files, seen) == files[seen[0].name := seen[0].poll.disk]
  {
    var none: seq<Sighting> := seen[..0];
    assert SightedContent(files, none) == files;
  }

  lemma FirstLook<Memory, Row(!new)>(offsets: Offsets, p: Plan, w: Watcher<Memory, Row>, m: Memory)
    requires |p.files| == 1 && p.files[0].name !in offsets
    ensures LookAll(offsets, p.files).1 == offsets[p.files[0].name := p.files[0].poll.size]
    ensures RowsFound(w, p.now, m, LookAll(offsets, p.files).0) == []
  {
    var s := p.files[0];
    var none: seq<Sighting> := p.files[..0];
    var nothing: seq<Reading> := LookAll(offsets, none).0;
    assert none + [s] == p.files;
    LookAllSnoc(offsets, none, s);
    var lines := Look(offsets, s).0;
    assert lines == [];
    WatchReadingsSnoc(w, p.now, m, nothing, Reading(s.name, lines));
  }

  // And a tick that does not reach the server leaves the rows of a new line queued.
  lemma OutageQueuesRows<Memory, Row(!new)>(x: World<Memory, Row>, n: string, line: Line, r: Row,
                                            w: Watcher<Memory, Row>, c: Codec<Row>)
    requires c.Valid() && Sound(x, w, c) && NothingLost(x, w, c) && CaughtUpWith(x, n)
    requires !HasNewline(line) && |line| < MAX_READ_PER_FILE
    requires r in w.onLine(0, x.disk.memory, line).1 && r !in x.disk.given
    ensures
      var x' := Advance(x, Outage(n, x.files[n], line), w, c);
      && FilesGrow(x, Outage(n, x.files[n], line))
      && Sound(x', w, c) && NothingLost(x', w, c) && CaughtUpWith(x', n)
      && r in Derived(x', w) && r in ReadRows(x'.disk.queue, c) && r !in x'.disk.given
  {
    var p := Outage(n, x.files[n], line);
    LineIsFound(x, p, n, line, w);
    SightedOnce(x.files, p.files);
    QueueAfter(x.disk, p, Finds(x, p, w), OffsetsAfter(x, p), Remembers(x, p, w), Queued(x.disk, p, c), c);
    WorkingDiskIsHarmless(x, p, w, c);
    hide Sound, ReadRows, LookAll, BatchLength;
    TickInventsNothing(x, p, w, c);
    TickLosesOnlyDrops(x, p, w, c);
    ConsistentPart(x, w, c);
    TickStaysConsistent(x, p, w, c);
  }

  lemma ConsistentPart<Memory, Row(!new)>(x: World<Memory, Row>, w: Watcher<Memory, Row>, c: Codec<Row>)
    requires Sound(x, w, c)
    ensures Consistent(x, w)
  {
  }
}
