// What a tick that is cut off before it saves its state leaves behind: exactly when
// everything queued or delivered is what the saved ticks made.
module CrashStrays {
  import opened Basics
  import opened JsonLines
  import opened Tail
  import opened Queue
  import opened Tick
  import opened CrashSafety
  import opened CrashTheorems

  // The found rows that a tick puts into the queue or gives to the server.
  ghost function Puts<Memory, Row(!new)>(x: World<Memory, Row>, p: Plan, w: Watcher<Memory, Row>,
                                         c: Codec<Row>): set<Row> {
    if Appends(p) || Rewrites(p, InHand(x, p, w, c)) then Elements(Finds(x, p, w))
    else if Posts(p) then (set r | r in Finds(x, p, w) && r in Batch(InHand(x, p, w, c), c))
    else {}
  }

  ghost function StraysAfter<Memory, Row(!new)>(x: World<Memory, Row>, strays: set<Row>, p: Plan,
                                                w: Watcher<Memory, Row>, c: Codec<Row>): set<Row> {
    (set r | r in strays && !Forgets(x, p, w, c, r)) + if Saves(p) then {} else Puts(x, p, w, c)
  }

  // After some ticks: the rows put there by those that did not save their state, but for
  // the ones that a rewrite of an unread queue forgot.
  ghost function Strays<Memory, Row(!new)>(plans: seq<Plan>, w: Watcher<Memory, Row>, c: Codec<Row>): set<Row> {
    if plans == [] then {}
    else
      var init := plans[..|plans| - 1];
      StraysAfter(Run(init, w, c), Strays(init, w, c), plans[|plans| - 1], w, c)
  }

  lemma PutsAreHeld<Memory, Row(!new)>(x: World<Memory, Row>, p: Plan, w: Watcher<Memory, Row>, c: Codec<Row>)
    requires c.Valid() && WellFramed(x.disk.queue)
    ensures Puts(x, p, w, c) <= Held(Advance(x, p, w, c).disk, c)
  {
    HeldThen(x, p, w, c);
    hide Advance, Finds, ReadRows, BatchLength, WellFramed, Queued, Held;
    ElementsConcat(Queued(x.disk, p, c), Finds(x, p, w));
  }

  // What is held after a tick was held before and not forgotten, or was put there.
  lemma HeldOrPut<Memory, Row(!new)>(x: World<Memory, Row>, p: Plan, w: Watcher<Memory, Row>, c: Codec<Row>, r: Row)
    requires c.Valid() && WellFramed(x.disk.queue) && r in Held(Advance(x, p, w, c).disk, c)
    ensures (r in Held(x.disk, c) && !Forgets(x, p, w, c, r)) || r in Puts(x, p, w, c)
  {
    HeldThen(x, p, w, c);
    if r in Held(x.disk, c) {
      HeldStaysUnlessForgotten(x, p, w, c, r);
    }
    hide Advance, Finds, ReadRows, BatchLength, WellFramed, Forgets;
    ElementsConcat(Queued(x.disk, p, c), Finds(x, p, w));
  }

  ghost predicate Accounted<Memory, Row(!new)>(x: World<Memory, Row>, strays: set<Row>, w: Watcher<Memory, Row>,
                                               c: Codec<Row>) {
    strays <= Held(x.disk, c) && forall r :: r in Held(x.disk, c) ==> r in Derived(x, w) || r in strays
  }

  lemma StrayIsHeld<Memory, Row(!new)>(x: World<Memory, Row>, strays: set<Row>, p: Plan, w: Watcher<Memory, Row>,
                                       c: Codec<Row>, r: Row)
    requires c.Valid() && WellFramed(x.disk.queue) && Accounted(x, strays, w, c) && r in StraysAfter(x, strays, p, w, c)
    ensures r in Held(Advance(x, p, w, c).disk, c)
  {
    hide Advance, Forgets, Held, Derived, Puts, WellFramed;
    PutsAreHeld(x, p, w, c);
    if r in strays && !Forgets(x, p, w, c, r) {
      HeldStaysUnlessForgotten(x, p, w, c, r);
    }
  }

  lemma HeldIsAccounted<Memory, Row(!new)>(x: World<Memory, Row>, strays: set<Row>, p: Plan, w: Watcher<Memory, Row>,
                                           c: Codec<Row>, r: Row)
    requires c.Valid() && WellFramed(x.disk.queue) && Accounted(x, strays, w, c) && Consistent(x, w) && FilesGrow(x, p)
    requires r in Held(Advance(x, p, w, c).disk, c)
    ensures r in Derived(Advance(x, p, w, c), w) || r in StraysAfter(x, strays, p, w, c)
  {
    hide Advance, Forgets, Held, Derived, Puts, WellFramed, Consistent, FilesGrow;
    HeldOrPut(x, p, w, c, r);
    PutsAreFound(x, p, w, c);
    TickStaysConsistent(x, p, w, c);
  }

  lemma AccountedStep<Memory, Row(!new)>(x: World<Memory, Row>, strays: set<Row>, p: Plan, w: Watcher<Memory, Row>,
                                         c: Codec<Row>)
    requires c.Valid() && Sound(x, w, c) && FilesGrow(x, p) && Accounted(x, strays, w, c)
    ensures Accounted(Advance(x, p, w, c), StraysAfter(x, strays, p, w, c), w, c)
  {
    ConsistentPart(x, w, c);
    assert WellFramed(x.disk.queue);
    hide Advance, StraysAfter, Held, Derived, Sound, Consistent, FilesGrow, WellFramed;
    var x' := Advance(x, p, w, c);
    forall r | r in StraysAfter(x, strays, p, w, c)
      ensures r in Held(x'.disk, c)
    {
      StrayIsHeld(x, strays, p, w, c, r);
    }
    forall r | r in Held(x'.disk, c)
      ensures r in Derived(x', w) || r in StraysAfter(x, strays, p, w, c)
    {
      HeldIsAccounted(x, strays, p, w, c, r);
    }
  }

  lemma PutsAreFound<Memory, Row(!new)>(x: World<Memory, Row>, p: Plan, w: Watcher<Memory, Row>, c: Codec<Row>)
    ensures forall r :: r in Puts(x, p, w, c) ==> r in Finds(x, p, w)
  {
  }

  lemma {:induction false} RunIsAccounted<Memory, Row(!new)>(plans: seq<Plan>, w: Watcher<Memory, Row>, c: Codec<Row>)
    requires c.Valid() && GrowingRun(plans, w, c)
    ensures Accounted(Run(plans, w, c), Strays(plans, w, c), w, c)
  {
    hide Sound, FilesGrow, Accounted, Advance, StraysAfter;
    if plans == [] {
      NothingYet(w, c);
    } else {
      var init, last := plans[..|plans| - 1], plans[|plans| - 1];
      assert forall i :: 0 <= i < |init| ==> init[..i] == plans[..i];
      RunIsAccounted(init, w, c);
      RunIsSound(init, w, c);
      AccountedStep(Run(init, w, c), Strays(init, w, c), last, w, c);
    }
  }

  lemma NothingYet<Memory, Row(!new)>(w: Watcher<Memory, Row>, c: Codec<Row>)
    ensures Accounted(Start(w), {}, w, c)
  {
    StartIsSound(w, c);
  }

  // A saved tick makes them too.
  ghost predicate StraysAreMade<Memory, Row(!new)>(plans: seq<Plan>, w: Watcher<Memory, Row>, c: Codec<Row>) {
    forall r :: r in Strays(plans, w, c) ==> r in Derived(Run(plans, w, c), w)
  }

  // After any run: everything queued or delivered is what the saved ticks made, if and
  // only if each row that an unsaved tick left there is also made by a saved one.
  lemma HeldIsDerived<Memory, Row(!new)>(plans: seq<Plan>, w: Watcher<Memory, Row>, c: Codec<Row>)
    requires c.Valid() && GrowingRun(plans, w, c)
    ensures
      var x := Run(plans, w, c);
      (forall r :: r in Held(x.disk, c) ==> r in Derived(x, w)) <==> StraysAreMade(plans, w, c)
  {
    RunIsAccounted(plans, w, c);
    hide Run, Held, Derived, Strays, GrowingRun;
  }

  // ----- what every row is like -----------------------------------------------------------------

  ghost predicate MakesGood<Memory(!new), Row(!new)>(w: Watcher<Memory, Row>, good: Row -> bool) {
    forall now, m, line, r :: r in w.onLine(now, m, line).1 ==> good(r)
  }

  lemma {:induction false} LinesMakeGood<Memory(!new), Row(!new)>(w: Watcher<Memory, Row>, good: Row -> bool, now: int,
                                                                  m: Memory, lines: seq<Line>)
    requires MakesGood(w, good)
    ensures forall r :: r in WatchLines(w, now, m, lines).1 ==> good(r)
  {
    if lines != [] {
      LinesMakeGood(w, good, now, m, lines[..|lines| - 1]);
    }
  }

  lemma {:induction false} ReadingsMakeGood<Memory(!new), Row(!new)>(w: Watcher<Memory, Row>, good: Row -> bool,
                                                                     now: int, m: Memory, readings: seq<Reading>)
    requires MakesGood(w, good)
    ensures forall r :: r in WatchReadings(w, now, m, readings).1 ==> good(r)
  {
    if readings != [] {
      var init := readings[..|readings| - 1];
      ReadingsMakeGood(w, good, now, m, init);
      LinesMakeGood(w, good, now, WatchReadings(w, now, m, init).0, readings[|readings| - 1].lines);
    }
  }

  // A queue or a server that no other row ever reached.
  lemma {:induction false} AllHeldAreGood<Memory(!new), Row(!new)>(plans: seq<Plan>, w: Watcher<Memory, Row>,
                                                                   c: Codec<Row>, good: Row -> bool)
    requires c.Valid() && GrowingRun(plans, w, c) && MakesGood(w, good)
    ensures forall r :: r in Held(Run(plans, w, c).disk, c) ==> good(r)
  {
    hide Advance, Held, Sound, FilesGrow, MakesGood;
    if plans == [] {
      StartIsSound(w, c);
    } else {
      var init, last := plans[..|plans| - 1], plans[|plans| - 1];
      assert forall i :: 0 <= i < |init| ==> init[..i] == plans[..i];
      AllHeldAreGood(init, w, c, good);
      RunIsSound(init, w, c);
      var x := Run(init, w, c);
      FramedPart(x, w, c);
      ReadingsMakeGood(w, good, last.now, MemoryRead(x.disk, last, w), Readings(x, last));
      forall r | r in Held(Run(plans, w, c).disk, c)
        ensures good(r)
      {
        HeldOrFound(x, last, w, c, r);
      }
    }
  }

  // ----- a tick tried again ------------------------------------------------------------------

  // The two times make no difference to these lines.
  ghost predicate SameAt<Memory(!new), Row>(w: Watcher<Memory, Row>, now: int, now': int, lines: seq<Line>) {
    forall line, m :: line in lines ==> w.onLine(now, m, line) == w.onLine(now', m, line)
  }

  ghost predicate AllSameAt<Memory(!new), Row>(w: Watcher<Memory, Row>, now: int, now': int, readings: seq<Reading>) {
    forall i :: 0 <= i < |readings| ==> SameAt(w, now, now', readings[i].lines)
  }

  // The same lines, and perhaps more; none of the files before the last one that gave
  // lines has given more.
  ghost predicate ReadsOn(a: seq<Reading>, b: seq<Reading>) {
    && |a| <= |b|
    && (forall i :: 0 <= i < |a| ==> a[i].lines <= b[i].lines)
    && (forall i, j :: 0 <= i < j < |a| && a[j].lines != [] ==> a[i].lines == b[i].lines)
  }

  lemma {:induction false} LinesTriedAgain<Memory(!new), Row>(w: Watcher<Memory, Row>, now: int, now': int, m: Memory,
                                                              lines: seq<Line>, more: seq<Line>)
    requires SameAt(w, now, now', lines)
    ensures WatchLines(w, now, m, lines).1 <= WatchLines(w, now', m, lines + more).1
    ensures more == [] ==> WatchLines(w, now, m, lines) == WatchLines(w, now', m, lines)
    decreases |lines| + |more|
  {
    if more != [] {
      assert (lines + more)[..|lines + more| - 1] == lines + more[..|more| - 1];
      LinesTriedAgain(w, now, now', m, lines, more[..|more| - 1]);
    } else {
      assert lines + more == lines;
      if lines != [] {
        LinesTriedAgain(w, now, now', m, lines[..|lines| - 1], []);
        assert lines[|lines| - 1] in lines;
      }
    }
  }

  lemma {:induction false} SameReadings<Memory(!new), Row>(w: Watcher<Memory, Row>, now: int, now': int, m: Memory,
                                                           a: seq<Reading>, b: seq<Reading>)
    requires AllSameAt(w, now, now', a) && |a| == |b| && forall i :: 0 <= i < |a| ==> a[i].lines == b[i].lines
    ensures WatchReadings(w, now, m, a) == WatchReadings(w, now', m, b)
  {
    if a != [] {
      var init := a[..|a| - 1];
      assert forall i :: 0 <= i < |init| ==> init[i] == a[i];
      SameReadings(w, now, now', m, init, b[..|b| - 1]);
      LinesTriedAgain(w, now, now', WatchReadings(w, now, m, init).0, a[|a| - 1].lines, []);
    }
  }

  // From the same memory, the rows of some readings are found again, first and alike.
  lemma {:induction false} RetriedRowsAreTheSame<Memory(!new), Row>(w: Watcher<Memory, Row>, now: int, now': int,
                                                                    m: Memory, a: seq<Reading>, b: seq<Reading>)
    requires AllSameAt(w, now, now', a) && ReadsOn(a, b)
    ensures RowsFound(w, now, m, a) <= RowsFound(w, now', m, b)
    decreases |b|
  {
    if b != [] {
      var b0 := b[..|b| - 1];
      assert forall i :: 0 <= i < |b0| ==> b0[i] == b[i];
      if |a| < |b| {
        RetriedRowsAreTheSame(w, now, now', m, a, b0);
      } else {
        var a0, lines, more := a[..|a| - 1], a[|a| - 1].lines, b[|b| - 1].lines[|a[|a| - 1].lines|..];
        assert forall i :: 0 <= i < |a0| ==> a0[i] == a[i];
        if lines == [] {
          RetriedRowsAreTheSame(w, now, now', m, a0, b0);
        } else {
          SameReadings(w, now, now', m, a0, b0);
          LinesTriedAgain(w, now, now', WatchReadings(w, now, m, a0).0, lines, more);
          assert lines + more == b[|b| - 1].lines;
        }
      }
    }
  }

  // ----- what two looks read -------------------------------------------------------------------

  lemma LookAlone(offsets: Offsets, offsets': Offsets, s: Sighting)
    requires s.name in offsets <==> s.name in offsets'
    requires s.name in offsets ==> offsets[s.name] == offsets'[s.name]
    ensures Look(offsets, s).0 == Look(offsets', s).0
  {
    hide Read;
  }

  // Each file is looked at as if it were the only one.
  lemma {:induction false} LookedAtAlone(offsets: Offsets, files: seq<Sighting>, n: string)
    requires DistinctNames(files)
    ensures |LookAll(offsets, files).0| == |files|
    ensures !Sees(files, n) ==> (n in LookAll(offsets, files).1 <==> n in offsets)
    ensures !Sees(files, n) && n in offsets ==> LookAll(offsets, files).1[n] == offsets[n]
    ensures forall i :: 0 <= i < |files| ==>
      LookAll(offsets, files).0[i] == Reading(files[i].name, Look(offsets, files[i]).0)
    ensures forall i :: 0 <= i < |files| && files[i].name == n && n in offsets ==>
      n in Look(offsets, files[i]).1 && n in LookAll(offsets, files).1
      && LookAll(offsets, files).1[n] == Look(offsets, files[i]).1[n]
  {
    if files != [] {
      var init, s := files[..|files| - 1], files[|files| - 1];
      assert init + [s] == files;
      FirstSighting(init, s);
      LookedAtAlone(offsets, init, n);
      LookedAtAlone(offsets, init, s.name);
      var before := LookAll(offsets, init).1;
      LookAlone(offsets, before, s);
      LookAllSnoc(offsets, init, s);
      SeesSnoc(init, s, n);
      hide Look, LookAll, Sees;
      if s.name != n {
        LookLeavesOthers(before, s, n);
      }
    }
  }

  lemma SizeOnDisk(files: map<string, seq<byte>>, offsets: Offsets, s: Sighting)
    requires Grew(files, offsets, s)
    ensures s.poll.size <= |s.poll.disk|
  {
  }

  // A file looked at again from the same offset, at least as far.
  lemma LooksOn(files: map<string, seq<byte>>, files': map<string, seq<byte>>, offsets: Offsets, s: Sighting,
                s': Sighting)
    requires Grew(files, offsets, s) && Grew(files', offsets, s') && s'.name == s.name && s.poll.disk <= s'.poll.disk
    requires s.name in offsets ==> Look(offsets, s).1[s.name] <= Look(offsets, s').1[s.name]
    ensures Look(offsets, s).0 <= Look(offsets, s').0
  {
    hide Look, Lines, Grew;
    LookAdvances(files, offsets, s);
    LookAdvances(files', offsets, s');
    SizeOnDisk(files, offsets, s);
    SizeOnDisk(files', offsets, s');
    if s.name in offsets {
      var o, end, end' := offsets[s.name], Look(offsets, s).1[s.name], Look(offsets, s').1[s.name];
      assert s.poll.disk[o..end] <= s'.poll.disk[o..end'];
      LinesOfPrefix(s.poll.disk[o..end], s'.poll.disk[o..end']);
    }
  }

  lemma {:induction false} SightedAs(files: map<string, seq<byte>>, seen: seq<Sighting>, i: nat)
    requires DistinctNames(seen) && i < |seen|
    ensures seen[i].name in SightedContent(files, seen) &&
      SightedContent(files, seen)[seen[i].name] == seen[i].poll.disk
  {
    if i < |seen| - 1 {
      SightedAs(files, seen[..|seen| - 1], i);
    }
  }

  // ----- two ticks from one saved state -----------------------------------------------------

  ghost predicate GetsAsFar(offsets: Offsets, s: Sighting, s': Sighting) {
    && s.name in Look(offsets, s).1 && s.name in Look(offsets, s').1
    && Look(offsets, s).1[s.name] <= Look(offsets, s').1[s.name]
  }

  // The second meets the files of the first in the same order, and gets as far in each.
  ghost predicate MeetsAgain(offsets: Offsets, seen: seq<Sighting>, seen': seq<Sighting>) {
    && |seen| <= |seen'|
    && (forall i :: 0 <= i < |seen| ==> seen'[i].name == seen[i].name)
    && (forall i :: 0 <= i < |seen| && seen[i].name in offsets ==> GetsAsFar(offsets, seen[i], seen'[i]))
  }

  // No file before the last one that gave lines gives more to the second.
  ghost predicate OnlyLastGrew(a: seq<Reading>, b: seq<Reading>) {
    forall i, j :: 0 <= i < j < |a| && a[j].lines != [] ==> i < |b| && b[i].lines == a[i].lines
  }

  lemma SightedGrew(files: map<string, seq<byte>>, offsets: Offsets, s: Sighting, s': Sighting)
    requires s'.name == s.name && s.name in files && files[s.name] == s.poll.disk && Grew(files, offsets, s')
    ensures s.poll.disk <= s'.poll.disk
  {
  }

  lemma ReadAgain(files: map<string, seq<byte>>, offsets: Offsets, seen: seq<Sighting>, seen': seq<Sighting>)
    requires DistinctNames(seen) && DistinctNames(seen') && MeetsAgain(offsets, seen, seen')
    requires forall i :: 0 <= i < |seen| ==> Grew(files, offsets, seen[i])
    requires forall i :: 0 <= i < |seen'| ==> Grew(SightedContent(files, seen), offsets, seen'[i])
    requires OnlyLastGrew(LookAll(offsets, seen).0, LookAll(offsets, seen').0)
    ensures ReadsOn(LookAll(offsets, seen).0, LookAll(offsets, seen').0)
  {
    hide Look, SightedContent, LookAll, Grew;
    LookedAtAlone(offsets, seen, "");
    LookedAtAlone(offsets, seen', "");
    var a, b := LookAll(offsets, seen).0, LookAll(offsets, seen').0;
    var files' := SightedContent(files, seen);
    forall i | 0 <= i < |seen|
      ensures a[i].lines <= b[i].lines
    {
      SightedAs(files, seen, i);
      SightedGrew(files', offsets, seen[i], seen'[i]);
      LooksOn(files, files', offsets, seen[i], seen'[i]);
    }
  }

  // A tick that was cut off before it saved its state, and the next one: every row of
  // the first is found by the second, if the two times make no difference to the lines
  // read, and of the files only the last that gave lines has grown.
  lemma RetriedTickFindsThem<Memory(!new), Row(!new)>(x: World<Memory, Row>, p: Plan, p': Plan, w: Watcher<Memory, Row>,
                                                      c: Codec<Row>)
    requires p.stateReads && p'.stateReads && !Saves(p)
    requires FilesGrow(x, p) && FilesGrow(Advance(x, p, w, c), p') && MeetsAgain(x.disk.offsets, p.files, p'.files)
    requires OnlyLastGrew(Readings(x, p), Readings(Advance(x, p, w, c), p')) &&
      AllSameAt(w, p.now, p'.now, Readings(x, p))
    ensures Finds(x, p, w) <= Finds(Advance(x, p, w, c), p', w)
  {
    hide MeetsAgain, OnlyLastGrew, AllSameAt, Grew, LookAll, ReadsOn, RowsFound, DistinctNames;
    ReadAgain(x.files, x.disk.offsets, p.files, p'.files);
    RetriedRowsAreTheSame(w, p.now, p'.now, x.disk.memory, Readings(x, p), Readings(Advance(x, p, w, c), p'));
  }

  // So such a tick leaves no stray once the next one is saved.
  lemma RetriedTickLeavesNoStray<Memory(!new), Row(!new)>(plans: seq<Plan>, p: Plan, p': Plan, w: Watcher<Memory, Row>,
                                                          c: Codec<Row>)
    requires c.Valid() && GrowingRun(plans, w, c)
    requires p.stateReads && p'.stateReads && !Saves(p) && Saves(p')
    requires
      var x := Run(plans, w, c);
      var x1 := Advance(x, p, w, c);
      && FilesGrow(x, p) && FilesGrow(x1, p') && MeetsAgain(x.disk.offsets, p.files, p'.files)
      && OnlyLastGrew(Readings(x, p), Readings(x1, p')) && AllSameAt(w, p.now, p'.now, Readings(x, p))
    ensures
      var both := plans + [p] + [p'];
      forall r :: r in Strays(both, w, c) ==> r in Strays(plans, w, c) || r in Derived(Run(both, w, c), w)
  {
    var x := Run(plans, w, c);
    var x1 := Advance(x, p, w, c);
    RunIsSound(plans, w, c);
    TickInventsNothing(x, p, w, c);
    ConsistentPart(x1, w, c);
    RetriedTickFindsThem(x, p, p', w, c);
    TickStaysConsistent(x1, p', w, c);
    StraysStep(plans, p, w, c);
    StraysStep(plans + [p], p', w, c);
    PutsAreFound(x, p, w, c);
    hide Run, Strays, Advance, Derived, Finds, Puts, Forgets, Sound, Consistent, FilesGrow, GrowingRun, OnlyLastGrew;
    hide MeetsAgain, AllSameAt;
    var both := plans + [p] + [p'];
    forall r | r in Strays(both, w, c)
      ensures r in Strays(plans, w, c) || r in Derived(Run(both, w, c), w)
    {
      if r in Finds(x, p, w) {
        InLonger(Finds(x, p, w), Finds(x1, p', w), r);
      }
    }
  }

  // And a row it put there that the next one does not find is a stray for good, unless a
  // saved tick had made it before.
  lemma UnfoundRowStays<Memory, Row(!new)>(plans: seq<Plan>, p: Plan, p': Plan, w: Watcher<Memory, Row>, c: Codec<Row>,
                                           r: Row)
    requires c.Valid() && GrowingRun(plans, w, c) && !Saves(p)
    requires
      var x := Run(plans, w, c);
      var x1 := Advance(x, p, w, c);
      && FilesGrow(x, p) && FilesGrow(x1, p') && r in Puts(x, p, w, c) && !Forgets(x1, p', w, c, r)
      && r !in Derived(x, w) && r !in Finds(x1, p', w)
    ensures
      var both := plans + [p] + [p'];
      r in Strays(both, w, c) && r !in Derived(Run(both, w, c), w)
  {
    var x := Run(plans, w, c);
    RunIsSound(plans, w, c);
    ConsistentPart(x, w, c);
    TickStaysConsistent(x, p, w, c);
    TickStaysConsistent(Advance(x, p, w, c), p', w, c);
    StraysStep(plans, p, w, c);
    StraysStep(plans + [p], p', w, c);
    hide Run, Strays, Advance, Derived, Finds, Puts, Forgets, Sound, Consistent, FilesGrow, GrowingRun;
  }

  lemma InLonger<T>(a: seq<T>, b: seq<T>, r: T)
    requires a <= b && r in a
    ensures r in b
  {
  }

  lemma StraysStep<Memory, Row(!new)>(plans: seq<Plan>, p: Plan, w: Watcher<Memory, Row>, c: Codec<Row>)
    ensures Run(plans + [p], w, c) == Advance(Run(plans, w, c), p, w, c)
    ensures Strays(plans + [p], w, c) == StraysAfter(Run(plans, w, c), Strays(plans, w, c), p, w, c)
  {
    assert (plans + [p])[..|plans|] == plans;
  }
}
