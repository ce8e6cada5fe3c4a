// A state file that cannot be read counts as empty, and every file is sighted anew at its
// end: exactly when lines are passed over unread.
module CrashSkips {
  import opened Basics
  import opened JsonLines
  import opened Tail
  import opened Queue
  import opened Tick
  import opened CrashSafety
  import opened CrashTheorems
  import opened CrashStrays

  // Where each file was first sighted ever, how far the saved ticks have come in it, and
  // all that they read, lost states or not.
  datatype Progress = Progress(origin: Offsets, reached: Offsets, read: seq<Reading>)

  const NO_PROGRESS: Progress := Progress(map[], map[], [])

  function Further<Memory, Row>(g: Progress, x: World<Memory, Row>, p: Plan): Progress {
    if !Saves(p) then g
    else
      var after := OffsetsAfter(x, p);
      Progress(map n | n in g.origin.Keys + after.Keys :: if n in g.origin then g.origin[n] else after[n],
               map n | n in g.reached.Keys + after.Keys :: if n in after then after[n] else g.reached[n],
               g.read + Readings(x, p))
  }

  ghost predicate Follows<Memory, Row>(g: Progress, x: World<Memory, Row>) {
    && g.origin.Keys == g.reached.Keys
    && (forall n :: n in x.disk.offsets ==> n in g.reached && g.reached[n] == x.disk.offsets[n])
    && (forall n :: n in g.reached ==> n in x.files && g.origin[n] <= g.reached[n] <= |x.files[n]|)
  }

  // What was read of file `n` is its complete lines from the first sight on, each once,
  // and the next one starts at a line's start.
  ghost predicate Covers<Memory, Row>(g: Progress, x: World<Memory, Row>, n: string)
    requires Follows(g, x)
  {
    if n in g.reached then
      && Placed(x.files[n], g.origin[n], g.reached[n])
      && LinesOf(g.read, n) == Lines(x.files[n][g.origin[n]..g.reached[n]])
    else LinesOf(g.read, n) == []
  }

  // The tick could not read how far the file had been read, and saves another place.
  ghost predicate Skips<Memory, Row>(g: Progress, x: World<Memory, Row>, p: Plan, n: string) {
    && Saves(p) && n in g.reached && n !in OffsetsRead(x.disk, p)
    && n in OffsetsAfter(x, p) && OffsetsAfter(x, p)[n] != g.reached[n]
  }

  // ----- one tick ---------------------------------------------------------------------------

  lemma {:induction false} LinesOfConcat(a: seq<Reading>, b: seq<Reading>, n: string)
    ensures LinesOf(a + b, n) == LinesOf(a, n) + LinesOf(b, n)
  {
    if b == [] {
      assert a + b == a;
    } else {
      var init, last := b[..|b| - 1], b[|b| - 1];
      assert a + b == a + init + [last] && b == init + [last];
      LinesOfConcat(a, init, n);
      LinesOfSnoc(a + init, last, n);
      LinesOfSnoc(init, last, n);
    }
  }

  // A file met for the first time, as far as the offsets know, gets its size.
  lemma {:induction false} SightedAtItsSize(offsets: Offsets, seen: seq<Sighting>, n: string) returns (i: nat)
    requires DistinctNames(seen) && n !in offsets && n in LookAll(offsets, seen).1
    ensures i < |seen| && seen[i].name == n && LookAll(offsets, seen).1[n] == seen[i].poll.size
  {
    var init, s := seen[..|seen| - 1], seen[|seen| - 1];
    assert init + [s] == seen;
    FirstSighting(init, s);
    LookAllSnoc(offsets, init, s);
    var before := LookAll(offsets, init).1;
    if s.name == n {
      i := |seen| - 1;
      LookedAtAlone(offsets, init, n);
      FirstSight(s.poll);
      hide Read;
    } else {
      LookLeavesOthers(before, s, n);
      i := SightedAtItsSize(offsets, init, n);
    }
  }

  // What a tick does with one file.
  ghost predicate Moves(files: map<string, seq<byte>>, files': map<string, seq<byte>>, before: Offsets, after: Offsets,
                        readings: seq<Reading>, n: string) {
    && PassesOver(files', before, after, readings, n) && FileGrows(files, files', n)
    && (n in files && n !in before && n in after ==> n in files' && |files[n]| <= after[n] <= |files'[n]|)
  }

  lemma TickMoves<Memory, Row>(x: World<Memory, Row>, p: Plan, n: string)
    requires AllPlaced(x) && FilesGrow(x, p)
    ensures Moves(x.files, SightedContent(x.files, p.files), OffsetsRead(x.disk, p), OffsetsAfter(x, p),
      Readings(x, p), n)
  {
    var offsets := OffsetsRead(x.disk, p);
    InsideFile(x, n);
    LookAllPasses(x.files, offsets, p.files, n);
    if n in x.files && n !in offsets && n in OffsetsAfter(x, p) {
      var i := SightedAtItsSize(offsets, p.files, n);
      assert Grew(x.files, offsets, p.files[i]);
    }
  }

  lemma FurtherFollows<Memory, Row(!new)>(g: Progress, x: World<Memory, Row>, p: Plan, w: Watcher<Memory, Row>,
                                          c: Codec<Row>)
    requires AllPlaced(x) && FilesGrow(x, p) && Follows(g, x)
    ensures Follows(Further(g, x, p), Advance(x, p, w, c))
  {
    var x' := Advance(x, p, w, c);
    assert x'.disk.offsets == if Saves(p) then OffsetsAfter(x, p) else x.disk.offsets;
    assert x'.files == SightedContent(x.files, p.files);
    hide Advance, LookAll, SightedContent, LinesOf, AllPlaced, FilesGrow, Moves;
    forall n: string
      ensures Moves(x.files, x'.files, OffsetsRead(x.disk, p), OffsetsAfter(x, p), Readings(x, p), n)
    {
      TickMoves(x, p, n);
    }
    MovedFollows(g, x, x', p);
  }

  lemma MovedFollows<Memory, Row>(g: Progress, x: World<Memory, Row>, x': World<Memory, Row>, p: Plan)
    requires Follows(g, x)
    requires x'.disk.offsets == if Saves(p) then OffsetsAfter(x, p) else x.disk.offsets
    requires forall n :: Moves(x.files, x'.files, OffsetsRead(x.disk, p), OffsetsAfter(x, p), Readings(x, p), n)
    ensures Follows(Further(g, x, p), x')
  {
    hide LookAll, LinesOf, Lines;
    var g' := Further(g, x, p);
    forall n | n in g'.reached
      ensures n in x'.files && g'.origin[n] <= g'.reached[n] <= |x'.files[n]|
    {
      assert Moves(x.files, x'.files, OffsetsRead(x.disk, p), OffsetsAfter(x, p), Readings(x, p), n);
    }
  }

  // What is known of file `n` before and after, apart from the rest of the world.
  lemma StillCovered(files: map<string, seq<byte>>, files': map<string, seq<byte>>, n: string, first: nat, reached: nat,
                     read: seq<Line>)
    requires FileGrows(files, files', n) && n in files && Placed(files[n], first, reached)
    requires read == Lines(files[n][first..reached])
    ensures Placed(files'[n], first, reached) && read == Lines(files'[n][first..reached])
  {
    assert files[n][first..reached] == files'[n][first..reached];
    assert reached > first ==> files'[n][reached - 1] == files[n][reached - 1];
  }

  lemma SomeLine(b: seq<byte>)
    requires b != [] && b[|b| - 1] == NEWLINE
    ensures Lines(b) != []
  {
    assert HasNewline(b);
  }

  // Nothing complete lies between two places if and only if they are the same, when the
  // second is a line's start.
  lemma GapIsRead(b: seq<byte>, first: nat, o: nat, o': nat)
    requires Placed(b, first, o) && o <= o' <= |b|
    ensures Placed(b, first, o') && Lines(b[first..o]) == Lines(b[first..o']) <==> o == o'
  {
    hide Lines;
    if o < o' && b[o' - 1] == NEWLINE {
      LinesJoin(b, first, o, o');
      SomeLine(b[o..o']);
      assert |Lines(b[first..o'])| > |Lines(b[first..o])|;
    }
  }

  lemma SavedTickCovers<Memory, Row>(g: Progress, x: World<Memory, Row>, g': Progress, x': World<Memory, Row>,
                                     p: Plan, n: string)
    requires Saves(p) && Follows(g, x) && Covers(g, x, n) && Follows(g', x') && g' == Further(g, x, p)
    requires OffsetsRead(x.disk, p) in {x.disk.offsets, map[]}
    requires Moves(x.files, x'.files, OffsetsRead(x.disk, p), OffsetsAfter(x, p), Readings(x, p), n)
    ensures Covers(g', x', n) <==> !Skips(g, x, p, n)
  {
    hide LookAll, Lines, LinesOf;
    var before, after := OffsetsRead(x.disk, p), OffsetsAfter(x, p);
    LinesOfConcat(g.read, Readings(x, p), n);
    assert LinesOf(g.read, n) + [] == LinesOf(g.read, n);
    if n in before {
      ReadOn(x.files[n], x'.files[n], g.origin[n], before[n], after[n]);
    } else if n in g.reached {
      StillCovered(x.files, x'.files, n, g.origin[n], g.reached[n], LinesOf(g.read, n));
      if n in after {
        GapIsRead(x'.files[n], g.origin[n], g.reached[n], after[n]);
      }
    } else if n in after {
      NoLinesAt(x'.files[n], after[n]);
    }
  }

  lemma UnsavedTickCovers<Memory, Row>(g: Progress, x: World<Memory, Row>, x': World<Memory, Row>, n: string)
    requires Follows(g, x) && Covers(g, x, n) && Follows(g, x') && FileGrows(x.files, x'.files, n)
    ensures Covers(g, x', n)
  {
    if n in g.reached {
      StillCovered(x.files, x'.files, n, g.origin[n], g.reached[n], LinesOf(g.read, n));
    }
  }

  lemma TickCovers<Memory, Row(!new)>(g: Progress, x: World<Memory, Row>, p: Plan, w: Watcher<Memory, Row>,
                                      c: Codec<Row>, n: string)
    requires AllPlaced(x) && FilesGrow(x, p) && Follows(g, x) && Covers(g, x, n)
    ensures Follows(Further(g, x, p), Advance(x, p, w, c))
    ensures Covers(Further(g, x, p), Advance(x, p, w, c), n) <==> !Skips(g, x, p, n)
  {
    FurtherFollows(g, x, p, w, c);
    TickMoves(x, p, n);
    var g', x' := Further(g, x, p), Advance(x, p, w, c);
    assert x'.files == SightedContent(x.files, p.files);
    hide Advance, SightedContent, Moves, Follows, Covers, AllPlaced, FilesGrow, Further;
    if Saves(p) {
      SavedTickCovers(g, x, g', x', p, n);
    } else {
      hide LookAll;
      FileGrew(x.files, x'.files, OffsetsRead(x.disk, p), OffsetsAfter(x, p), Readings(x, p), n);
      NoFurther(g, x, p);
      UnsavedTickCovers(g, x, x', n);
    }
  }

  lemma FileGrew(files: map<string, seq<byte>>, files': map<string, seq<byte>>, before: Offsets, after: Offsets,
                 readings: seq<Reading>, n: string)
    requires Moves(files, files', before, after, readings, n)
    ensures FileGrows(files, files', n)
  {
  }

  lemma NoFurther<Memory, Row>(g: Progress, x: World<Memory, Row>, p: Plan)
    requires !Saves(p)
    ensures Further(g, x, p) == g
  {
  }

  // ----- over every run -----------------------------------------------------------------------

  function ProgressOf<Memory, Row(!new)>(plans: seq<Plan>, w: Watcher<Memory, Row>, c: Codec<Row>): Progress {
    if plans == [] then NO_PROGRESS
    else
      var init := plans[..|plans| - 1];
      Further(ProgressOf(init, w, c), Run(init, w, c), plans[|plans| - 1])
  }

  ghost predicate AllCovered<Memory, Row>(g: Progress, x: World<Memory, Row>) {
    Follows(g, x) && forall n :: Covers(g, x, n)
  }

  ghost predicate SkipsNone<Memory, Row>(g: Progress, x: World<Memory, Row>, p: Plan) {
    forall n :: !Skips(g, x, p, n)
  }

  ghost predicate AlwaysCovered<Memory, Row(!new)>(plans: seq<Plan>, w: Watcher<Memory, Row>, c: Codec<Row>) {
    forall k :: 0 <= k <= |plans| ==> AllCovered(ProgressOf(plans[..k], w, c), Run(plans[..k], w, c))
  }

  ghost predicate NeverSkips<Memory, Row(!new)>(plans: seq<Plan>, w: Watcher<Memory, Row>, c: Codec<Row>) {
    forall i :: 0 <= i < |plans| ==> SkipsNone(ProgressOf(plans[..i], w, c), Run(plans[..i], w, c), plans[i])
  }

  lemma LastTick<Memory, Row(!new)>(plans: seq<Plan>, w: Watcher<Memory, Row>, c: Codec<Row>)
    requires plans != []
    ensures
      var init, last := plans[..|plans| - 1], plans[|plans| - 1];
      && AlwaysCovered(plans, w, c) ==
           (AlwaysCovered(init, w, c) && AllCovered(ProgressOf(plans, w, c), Run(plans, w, c)))
      && NeverSkips(plans, w, c) ==
           (NeverSkips(init, w, c) && SkipsNone(ProgressOf(init, w, c), Run(init, w, c), last))
  {
    hide AllCovered, SkipsNone, Run, ProgressOf;
    var init := plans[..|plans| - 1];
    assert forall i :: 0 <= i <= |init| ==> init[..i] == plans[..i];
    assert plans[..|plans|] == plans && init[..|init|] == init;
  }

  lemma CoveredNow<Memory, Row(!new)>(plans: seq<Plan>, w: Watcher<Memory, Row>, c: Codec<Row>)
    requires AlwaysCovered(plans, w, c)
    ensures AllCovered(ProgressOf(plans, w, c), Run(plans, w, c))
  {
    assert plans[..|plans|] == plans;
  }

  lemma OneTickCovers<Memory, Row(!new)>(g: Progress, x: World<Memory, Row>, p: Plan, w: Watcher<Memory, Row>,
                                         c: Codec<Row>)
    requires AllPlaced(x) && FilesGrow(x, p) && AllCovered(g, x)
    ensures AllCovered(Further(g, x, p), Advance(x, p, w, c)) <==> SkipsNone(g, x, p)
  {
    FurtherFollows(g, x, p, w, c);
    forall n: string
      ensures Covers(Further(g, x, p), Advance(x, p, w, c), n) <==> !Skips(g, x, p, n)
    {
      assert Covers(g, x, n);
      TickCovers(g, x, p, w, c, n);
    }
    hide Advance, Further, Follows, Covers, Skips, AllPlaced, FilesGrow;
  }

  // The saved ticks always have read, of each file they ever sighted, the complete lines
  // up to where they have come, each once and in order, if and only if no tick that could
  // not read the state saved another place in a file than was reached.
  lemma {:induction false} CollectionSkipsNothing<Memory, Row(!new)>(plans: seq<Plan>, w: Watcher<Memory, Row>,
                                                                     c: Codec<Row>)
    requires c.Valid() && GrowingRun(plans, w, c)
    ensures AlwaysCovered(plans, w, c) <==> NeverSkips(plans, w, c)
  {
    hide AllCovered, Advance, Further, SkipsNone;
    if plans == [] {
      NothingToCover(w);
      assert forall k :: 0 <= k <= |plans| ==> plans[..k] == plans;
    } else {
      var init, last := plans[..|plans| - 1], plans[|plans| - 1];
      assert forall i :: 0 <= i < |init| ==> init[..i] == plans[..i];
      CollectionSkipsNothing(init, w, c);
      RunIsSound(init, w, c);
      ConsistentPart(Run(init, w, c), w, c);
      PlacedPart(Run(init, w, c), w);
      LastTick(plans, w, c);
      hide AlwaysCovered, NeverSkips, Sound, Consistent, FilesGrow, AllPlaced;
      if AlwaysCovered(init, w, c) {
        CoveredNow(init, w, c);
        OneTickCovers(ProgressOf(init, w, c), Run(init, w, c), last, w, c);
      }
    }
  }

  lemma NothingToCover<Memory, Row>(w: Watcher<Memory, Row>)
    ensures AllCovered(NO_PROGRESS, Start(w))
  {
  }

  // ----- what is skipped stays unread ------------------------------------------------------------

  // File `n` reaches to `place`, and nothing will be read of it from before there.
  ghost predicate Beyond<Memory, Row>(x: World<Memory, Row>, n: string, place: nat) {
    && n in x.files && place <= |x.files[n]|
    && (n in x.disk.offsets ==> place <= x.disk.offsets[n])
  }

  // What one tick reads of it are complete lines after that place.
  ghost predicate ReadsBeyond<Memory, Row>(x: World<Memory, Row>, p: Plan, n: string, place: nat) {
    LinesOf(Readings(x, p), n) == [] || PieceFrom(LinesOf(Readings(x, p), n), SightedFile(x, p, n), place)
  }

  ghost predicate PieceFrom(lines: seq<Line>, b: seq<byte>, place: nat) {
    exists o, o' :: place <= o <= o' <= |b| && lines == Lines(b[o..o'])
  }

  function SightedFile<Memory, Row>(x: World<Memory, Row>, p: Plan, n: string): seq<byte> {
    var files := SightedContent(x.files, p.files);
    if n in files then files[n] else []
  }

  lemma TickStaysBeyond<Memory, Row(!new)>(x: World<Memory, Row>, p: Plan, n: string, place: nat,
                                           w: Watcher<Memory, Row>, c: Codec<Row>)
    requires AllPlaced(x) && FilesGrow(x, p) && Beyond(x, n, place)
    ensures ReadsBeyond(x, p, n, place) && Beyond(Advance(x, p, w, c), n, place)
  {
    TickMoves(x, p, n);
    var before, after := OffsetsRead(x.disk, p), OffsetsAfter(x, p);
    var x' := Advance(x, p, w, c);
    assert x'.disk.offsets == (if Saves(p) then after else x.disk.offsets) && SightedFile(x, p, n) == x'.files[n];
    hide Advance, SightedContent, LookAll, AllPlaced, FilesGrow, LinesOf, Lines;
    if n in before {
      assert LinesOf(Readings(x, p), n) == Lines(SightedFile(x, p, n)[before[n]..after[n]]);
    }
  }

  ghost predicate GrowsFrom<Memory, Row(!new)>(x: World<Memory, Row>, plans: seq<Plan>, w: Watcher<Memory, Row>,
                                               c: Codec<Row>) {
    forall i :: 0 <= i < |plans| ==> FilesGrow(RunFrom(x, plans[..i], w, c), plans[i])
  }

  lemma {:induction false} StaysBeyond<Memory, Row(!new)>(x: World<Memory, Row>, plans: seq<Plan>, n: string,
                                                          place: nat, w: Watcher<Memory, Row>, c: Codec<Row>)
    requires Consistent(x, w) && Beyond(x, n, place) && GrowsFrom(x, plans, w, c)
    ensures Consistent(RunFrom(x, plans, w, c), w) && Beyond(RunFrom(x, plans, w, c), n, place)
  {
    hide Consistent, Beyond, Advance, FilesGrow;
    if plans != [] {
      var init, last := plans[..|plans| - 1], plans[|plans| - 1];
      assert forall i :: 0 <= i < |init| ==> init[..i] == plans[..i];
      StaysBeyond(x, init, n, place, w, c);
      PlacedPart(RunFrom(x, init, w, c), w);
      TickStaysBeyond(RunFrom(x, init, w, c), last, n, place, w, c);
      TickStaysConsistent(RunFrom(x, init, w, c), last, w, c);
    }
  }

  // Over any further ticks nothing before that place is read.
  lemma SkippedForGood<Memory, Row(!new)>(x: World<Memory, Row>, plans: seq<Plan>, i: nat, n: string, place: nat,
                                          w: Watcher<Memory, Row>, c: Codec<Row>)
    requires Consistent(x, w) && Beyond(x, n, place) && GrowsFrom(x, plans, w, c) && i < |plans|
    ensures ReadsBeyond(RunFrom(x, plans[..i], w, c), plans[i], n, place)
  {
    hide Consistent, Beyond, RunFrom, FilesGrow, ReadsBeyond;
    assert forall j :: 0 <= j < i ==> plans[..i][..j] == plans[..j];
    StaysBeyond(x, plans[..i], n, place, w, c);
    PlacedPart(RunFrom(x, plans[..i], w, c), w);
    TickStaysBeyond(RunFrom(x, plans[..i], w, c), plans[i], n, place, w, c);
  }

  // The state cannot be read; everything else works.
  function LostState(n: string, before: seq<byte>, line: Line): Plan {
    Plan(0, false, [OneMoreLine(n, before, line)], true, 4, true, true, Confirmed, true)
  }

  lemma LostStateTick<Memory, Row(!new)>(g: Progress, x: World<Memory, Row>, p: Plan, n: string, line: Line,
                                         w: Watcher<Memory, Row>, c: Codec<Row>)
    requires Consistent(x, w) && AllCovered(g, x) && CaughtUpWith(x, n) && p == LostState(n, x.files[n], line)
    ensures
      var x' := Advance(x, p, w, c);
      && FilesGrow(x, p) && Harmless(x, p, w, c) && Skips(g, x, p, n)
      && Finds(x, p, w) == [] && Derived(x', w) == Derived(x, w) && Consistent(x', w)
      && Beyond(x', n, |x.files[n]| + |line| + 1)
  {
    hide LookAll, Consistent, Harmless, Derived, Covers, Readings, Remembers, Advance, FilesGrow, Finds, OneMoreLine,
      AllPlaced;
    PlacedPart(x, w);
    LostStateLook(x, p, n, line);
    SavedTick(x, p, w, c);
    WorkingDiskIsHarmless(x, p, w, c);
    UnreadFindsNothing(x, p, w);
    TickStaysConsistent(x, p, w, c);
    assert Derived(x, w) + [] == Derived(x, w);
  }

  lemma LostStateLook<Memory, Row>(x: World<Memory, Row>, p: Plan, n: string, line: Line)
    requires AllPlaced(x) && CaughtUpWith(x, n) && p == LostState(n, x.files[n], line)
    ensures
      var content := x.files[n] + (line + [NEWLINE]);
      && FilesGrow(x, p) && OffsetsAfter(x, p) == map[n := |content|]
      && SightedContent(x.files, p.files) == x.files[n := content]
  {
    var none: Offsets := map[];
    var nothing: seq<Sighting> := p.files[..0];
    SightedOnce(x.files, p.files);
    assert nothing + [p.files[0]] == p.files;
    LookAllSnoc(none, nothing, p.files[0]);
    FirstSight(p.files[0].poll);
    hide Read;
  }

  lemma SavedTick<Memory, Row(!new)>(x: World<Memory, Row>, p: Plan, w: Watcher<Memory, Row>, c: Codec<Row>)
    requires Saves(p)
    ensures Advance(x, p, w, c).disk.offsets == OffsetsAfter(x, p)
    ensures Advance(x, p, w, c).files == SightedContent(x.files, p.files)
  {
  }

  // From any state that has caught up with file `n`: a line written before a tick that
  // cannot read the state is skipped. The tick does no harm to what is queued, finds
  // nothing, and no later one reads from before the end of that line.
  lemma LostStateSkipsLines<Memory, Row(!new)>(g: Progress, x: World<Memory, Row>, n: string, line: Line,
                                               plans: seq<Plan>, w: Watcher<Memory, Row>, c: Codec<Row>)
    requires Consistent(x, w) && AllCovered(g, x) && CaughtUpWith(x, n)
    requires GrowsFrom(Advance(x, LostState(n, x.files[n], line), w, c), plans, w, c)
    ensures
      var p := LostState(n, x.files[n], line);
      var x' := Advance(x, p, w, c);
      && FilesGrow(x, p) && Harmless(x, p, w, c) && Skips(g, x, p, n)
      && Finds(x, p, w) == [] && Derived(x', w) == Derived(x, w)
      && forall i :: 0 <= i < |plans| ==>
           ReadsBeyond(RunFrom(x', plans[..i], w, c), plans[i], n, |x.files[n]| + |line| + 1)
  {
    hide Advance, Beyond, FilesGrow, ReadsBeyond, GrowsFrom, RunFrom, Skips, AllCovered, LostState, Consistent,
      Harmless;
    hide Derived, Finds;
    var p, place := LostState(n, x.files[n], line), |x.files[n]| + |line| + 1;
    LostStateTick(g, x, p, n, line, w, c);
    forall i | 0 <= i < |plans|
      ensures ReadsBeyond(RunFrom(Advance(x, p, w, c), plans[..i], w, c), plans[i], n, place)
    {
      SkippedForGood(Advance(x, p, w, c), plans, i, n, place, w, c);
    }
  }
}
