// A run in which a killed tick is tried again at once, and its row is not made again: by
// then the same message stands in an earlier file.
module SecondTry {
  import opened Basics
  import opened Wrappers
  import opened JsonLines
  import opened Tail
  import opened Queue
  import opened Tick
  import opened CrashSafety
  import opened CrashTheorems
  import opened CrashStrays
  import TokenCharge
  import opened CrashCharges
  import opened KilledTick
  import opened RowCodec

  // ----- what the lines give -----------------------------------------------------------------

  // When the same message turns up first in the earlier file, the row that was made of the
  // later one is not made again.
  lemma EarlierFileTakesTheCharge(parse: Parser, f: string, g: string, k: Line, l: Line, now: int, time: int,
                                  time': int, id: string, counts: TokenCharge.Usage)
    requires Report(parse, k, time, id, counts) && Report(parse, l, time', id, counts) && time != time'
    requires now - time <= TokenCharge.RECENT_WINDOW_MS && now - time' <= TokenCharge.RECENT_WINDOW_MS
    ensures
      var w := ClaudeWatcher(parse);
      && RowsFound(w, now, w.start, [Reading(f, [])] + [Reading(g, [l])]) == [PaidRow(time', id, counts)]
      && PaidRow(time', id, counts) !in RowsFound(w, now, w.start, [Reading(f, [k])] + [Reading(g, [l])])
  {
    hide ClaudeWatcher, RowsFound;
    var w := ClaudeWatcher(parse);
    FirstCharge(parse, l, time', now, id, counts);
    FirstCharge(parse, k, time, now, id, counts);
    KnownCharge(parse, k, l, now, time, time', id, counts);
    var none: seq<Line> := [];
    LastReading(w, now, w.start, f, none, g, l);
    LastReading(w, now, w.start, f, [k], g, l);
    WatchedOne(w, now, w.start, [k]);
    OtherRows(PaidRow(time, id, counts), PaidRow(time', id, counts));
  }

  lemma OtherRows(a: Row, b: Row)
    requires a != b && b.tokens.Some?
    ensures b !in [a] + [b.(tokens := None)] && [] + [b] == [b]
  {
  }

  lemma LastReading(w: Watcher<Cache, Row>, now: int, m: Cache, f: string, lines: seq<Line>, g: string, l: Line)
    ensures
      var (cache, rows) := WatchLines(w, now, m, lines);
      RowsFound(w, now, m, [Reading(f, lines)] + [Reading(g, [l])]) == rows + w.onLine(now, cache, l).1
  {
    OneReading(w, now, m, f, lines);
    WatchReadingsSnoc(w, now, m, [Reading(f, lines)], Reading(g, [l]));
    WatchedOne(w, now, WatchLines(w, now, m, lines).0, [l]);
    hide WatchReadings, WatchLines;
  }

  lemma OneReading(w: Watcher<Cache, Row>, now: int, m: Cache, n: string, lines: seq<Line>)
    ensures WatchReadings(w, now, m, [Reading(n, lines)]) == WatchLines(w, now, m, lines)
  {
    var none: seq<Reading> := [];
    WatchReadingsSnoc(w, now, m, none, Reading(n, lines));
    assert none + [Reading(n, lines)] == [Reading(n, lines)];
    assert [] + WatchLines(w, now, m, lines).1 == WatchLines(w, now, m, lines).1;
  }

  lemma KnownCharge(parse: Parser, k: Line, l: Line, now: int, time: int, time': int, id: string,
                    counts: TokenCharge.Usage)
    requires Report(parse, k, time, id, counts) && Report(parse, l, time', id, counts)
    requires now - time <= TokenCharge.RECENT_WINDOW_MS && now - time' <= TokenCharge.RECENT_WINDOW_MS
    ensures
      var w := ClaudeWatcher(parse);
      w.onLine(now, w.onLine(now, w.start, k).0, l).1 == [PaidRow(time', id, counts).(tokens := None)]
  {
    var met := TokenCharge.Seen(Stamped(time, id, counts), now);
    var again := TokenCharge.Seen(Stamped(time', id, counts), now);
    var cache := TokenCharge.Record(TokenCharge.EMPTY_CACHE, met);
    assert counts.Max(TokenCharge.NO_USAGE) == counts && counts.Growth(counts) == TokenCharge.NO_USAGE;
    assert TokenCharge.Previous(cache, Some(id)) == counts;
    assert TokenCharge.LineRows(cache, again) == [PaidRow(time', id, counts).(tokens := None)];
  }

  // ----- two files -----------------------------------------------------------------------------

  function Empty(n: string): Sighting {
    Sighting(n, Poll(0, [], []), true)
  }

  // Everything works but that the server is not reached; `reached` writes are.
  function Both(s: Sighting, s': Sighting, reached: nat): Plan {
    Plan(0, true, [s, s'], true, reached, true, true, Unreached, true)
  }

  // Two files are sighted; line `l` of the second is appended and the tick killed; the next
  // one meets line `k` in the first file as well.
  function TriedAgain(f: string, g: string, k: Line, l: Line): seq<Plan> {
    [Both(Empty(f), Empty(g), 4), Both(Empty(f), OneMoreLine(g, [], l), 1),
     Both(OneMoreLine(f, [], k), OneMoreLine(g, [], l), 4)]
  }

  lemma LookTwo(offsets: Offsets, s: Sighting, s': Sighting)
    ensures
      var (lines, between) := Look(offsets, s);
      var (lines', after) := Look(between, s');
      LookAll(offsets, [s, s']) == ([Reading(s.name, lines)] + [Reading(s'.name, lines')], after)
  {
    hide Look;
    var none: seq<Sighting> := [];
    var nothing: seq<Reading> := LookAll(offsets, none).0;
    var first := Reading(s.name, Look(offsets, s).0);
    LookAllSnoc(offsets, none, s);
    LookAllSnoc(offsets, none + [s], s');
    assert none + [s] + [s'] == [s, s'] && nothing + [first] == [first];
  }

  lemma SightedTwo(files: map<string, seq<byte>>, s: Sighting, s': Sighting)
    ensures SightedContent(files, [s, s']) == files[s.name := s.poll.disk][s'.name := s'.poll.disk]
  {
    var one := [s];
    assert [s, s'][..1] == one;
    SightedOnce(files, one);
  }

  // What a tick does that reads the state and sees two files.
  lemma SeesTwo(x: World<Cache, Row>, p: Plan, s: Sighting, s': Sighting, w: Watcher<Cache, Row>, c: Codec<Row>)
    requires p.stateReads && p.files == [s, s']
    ensures
      var (lines, between) := Look(x.disk.offsets, s);
      var (lines', after) := Look(between, s');
      var readings := [Reading(s.name, lines)] + [Reading(s'.name, lines')];
      var x' := Advance(x, p, w, c);
      && Readings(x, p) == readings && Finds(x, p, w) == RowsFound(w, p.now, x.disk.memory, readings)
      && x'.files == x.files[s.name := s.poll.disk][s'.name := s'.poll.disk]
      && x'.disk.offsets == (if Saves(p) then after else x.disk.offsets)
      && x'.disk.memory == (if Saves(p) then MemoryAfter(w, p.now, x.disk.memory, readings) else x.disk.memory)
  {
    hide Look, LookAll, SightedContent, RowsFound, MemoryAfter, Queued, ReadRows, BatchLength;
    LookTwo(x.disk.offsets, s, s');
    SightedTwo(x.files, s, s');
  }

  lemma LookEmpty(offsets: Offsets, n: string)
    requires n in offsets ==> offsets[n] == 0
    ensures Look(offsets, Empty(n)) == ([], if n in offsets then offsets else offsets[n := 0])
  {
  }

  lemma LookLine(offsets: Offsets, n: string, line: Line)
    requires n in offsets && offsets[n] == 0 && !HasNewline(line) && |line| < MAX_READ_PER_FILE
    ensures Look(offsets, OneMoreLine(n, [], line)) == ([line], offsets[n := |line| + 1])
  {
    var s := OneMoreLine(n, [], line);
    assert s.poll.disk == line + [NEWLINE] && s.poll.disk[0..] == s.poll.disk;
    OneLineRead(0, s.poll, line);
    hide Read;
  }

  // Both files sighted empty, nothing read yet; by now the second holds this.
  ghost predicate Watches(x: World<Cache, Row>, f: string, g: string, content: seq<byte>, w: Watcher<Cache, Row>) {
    && x.disk.offsets == map[f := 0, g := 0] && x.disk.memory == w.start
    && f in x.files && g in x.files && x.files[f] == [] && x.files[g] == content
  }

  // What one tick reads and finds.
  ghost predicate Meets(x: World<Cache, Row>, p: Plan, w: Watcher<Cache, Row>, readings: seq<Reading>) {
    && FilesGrow(x, p) && Readings(x, p) == readings
    && Finds(x, p, w) == RowsFound(w, p.now, w.start, readings)
  }

  lemma FirstOfThree(f: string, g: string, w: Watcher<Cache, Row>, c: Codec<Row>)
    requires f != g && w.atEnd(w.start) == w.start
    ensures
      var p, none: seq<byte> := Both(Empty(f), Empty(g), 4), [];
      Meets(Start(w), p, w, [Reading(f, [])] + [Reading(g, [])]) && Watches(Advance(Start(w), p, w, c), f, g, none, w)
  {
    hide Look, Advance, WatchReadings, Readings;
    var p, none: Offsets := Both(Empty(f), Empty(g), 4), map[];
    LookEmpty(none, f);
    LookEmpty(none[f := 0], g);
    SeesTwo(Start(w), p, Empty(f), Empty(g), w, c);
    EmptyReadings(w, p.now, w.start, [Reading(f, [])] + [Reading(g, [])]);
    assert none[f := 0][g := 0] == map[f := 0, g := 0];
  }

  lemma EmptyReadings(w: Watcher<Cache, Row>, now: int, m: Cache, readings: seq<Reading>)
    requires forall i :: 0 <= i < |readings| ==> readings[i].lines == []
    ensures WatchReadings(w, now, m, readings) == (m, [])
  {
    forall n
      ensures LinesOf(readings, n) == []
    {
      NoLinesIn(readings, n);
    }
    NoLinesNoRows(w, now, m, readings);
  }

  lemma NoLinesIn(readings: seq<Reading>, n: string)
    requires forall i :: 0 <= i < |readings| ==> readings[i].lines == []
    ensures LinesOf(readings, n) == []
  {
    if readings != [] {
      NoLinesIn(readings[..|readings| - 1], n);
    }
  }

  lemma SecondOfThree(x: World<Cache, Row>, f: string, g: string, l: Line, w: Watcher<Cache, Row>, c: Codec<Row>)
    requires f != g && !HasNewline(l) && |l| < MAX_READ_PER_FILE
    requires
      var none: seq<byte> := [];
      Watches(x, f, g, none, w)
    ensures
      var p := Both(Empty(f), OneMoreLine(g, [], l), 1);
      Meets(x, p, w, [Reading(f, [])] + [Reading(g, [l])]) && Watches(Advance(x, p, w, c), f, g, l + [NEWLINE], w)
  {
    hide Look, Advance, Readings, RowsFound;
    LookEmpty(x.disk.offsets, f);
    LookLine(x.disk.offsets, g, l);
    SeesTwo(x, Both(Empty(f), OneMoreLine(g, [], l), 1), Empty(f), OneMoreLine(g, [], l), w, c);
    assert [] + (l + [NEWLINE]) == l + [NEWLINE];
  }

  lemma ThirdOfThree(x: World<Cache, Row>, f: string, g: string, k: Line, l: Line, w: Watcher<Cache, Row>,
                     c: Codec<Row>)
    requires f != g && Watches(x, f, g, l + [NEWLINE], w)
    requires !HasNewline(k) && |k| < MAX_READ_PER_FILE && !HasNewline(l) && |l| < MAX_READ_PER_FILE
    ensures Meets(x, Both(OneMoreLine(f, [], k), OneMoreLine(g, [], l), 4), w, [Reading(f, [k])] + [Reading(g, [l])])
  {
    hide Look, Advance, Readings, RowsFound;
    LookLine(x.disk.offsets, f, k);
    LookLine(x.disk.offsets[f := |k| + 1], g, l);
    SeesTwo(x, Both(OneMoreLine(f, [], k), OneMoreLine(g, [], l), 4), OneMoreLine(f, [], k), OneMoreLine(g, [], l),
      w, c);
  }

  lemma MeetsBothAgain(offsets: Offsets, f: string, g: string, k: Line, l: Line)
    requires offsets == map[f := 0, g := 0]
    requires !HasNewline(k) && |k| < MAX_READ_PER_FILE && !HasNewline(l) && |l| < MAX_READ_PER_FILE
    ensures MeetsAgain(offsets, [Empty(f), OneMoreLine(g, [], l)], [OneMoreLine(f, [], k), OneMoreLine(g, [], l)])
  {
    hide GetsAsFar, HasNewline;
    FartherThanEmpty(offsets, f, k);
    FartherThanEmpty(offsets, g, l);
  }

  lemma FartherThanEmpty(offsets: Offsets, n: string, line: Line)
    requires n in offsets && offsets[n] == 0 && !HasNewline(line) && |line| < MAX_READ_PER_FILE
    ensures GetsAsFar(offsets, Empty(n), OneMoreLine(n, [], line))
    ensures GetsAsFar(offsets, OneMoreLine(n, [], line), OneMoreLine(n, [], line))
  {
    hide Look;
    LookEmpty(offsets, n);
    LookLine(offsets, n, line);
  }

  // ----- the run -----------------------------------------------------------------------------------

  lemma ThreeTicks(plans: seq<Plan>, w: Watcher<Cache, Row>, c: Codec<Row>)
    requires |plans| == 3
    ensures Run(plans[..0], w, c) == Start(w) && Strays(plans[..0], w, c) == {} && plans[..3] == plans
    ensures forall i :: 0 <= i < 3 ==> Run(plans[..i + 1], w, c) == Advance(Run(plans[..i], w, c), plans[i], w, c)
    ensures forall i :: 0 <= i < 3 ==>
      Strays(plans[..i + 1], w, c) == StraysAfter(Run(plans[..i], w, c), Strays(plans[..i], w, c), plans[i], w, c)
  {
    forall i | 0 <= i < 3
      ensures Run(plans[..i + 1], w, c) == Advance(Run(plans[..i], w, c), plans[i], w, c)
      ensures Strays(plans[..i + 1], w, c)
           == StraysAfter(Run(plans[..i], w, c), Strays(plans[..i], w, c), plans[i], w, c)
    {
      assert plans[..i] + [plans[i]] == plans[..i + 1];
      StraysStep(plans[..i], plans[i], w, c);
    }
  }

  ghost predicate Watched(plans: seq<Plan>, w: Watcher<Cache, Row>, c: Codec<Row>, i: nat, readings: seq<Reading>)
    requires i < |plans|
  {
    Meets(Run(plans[..i], w, c), plans[i], w, readings)
  }

  lemma ThreeLooks(parse: Parser, plans: seq<Plan>, c: Codec<Row>, f: string, g: string, k: Line, l: Line, time: int,
                   time': int, id: string, counts: TokenCharge.Usage)
    requires plans == TriedAgain(f, g, k, l) && f != g
    requires Report(parse, k, time, id, counts) && Report(parse, l, time', id, counts)
    ensures
      var w := ClaudeWatcher(parse);
      && Watched(plans, w, c, 0, [Reading(f, [])] + [Reading(g, [])])
      && Watched(plans, w, c, 1, [Reading(f, [])] + [Reading(g, [l])])
      && Watched(plans, w, c, 2, [Reading(f, [k])] + [Reading(g, [l])])
      && Watches(Run(plans[..1], w, c), f, g, plans[0].files[0].poll.disk, w)
  {
    hide Advance, Meets, Watches, Run, ClaudeWatcher, Stamped, Strays, StraysAfter;
    var w := ClaudeWatcher(parse);
    FirstCharge(parse, k, time, time, id, counts);
    ThreeTicks(plans, w, c);
    FirstOfThree(f, g, w, c);
    SecondOfThree(Run(plans[..1], w, c), f, g, l, w, c);
    ThirdOfThree(Run(plans[..2], w, c), f, g, k, l, w, c);
  }

  lemma GrowsHarmless(parse: Parser, plans: seq<Plan>, c: Codec<Row>, f: string, g: string, k: Line, l: Line, time: int,
                      time': int, id: string, counts: TokenCharge.Usage)
    requires plans == TriedAgain(f, g, k, l) && f != g
    requires Report(parse, k, time, id, counts) && Report(parse, l, time', id, counts)
    ensures GrowingRun(plans, ClaudeWatcher(parse), c) && AlwaysHarmless(plans, ClaudeWatcher(parse), c)
  {
    hide ClaudeWatcher, Run, Readings, Report, Finds, FilesGrow, Harmless;
    var w := ClaudeWatcher(parse);
    ThreeLooks(parse, plans, c, f, g, k, l, time, time', id, counts);
    forall i | 0 <= i < 3
      ensures Harmless(Run(plans[..i], w, c), plans[i], w, c)
    {
      WorkingDiskIsHarmless(Run(plans[..i], w, c), plans[i], w, c);
    }
  }

  // The second tick is killed, and the third meets the files again, with no line on the
  // other side of the window.
  ghost predicate Retries(plans: seq<Plan>, w: Watcher<Cache, Row>, c: Codec<Row>)
    requires |plans| == 3
  {
    var x, x1, p, p' := Run(plans[..1], w, c), Run(plans[..2], w, c), plans[1], plans[2];
    && x1 == Advance(x, p, w, c) && p.stateReads && p'.stateReads && !Saves(p) && Saves(p')
    && MeetsAgain(x.disk.offsets, p.files, p'.files) && AllSameAt(w, p.now, p'.now, Readings(x, p))
  }

  lemma MeetsThemAgain(parse: Parser, plans: seq<Plan>, c: Codec<Row>, f: string, g: string, k: Line, l: Line,
                       time: int, time': int, id: string, counts: TokenCharge.Usage)
    requires plans == TriedAgain(f, g, k, l) && f != g
    requires Report(parse, k, time, id, counts) && Report(parse, l, time', id, counts)
    ensures Retries(plans, ClaudeWatcher(parse), c)
    ensures !OnlyLastGrew(Readings(Run(plans[..1], ClaudeWatcher(parse), c), plans[1]),
                          Readings(Run(plans[..2], ClaudeWatcher(parse), c), plans[2]))
  {
    var w := ClaudeWatcher(parse);
    ThreeLooks(parse, plans, c, f, g, k, l, time, time', id, counts);
    hide ClaudeWatcher, Run, Advance, Readings, Look, Finds, MeetsAgain, OneMoreLine, FilesGrow, RowsFound;
    ThreeTicks(plans, w, c);
    MeetsBothAgain(Run(plans[..1], w, c).disk.offsets, f, g, k, l);
    EarlierGrew(f, g, k, l);
  }

  // A run that meets every condition under which a tick tried again finds the same rows,
  // but that the earlier file has grown: the row of the killed tick stays a stray.
  lemma EarlierFileLeavesAStray(parse: Parser, plans: seq<Plan>, c: Codec<Row>, f: string, g: string, k: Line, l: Line,
                                time: int, time': int, id: string, counts: TokenCharge.Usage)
    requires c.Valid() && plans == TriedAgain(f, g, k, l) && f != g
    requires Report(parse, k, time, id, counts) && Report(parse, l, time', id, counts) && time != time'
    requires -time <= TokenCharge.RECENT_WINDOW_MS && -time' <= TokenCharge.RECENT_WINDOW_MS
    ensures GrowingRun(plans, ClaudeWatcher(parse), c) && AlwaysHarmless(plans, ClaudeWatcher(parse), c)
    ensures Retries(plans, ClaudeWatcher(parse), c)
    ensures !OnlyLastGrew(Readings(Run(plans[..1], ClaudeWatcher(parse), c), plans[1]),
                          Readings(Run(plans[..2], ClaudeWatcher(parse), c), plans[2]))
    ensures
      var w, stray := ClaudeWatcher(parse), PaidRow(time', id, counts);
      stray in Strays(plans, w, c) && stray !in Derived(Run(plans, w, c), w)
  {
    hide *;
    GrowsHarmless(parse, plans, c, f, g, k, l, time, time', id, counts);
    MeetsThemAgain(parse, plans, c, f, g, k, l, time, time', id, counts);
    LeavesAStray(parse, plans, c, f, g, k, l, time, time', id, counts);
  }

  lemma LeavesAStray(parse: Parser, plans: seq<Plan>, c: Codec<Row>, f: string, g: string, k: Line, l: Line,
                     time: int, time': int, id: string, counts: TokenCharge.Usage)
    requires c.Valid() && plans == TriedAgain(f, g, k, l) && f != g
    requires Report(parse, k, time, id, counts) && Report(parse, l, time', id, counts) && time != time'
    requires -time <= TokenCharge.RECENT_WINDOW_MS && -time' <= TokenCharge.RECENT_WINDOW_MS
    ensures
      var w, stray := ClaudeWatcher(parse), PaidRow(time', id, counts);
      stray in Strays(plans, w, c) && stray !in Derived(Run(plans, w, c), w)
  {
    hide ClaudeWatcher, Run, PaidRow, RowsFound, Readings, Strays, Derived, Report, OneMoreLine;
    hide AlwaysHarmless, GrowingRun, Watches, Watched;
    var w, stray := ClaudeWatcher(parse), PaidRow(time', id, counts);
    GrowsHarmless(parse, plans, c, f, g, k, l, time, time', id, counts);
    ThreeLooks(parse, plans, c, f, g, k, l, time, time', id, counts);
    EarlierFileTakesTheCharge(parse, f, g, k, l, 0, time, time', id, counts);
    assert stray in [stray];
    StrayOfThree(plans, w, c, [Reading(f, [])] + [Reading(g, [])], [Reading(f, [])] + [Reading(g, [l])],
      [Reading(f, [k])] + [Reading(g, [l])], stray);
  }

  // Two lines that report the same message, a millisecond apart.
  function TwoReports(line: Line): Option<TokenCharge.SessionLine> {
    if line == [1] then Some(Stamped(1, "m", COUNTS))
    else if line == [2] then Some(Stamped(2, "m", COUNTS))
    else None
  }

  lemma StrayHappens()
    ensures
      var plans, w := TriedAgain("f", "g", [1], [2]), ClaudeWatcher(TwoReports);
      && GrowingRun(plans, w, ROW_CODEC) && AlwaysHarmless(plans, w, ROW_CODEC)
      && PaidRow(2, "m", COUNTS) in Strays(plans, w, ROW_CODEC) && !StraysAreMade(plans, w, ROW_CODEC)
  {
    hide TriedAgain, Run, Strays, Derived, ClaudeWatcher, GrowingRun, AlwaysHarmless, Retries;
    RowCodecIsValid();
    EarlierFileLeavesAStray(TwoReports, TriedAgain("f", "g", [1], [2]), ROW_CODEC, "f", "g", [1], [2], 1, 2, "m",
      COUNTS);
  }

  lemma StrayOfThree(plans: seq<Plan>, w: Watcher<Cache, Row>, c: Codec<Row>, none: seq<Reading>, a: seq<Reading>,
                     b: seq<Reading>, r: Row)
    requires c.Valid() && |plans| == 3 && GrowingRun(plans, w, c)
    requires Watched(plans, w, c, 0, none) && Watched(plans, w, c, 1, a) && Watched(plans, w, c, 2, b)
    requires forall i :: 0 <= i < |none| ==> none[i].lines == []
    requires Appends(plans[1]) && !Saves(plans[1]) && plans[2].readWorks
    requires r in RowsFound(w, plans[1].now, w.start, a) && r !in RowsFound(w, plans[2].now, w.start, b)
    ensures r in Strays(plans, w, c) && r !in Derived(Run(plans, w, c), w)
  {
    hide Run, Strays, Derived, Advance, Readings, WatchReadings, Puts, StraysAfter, ReadRows, FilesGrow, RowsFound;
    hide Finds, Forgets, Saves, Appends, GrowingRun;
    NothingMadeFirst(plans, w, c, none);
    ThreeTicks(plans, w, c);
    ReadsNoForget(Run(plans[..2], w, c), plans[2], w, c, r);
    PutByAppend(Run(plans[..1], w, c), plans[1], w, c, r);
    GrowsSoFar(plans, w, c);
    UnfoundRowStays(plans[..1], plans[1], plans[2], w, c, r);
    assert plans[..1] + [plans[1]] + [plans[2]] == plans;
  }

  lemma NothingMadeFirst(plans: seq<Plan>, w: Watcher<Cache, Row>, c: Codec<Row>, none: seq<Reading>)
    requires |plans| == 3 && GrowingRun(plans, w, c) && Watched(plans, w, c, 0, none)
    requires forall i :: 0 <= i < |none| ==> none[i].lines == []
    ensures Derived(Run(plans[..1], w, c), w) == []
  {
    hide Run, Derived, Advance, Readings, WatchReadings, FilesGrow, Finds;
    ThreeTicks(plans, w, c);
    EmptyReadings(w, plans[0].now, w.start, none);
    NothingMade(plans[0], w, c);
  }

  lemma ReadsNoForget(x: World<Cache, Row>, p: Plan, w: Watcher<Cache, Row>, c: Codec<Row>, r: Row)
    requires p.readWorks
    ensures !Forgets(x, p, w, c, r)
  {
  }

  lemma GrowsSoFar(plans: seq<Plan>, w: Watcher<Cache, Row>, c: Codec<Row>)
    requires |plans| == 3 && GrowingRun(plans, w, c)
    ensures GrowingRun(plans[..1], w, c)
    ensures FilesGrow(Run(plans[..1], w, c), plans[1]) && FilesGrow(Run(plans[..2], w, c), plans[2])
  {
    hide Run, FilesGrow;
    assert plans[..1][..0] == plans[..0];
  }

  lemma NothingMade(p: Plan, w: Watcher<Cache, Row>, c: Codec<Row>)
    requires FilesGrow(Start(w), p) && Finds(Start(w), p, w) == []
    ensures Derived(Advance(Start(w), p, w, c), w) == []
  {
    StartIsSound(w, c);
    TickStaysConsistent(Start(w), p, w, c);
    hide Advance, Finds, FilesGrow;
  }

  lemma PutByAppend(x: World<Cache, Row>, p: Plan, w: Watcher<Cache, Row>, c: Codec<Row>, r: Row)
    requires Appends(p) && r in Finds(x, p, w)
    ensures r in Puts(x, p, w, c)
  {
  }

  lemma EarlierGrew(f: string, g: string, k: Line, l: Line)
    ensures !OnlyLastGrew([Reading(f, [])] + [Reading(g, [l])], [Reading(f, [k])] + [Reading(g, [l])])
  {
    var a, b := [Reading(f, [])] + [Reading(g, [l])], [Reading(f, [k])] + [Reading(g, [l])];
    assert a[1].lines != [] && a[0].lines != b[0].lines;
  }
}
