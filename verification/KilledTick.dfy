// A run in which no tick does harm, and a message is charged twice all the same: a tick
// is killed after it has appended, and tried again only when its line is too old.
module KilledTick {
  import opened Basics
  import opened Wrappers
  import opened JsonLines
  import opened Tail
  import opened Queue
  import opened Tick
  import opened CrashSafety
  import opened CrashTheorems
  import TokenCharge
  import TokenTheorems
  import opened TokenStore
  import opened CrashCharges
  import CrashStrays
  import opened RowCodec

  // ----- which times make a difference -----------------------------------------------------

  // To the session-log watcher two times are the same for a line that lies in the window
  // at both, or at neither.
  lemma SameWindow(parse: Parser, now: int, now': int, lines: seq<Line>)
    requires forall line :: line in lines && parse(line).Some? ==>
      TokenCharge.Seen(parse(line).value, now) == TokenCharge.Seen(parse(line).value, now')
    ensures CrashStrays.SameAt(ClaudeWatcher(parse), now, now', lines)
  {
  }

  // ----- one line of one file ------------------------------------------------------------------

  // The agent follows one file, has saved the offset `o`, and has these rows queued.
  ghost predicate Stands(x: World<Cache, Row>, n: string, o: nat, content: seq<byte>, cache: Cache, rows: seq<Row>,
                         c: Codec<Row>) {
    && AllPlaced(x) && x.past == [] && x.disk.offsets == map[n := o] && n in x.files && x.files[n] == content
    && x.disk.memory == cache && x.disk.given == [] && WellFramed(x.disk.queue) && ReadRows(x.disk.queue, c) == rows
  }

  // Everything works but that the server is not reached; `reached` writes are.
  function Meeting(now: int, n: string, before: seq<byte>, line: Line, reached: nat): Plan {
    Plan(now, true, [OneMoreLine(n, before, line)], true, reached, true, true, Unreached, true)
  }

  // The disk after such a tick.
  lemma Settled(d: Durable<Cache, Row>, p: Plan, found: seq<Row>, offsets: Offsets, memory: Cache, c: Codec<Row>)
    requires c.Valid() && WellFramed(d.queue) && 1 <= p.reached
    requires p.readWorks && p.appendWorks && p.saveWorks && p.send.Unreached?
    ensures
      var after := Settle(d, p, found, offsets, memory, Queued(d, p, c), c);
      && after.given == d.given && WellFramed(after.queue)
      && ReadRows(after.queue, c) == ReadRows(d.queue, c) + found
      && after.offsets == (if p.reached == 1 then d.offsets else offsets)
      && after.memory == (if p.reached == 1 then d.memory else memory)
  {
    QueueAfter(d, p, found, offsets, memory, Queued(d, p, c), c);
    hide ReadRows, WellFramed, Appended;
  }

  // What a tick does that meets `line` after the saved offset.
  lemma Met(x: World<Cache, Row>, p: Plan, n: string, before: seq<byte>, line: Line, w: Watcher<Cache, Row>,
            c: Codec<Row>)
    requires AllPlaced(x) && n in x.disk.offsets && x.disk.offsets[n] == |before|
    requires x.files[n] == before || x.files[n] == before + (line + [NEWLINE])
    requires p.stateReads && p.files == [OneMoreLine(n, before, line)] && p.saveWorks
    requires !HasNewline(line) && |line| < MAX_READ_PER_FILE
    ensures
      var x' := Advance(x, p, w, c);
      var (memory, found) := w.onLine(p.now, x.disk.memory, line);
      var more := before + (line + [NEWLINE]);
      && FilesGrow(x, p) && AllPlaced(x') && x'.past == x.past && x'.files == x.files[n := more]
      && x'.history == (if p.reached < 2 then x.history else x.history + [Entry(p.now, [Reading(n, [line])])])
      && x'.disk == Settle(x.disk, p, found, x.disk.offsets[n := |more|], w.atEnd(memory), Queued(x.disk, p, c), c)
  {
    hide Settle, LookAll, Stepped, AllPlaced, FilesGrow, RowsFound, MemoryAfter, Queued;
    LineIsRead(x, p, n, before, line, w);
    AdvanceSteps(x, p, w, c);
    PlacedAfter(x, Advance(x, p, w, c), Entry(p.now, Readings(x, p)), OffsetsAfter(x, p), Saves(p));
    SightedOnce(x.files, p.files);
  }

  lemma MeetLine(x: World<Cache, Row>, p: Plan, n: string, before: seq<byte>, content: seq<byte>, line: Line,
                 rows: seq<Row>, w: Watcher<Cache, Row>, c: Codec<Row>)
    requires c.Valid() && Stands(x, n, |before|, content, x.disk.memory, rows, c)
    requires content == before || content == before + (line + [NEWLINE])
    requires p == Meeting(p.now, n, before, line, p.reached) && 1 <= p.reached
    requires !HasNewline(line) && |line| < MAX_READ_PER_FILE
    ensures
      var x' := Advance(x, p, w, c);
      var (memory, found) := w.onLine(p.now, x.disk.memory, line);
      var more := before + (line + [NEWLINE]);
      && FilesGrow(x, p) && Harmless(x, p, w, c)
      && x'.history == (if p.reached == 1 then x.history else x.history + [Entry(p.now, [Reading(n, [line])])])
      && (p.reached == 1 ==> Stands(x', n, |before|, more, x.disk.memory, rows + found, c))
      && (p.reached > 1 ==> Stands(x', n, |more|, more, w.atEnd(memory), rows + found, c))
  {
    hide Settle, Advance, AllPlaced, Harmless, FilesGrow, ReadRows, WellFramed, Queued;
    var (memory, found) := w.onLine(p.now, x.disk.memory, line);
    var more := before + (line + [NEWLINE]);
    Met(x, p, n, before, line, w, c);
    WorkingDiskIsHarmless(x, p, w, c);
    Settled(x.disk, p, found, x.disk.offsets[n := |more|], w.atEnd(memory), c);
    assert x.disk.offsets[n := |more|] == map[n := |more|];
  }

  lemma EmptyReading(w: Watcher<Cache, Row>, now: int, m: Cache, readings: seq<Reading>, n: string)
    requires readings == [Reading(n, [])]
    ensures WatchReadings(w, now, m, readings) == (m, [])
  {
    assert forall k :: LinesOf(readings, k) == [];
    NoLinesNoRows(w, now, m, readings);
  }

  lemma StartStands(n: string, w: Watcher<Cache, Row>, c: Codec<Row>)
    requires c.Valid() && w.atEnd(w.start) == w.start
    ensures
      var none: seq<byte> := [];
      var p := FirstTick(n, none);
      var x := Advance(Start(w), p, w, c);
      && FilesGrow(Start(w), p) && Harmless(Start(w), p, w, c)
      && Stands(x, n, 0, none, w.start, [], c) && x.history == [Entry(0, [Reading(n, [])])]
  {
    var none: seq<byte> := [];
    var p, start := FirstTick(n, none), Start(w);
    var x := Advance(start, p, w, c);
    FirstSightCatchesUp(n, none, w, c);
    WorkingDiskIsHarmless(start, p, w, c);
    FirstLook(start.disk.offsets, p, w, start.disk.memory);
    FirstReading(start.disk.offsets, p, n);
    EmptyReading(w, p.now, w.start, Readings(start, p), n);
    SightedOnce(start.files, p.files);
    NoElements(x.disk.given);
    NoElements(ReadRows(x.disk.queue, c));
    hide Read, ReadRows, LookAll, Harmless, NothingLost, FilesGrow, WatchReadings;
    assert x.disk.offsets == map[n := 0];
  }

  lemma NoElements(rows: seq<Row>)
    ensures Elements(rows) == {} ==> rows == []
  {
    assert rows == [] || rows[0] in Elements(rows);
  }

  lemma FirstReading(offsets: Offsets, p: Plan, n: string)
    requires |p.files| == 1 && p.files[0].name == n && n !in offsets
    ensures LookAll(offsets, p.files).0 == [Reading(n, [])]
  {
    var none: seq<Sighting> := p.files[..0];
    assert none + [p.files[0]] == p.files;
    LookAllSnoc(offsets, none, p.files[0]);
  }

  // ----- the run -----------------------------------------------------------------------------------

  // A report of the assistant's, with nothing else on the line.
  function Stamped(time: int, id: string, counts: TokenCharge.Usage): TokenCharge.SessionLine {
    TokenTheorems.Reporting(TokenCharge.ByAssistant, id, counts).line.(recent := false, time := time)
  }

  function PaidRow(time: int, id: string, counts: TokenCharge.Usage): Row {
    TokenCharge.MakeRow(Stamped(time, id, counts), "", TokenCharge.Machine, Some(counts.Total()))
  }

  lemma FirstCharge(parse: Parser, line: Line, time: int, now: int, id: string, counts: TokenCharge.Usage)
    requires parse(line) == Some(Stamped(time, id, counts))
    requires counts.AnyPositive() && TokenCharge.NO_USAGE.AtMost(counts)
    ensures
      var w := ClaudeWatcher(parse);
      var (cache, rows) := w.onLine(now, w.start, line);
      && rows == (if now - time <= TokenCharge.RECENT_WINDOW_MS then [PaidRow(time, id, counts)] else [])
      && (now - time > TokenCharge.RECENT_WINDOW_MS ==> cache == w.start)
      && w.atEnd(w.start) == w.start
  {
    FromNothing(counts);
    var met := TokenCharge.Seen(Stamped(time, id, counts), now);
    assert TokenCharge.LineRows(TokenCharge.EMPTY_CACHE, met) ==
      if met.recent then [PaidRow(time, id, counts)] else [];
  }

  // First sight of file `n`; line `a` is appended and the tick killed; an hour later it
  // is read again, and then line `b`.
  function Killed(n: string, a: Line, b: Line): seq<Plan> {
    [FirstTick(n, []), Meeting(0, n, [], a, 1), Meeting(4_000_000, n, [], a, 4),
     Meeting(4_000_000, n, [] + (a + [NEWLINE]), b, 4)]
  }

  lemma FourTicks(plans: seq<Plan>, w: Watcher<Cache, Row>, c: Codec<Row>)
    requires |plans| == 4
    ensures Run(plans[..0], w, c) == Start(w)
    ensures forall i :: 0 <= i < 4 ==> Run(plans[..i + 1], w, c) == Advance(Run(plans[..i], w, c), plans[i], w, c)
    ensures plans[..4] == plans
  {
    forall i | 0 <= i < 4
      ensures Run(plans[..i + 1], w, c) == Advance(Run(plans[..i], w, c), plans[i], w, c)
    {
      assert plans[..i + 1][..i] == plans[..i];
    }
  }

  ghost predicate Report(parse: Parser, line: Line, time: int, id: string, counts: TokenCharge.Usage) {
    && !HasNewline(line) && |line| < MAX_READ_PER_FILE
    && counts.AnyPositive() && TokenCharge.NO_USAGE.AtMost(counts)
    && parse(line) == Some(Stamped(time, id, counts))
  }

  lemma KilledWorlds(parse: Parser, c: Codec<Row>, plans: seq<Plan>, x0: World<Cache, Row>, n: string, a: Line, b: Line,
                     id: string, first: TokenCharge.Usage, most: TokenCharge.Usage)
    requires c.Valid() && plans == Killed(n, a, b)
    requires Report(parse, a, 0, id, first) && Report(parse, b, 4_000_000, id, most)
    requires
      var none: seq<byte> := [];
      Stands(x0, n, 0, none, ClaudeWatcher(parse).start, [], c) && x0.history == [Entry(0, [Reading(n, [])])]
    ensures
      var w := ClaudeWatcher(parse);
      var x1 := Advance(x0, plans[1], w, c);
      var x2 := Advance(x1, plans[2], w, c);
      var x3 := Advance(x2, plans[3], w, c);
      && FilesGrow(x0, plans[1]) && FilesGrow(x1, plans[2]) && FilesGrow(x2, plans[3])
      && Harmless(x0, plans[1], w, c) && Harmless(x1, plans[2], w, c) && Harmless(x2, plans[3], w, c)
      && x3.past == [] && x3.disk.given == []
      && ReadRows(x3.disk.queue, c) == [PaidRow(0, id, first), PaidRow(4_000_000, id, most)]
      && x3.history == [Entry(0, [Reading(n, [])]), Entry(4_000_000, [Reading(n, [a])]),
           Entry(4_000_000, [Reading(n, [b])])]
  {
    hide Advance, Harmless, FilesGrow, ClaudeWatcher, OneMoreLine, PaidRow, Stamped, ReadRows, AllPlaced;
    var w := ClaudeWatcher(parse);
    var none: seq<byte> := [];
    var more := none + (a + [NEWLINE]);
    FirstCharge(parse, a, 0, 0, id, first);
    FirstCharge(parse, a, 0, 4_000_000, id, first);
    FirstCharge(parse, b, 4_000_000, 4_000_000, id, most);
    MeetLine(x0, plans[1], n, none, none, a, [], w, c);
    var x1 := Advance(x0, plans[1], w, c);
    MeetLine(x1, plans[2], n, none, more, a, [PaidRow(0, id, first)], w, c);
    var x2 := Advance(x1, plans[2], w, c);
    MeetLine(x2, plans[3], n, more, more, b, [PaidRow(0, id, first)], w, c);
  }

  lemma FirstSighted(parse: Parser, c: Codec<Row>, n: string, a: Line, id: string, first: TokenCharge.Usage)
    requires c.Valid() && Report(parse, a, 0, id, first)
    ensures
      var w, none: seq<byte> := ClaudeWatcher(parse), [];
      var p := FirstTick(n, none);
      var x := Advance(Start(w), p, w, c);
      && FilesGrow(Start(w), p) && Harmless(Start(w), p, w, c)
      && Stands(x, n, 0, none, w.start, [], c) && x.history == [Entry(0, [Reading(n, [])])]
  {
    hide Advance, Harmless, FilesGrow, ClaudeWatcher, FirstTick, PaidRow, Stamped, Stands;
    FirstCharge(parse, a, 0, 0, id, first);
    StartStands(n, ClaudeWatcher(parse), c);
  }

  lemma FourHarmless(plans: seq<Plan>, w: Watcher<Cache, Row>, c: Codec<Row>)
    requires |plans| == 4
    requires forall i :: 0 <= i < 4 ==> FilesGrow(Run(plans[..i], w, c), plans[i])
    requires forall i :: 0 <= i < 4 ==> Harmless(Run(plans[..i], w, c), plans[i], w, c)
    ensures GrowingRun(plans, w, c) && AlwaysHarmless(plans, w, c)
  {
  }

  lemma KilledRun(parse: Parser, c: Codec<Row>, plans: seq<Plan>, n: string, a: Line, b: Line, id: string,
                  first: TokenCharge.Usage, most: TokenCharge.Usage)
    requires c.Valid() && plans == Killed(n, a, b)
    requires Report(parse, a, 0, id, first) && Report(parse, b, 4_000_000, id, most)
    ensures GrowingRun(plans, ClaudeWatcher(parse), c) && AlwaysHarmless(plans, ClaudeWatcher(parse), c)
    ensures
      var x := Run(plans, ClaudeWatcher(parse), c);
      && x.past == [] && x.disk.given == []
      && ReadRows(x.disk.queue, c) == [PaidRow(0, id, first), PaidRow(4_000_000, id, most)]
      && x.history == [Entry(0, [Reading(n, [])]), Entry(4_000_000, [Reading(n, [a])]),
           Entry(4_000_000, [Reading(n, [b])])]
    ensures
      var x0 := Run(plans[..1], ClaudeWatcher(parse), c);
      && x0.past == [] && x0.history == [Entry(0, [Reading(n, [])])]
      && Readings(x0, plans[1]) == [Reading(n, [a])]
  {
    hide Advance, Harmless, FilesGrow, Run, ClaudeWatcher, OneMoreLine, FirstTick, PaidRow, Stamped, Readings, LookAll;
    hide ReadRows, AllPlaced, Finds, Remembers, OffsetsAfter;
    var w := ClaudeWatcher(parse);
    var none: seq<byte> := [];
    FourTicks(plans, w, c);
    FirstSighted(parse, c, n, a, id, first);
    KilledWorlds(parse, c, plans, Run(plans[..1], w, c), n, a, b, id, first, most);
    LineIsRead(Run(plans[..1], w, c), plans[1], n, none, a, w);
    FourHarmless(plans, w, c);
  }

  // ----- what it adds up to --------------------------------------------------------------------------

  // What some steps come to for a message: the cache they leave, its peak, which is also
  // its charge, and the rows made for it.
  ghost predicate ComesTo(steps: seq<Step>, id: string, cache: Cache, counts: TokenCharge.Usage, rows: seq<Row>) {
    && TokenTheorems.After(steps) == cache
    && TokenTheorems.Peak(steps, id) == counts && TokenTheorems.Charged(steps, id) == counts
    && RowsFor(steps, id) == rows && TokenTheorems.AllGrowOnCarriers(steps, id)
  }

  lemma NoStepsComeTo(steps: seq<Step>, id: string)
    requires steps == []
    ensures ComesTo(steps, id, TokenCharge.EMPTY_CACHE, TokenCharge.NO_USAGE, [])
  {
  }

  lemma OtherStep(steps: seq<Step>, step: Step, id: string, cache: Cache, counts: TokenCharge.Usage, rows: seq<Row>)
    requires ComesTo(steps, id, cache, counts, rows) && !TokenTheorems.Reports(step, id)
    ensures ComesTo(steps + [step], id, TokenTheorems.Apply(cache, step), counts, rows)
  {
    var all := steps + [step];
    assert all[..|all| - 1] == steps && all[|all| - 1] == step;
    TokenTheorems.CarriersSoFar(all, id);
    assert RowsFor(all, id) == RowsFor(steps, id) + [] == RowsFor(steps, id);
    hide TokenTheorems.AllGrowOnCarriers;
  }

  lemma FirstReport(steps: seq<Step>, step: Step, id: string)
    requires ComesTo(steps, id, TokenCharge.EMPTY_CACHE, TokenCharge.NO_USAGE, []) && TokenTheorems.Reports(step, id)
    requires TokenCharge.NO_USAGE.AtMost(step.line.report.value.counts) && TokenTheorems.Carries(step.line)
    ensures
      ComesTo(steps + [step], id, TokenCharge.Record(TokenCharge.EMPTY_CACHE, step.line), step.line.report.value.counts,
        TokenCharge.LineRows(TokenCharge.EMPTY_CACHE, step.line))
  {
    hide TokenCharge.Usage.Max, TokenCharge.Usage.Plus, TokenCharge.Usage.Growth, TokenTheorems.After, RowsFor;
    hide TokenTheorems.AllGrowOnCarriers, TokenCharge.LineRows, TokenTheorems.Carries, TokenCharge.Usage.AtMost;
    var all := steps + [step];
    assert all[..|all| - 1] == steps && all[|all| - 1] == step;
    FromNothing(step.line.report.value.counts);
    OneReportMore(steps, step, id);
    TokenTheorems.CarriersSoFar(all, id);
    assert TokenCharge.Previous(TokenCharge.EMPTY_CACHE, Some(id)) == TokenCharge.NO_USAGE;
    assert TokenCharge.Charge(TokenCharge.EMPTY_CACHE, step.line) == step.line.report.value.counts;
    assert [] + TokenCharge.LineRows(TokenCharge.EMPTY_CACHE, step.line)
        == TokenCharge.LineRows(TokenCharge.EMPTY_CACHE, step.line);
  }

  // The steps of one saved tick that read at most one line.
  lemma OneEntry(parse: Parser, history: seq<Entry>, now: int, n: string, lines: seq<Line>)
    requires |lines| <= 1
    ensures
      var before := HistorySteps(parse, history);
      var steps := if lines == [] || parse(lines[0]).None? then before
                   else before + [TokenTheorems.Line(TokenCharge.Seen(parse(lines[0]).value, now))];
      HistorySteps(parse, history + [Entry(now, [Reading(n, lines)])]) == steps + [TokenTheorems.Trim]
  {
    var readings := [Reading(n, lines)];
    var e := Entry(now, readings);
    assert (history + [e])[..|history|] == history && readings[..0] == [];
    assert ReadingSteps(parse, now, readings) == LineSteps(parse, now, lines);
    if lines != [] {
      assert lines[..0] == [];
    }
    assert HistorySteps(parse, history) + [] == HistorySteps(parse, history);
  }

  // The line as the accounting meets it.
  function MetAt(now: int, time: int, id: string, counts: TokenCharge.Usage): Step {
    TokenTheorems.Line(TokenCharge.Seen(Stamped(time, id, counts), now))
  }

  lemma MetIs(now: int, time: int, id: string, counts: TokenCharge.Usage)
    requires counts.AnyPositive() && TokenCharge.NO_USAGE.AtMost(counts)
    ensures
      var step := MetAt(now, time, id, counts);
      && (TokenTheorems.Reports(step, id) <==> now - time <= TokenCharge.RECENT_WINDOW_MS)
      && TokenTheorems.Carries(step.line)
      && step.Line? && step.line.report == Some(TokenCharge.Report(Some(id), counts))
      && (now - time > TokenCharge.RECENT_WINDOW_MS ==>
            TokenTheorems.Apply(TokenCharge.EMPTY_CACHE, step) == TokenCharge.EMPTY_CACHE)
      && (now - time <= TokenCharge.RECENT_WINDOW_MS ==>
            TokenCharge.LineRows(TokenCharge.EMPTY_CACHE, step.line) == [PaidRow(time, id, counts)])
      && TokenTheorems.Apply(TokenCharge.EMPTY_CACHE, TokenTheorems.Trim) == TokenCharge.EMPTY_CACHE
  {
    FromNothing(counts);
  }

  lemma FirstSightSteps(parse: Parser, history: seq<Entry>, n: string, id: string)
    requires history == [Entry(0, [Reading(n, [])])]
    ensures HistorySteps(parse, history) == [TokenTheorems.Trim]
    ensures ComesTo(HistorySteps(parse, history), id, TokenCharge.EMPTY_CACHE, TokenCharge.NO_USAGE, [])
  {
    hide ComesTo, HistorySteps, TokenTheorems.Apply, TokenCharge.Trimmed;
    var none: seq<Entry> := history[..0];
    var steps: seq<Step> := HistorySteps(parse, none);
    NoHistory(parse, none);
    OneEntry(parse, none, 0, n, []);
    NoStepsComeTo(steps, id);
    TrimReportsNothing(id);
    OtherStep(steps, TokenTheorems.Trim, id, TokenCharge.EMPTY_CACHE, TokenCharge.NO_USAGE, []);
    assert history == none + [history[0]] && steps + [TokenTheorems.Trim] == [TokenTheorems.Trim];
  }

  lemma NoHistory(parse: Parser, history: seq<Entry>)
    requires history == []
    ensures HistorySteps(parse, history) == []
  {
  }

  lemma KilledSteps(parse: Parser, history: seq<Entry>, n: string, a: Line, b: Line, id: string,
                    first: TokenCharge.Usage, most: TokenCharge.Usage) returns (cache: Cache)
    requires Report(parse, a, 0, id, first) && Report(parse, b, 4_000_000, id, most)
    requires history ==
      [Entry(0, [Reading(n, [])]), Entry(4_000_000, [Reading(n, [a])]), Entry(4_000_000, [Reading(n, [b])])]
    ensures ComesTo(HistorySteps(parse, history), id, cache, most, [PaidRow(4_000_000, id, most)])
  {
    var h1, h2 := history[..1], history[..2];
    assert h1 == [history[0]] && h2 == h1 + [history[1]] && history == h2 + [history[2]];
    FirstSightSteps(parse, h1, n, id);
    OneEntry(parse, h1, 4_000_000, n, [a]);
    OneEntry(parse, h2, 4_000_000, n, [b]);
    MetIs(4_000_000, 0, id, first);
    MetIs(4_000_000, 4_000_000, id, most);
    hide ComesTo, HistorySteps, Stamped, TokenTheorems.Apply, TokenTheorems.Carries, TokenCharge.LineRows, PaidRow;
    hide TokenTheorems.Reports, TokenCharge.Record;
    var trim, late, recent := TokenTheorems.Trim, MetAt(4_000_000, 0, id, first), MetAt(4_000_000, 4_000_000, id, most);
    var s1 := HistorySteps(parse, h1);
    var nothing, none := TokenCharge.EMPTY_CACHE, TokenCharge.NO_USAGE;
    OtherStep(s1, late, id, nothing, none, []);
    assert !TokenTheorems.Reports(trim, id) by { TrimReportsNothing(id); }
    OtherStep(s1 + [late], trim, id, nothing, none, []);
    var s2 := s1 + [late] + [trim];
    FirstReport(s2, recent, id);
    cache := TokenCharge.Record(nothing, recent.line);
    OtherStep(s2 + [recent], trim, id, cache, most, [PaidRow(4_000_000, id, most)]);
    cache := TokenTheorems.Apply(cache, trim);
  }

  lemma TrimReportsNothing(id: string)
    ensures !TokenTheorems.Reports(TokenTheorems.Trim, id)
    ensures TokenTheorems.Apply(TokenCharge.EMPTY_CACHE, TokenTheorems.Trim) == TokenCharge.EMPTY_CACHE
  {
  }

  // The row that the killed tick made for the message, and no other unsaved one did.
  lemma KilledUnsaved(parse: Parser, c: Codec<Row>, plans: seq<Plan>, n: string, a: Line, b: Line, id: string,
                      first: TokenCharge.Usage)
    requires plans == Killed(n, a, b) && Report(parse, a, 0, id, first)
    requires
      var x0 := Run(plans[..1], ClaudeWatcher(parse), c);
      && x0.past == [] && x0.history == [Entry(0, [Reading(n, [])])]
      && Readings(x0, plans[1]) == [Reading(n, [a])]
    ensures UnsavedFor(plans, parse, c, id) == {PaidRow(0, id, first)}
  {
    hide Run, Readings, Killed, PaidRow, UnsavedFor, FindsFor, HistorySteps, Saves, Report;
    KilledSaves(plans, n, a, b);
    KilledFinds(parse, Run(plans[..1], ClaudeWatcher(parse), c), plans[1], n, a, id, first);
    UnsavedSoFar(plans, 0, parse, c, id);
    UnsavedSoFar(plans, 1, parse, c, id);
    UnsavedSoFar(plans, 2, parse, c, id);
    UnsavedSoFar(plans, 3, parse, c, id);
    UnsavedOfNone(plans[..0], parse, c, id);
    assert plans[..4] == plans;
    assert Elements([PaidRow(0, id, first)]) == {PaidRow(0, id, first)};
  }

  lemma KilledSaves(plans: seq<Plan>, n: string, a: Line, b: Line)
    requires plans == Killed(n, a, b)
    ensures |plans| == 4 && Saves(plans[0]) && !Saves(plans[1]) && Saves(plans[2]) && Saves(plans[3])
    ensures plans[1].now == 0 && plans[1].stateReads
  {
  }

  lemma KilledFinds(parse: Parser, x0: World<Cache, Row>, p: Plan, n: string, a: Line, id: string,
                    first: TokenCharge.Usage)
    requires x0.past == [] && x0.history == [Entry(0, [Reading(n, [])])] && p.now == 0 && p.stateReads
    requires Readings(x0, p) == [Reading(n, [a])] && Report(parse, a, 0, id, first)
    ensures FindsFor(parse, x0, p, id) == [PaidRow(0, id, first)]
  {
    hide Readings, PaidRow, HistorySteps, ReadingSteps, RowsMadeFor, Report;
    FirstSightSteps(parse, x0.history, n, id);
    assert [] + HistorySteps(parse, x0.history) == HistorySteps(parse, x0.history);
    OneLineFinds(parse, StepsBefore(parse, x0, p), n, a, id, first);
  }

  lemma UnsavedSoFar(plans: seq<Plan>, k: nat, parse: Parser, c: Codec<Row>, id: string)
    requires k < |plans|
    ensures UnsavedFor(plans[..k + 1], parse, c, id) ==
            UnsavedFor(plans[..k], parse, c, id)
            + if Saves(plans[k]) then {}
              else Elements(FindsFor(parse, Run(plans[..k], ClaudeWatcher(parse), c), plans[k], id))
  {
    assert plans[..k + 1][..k] == plans[..k];
  }

  lemma UnsavedOfNone(plans: seq<Plan>, parse: Parser, c: Codec<Row>, id: string)
    requires plans == []
    ensures UnsavedFor(plans, parse, c, id) == {}
  {
  }

  lemma OneLineFinds(parse: Parser, before: seq<Step>, n: string, a: Line, id: string, first: TokenCharge.Usage)
    requires Report(parse, a, 0, id, first) && TokenTheorems.After(before) == TokenCharge.EMPTY_CACHE
    ensures RowsMadeFor(before, ReadingSteps(parse, 0, [Reading(n, [a])]), id) == [PaidRow(0, id, first)]
  {
    var readings, lines := [Reading(n, [a])], [a];
    assert readings[..0] == [] && lines[..0] == [];
    MetIs(0, 0, id, first);
    var steps := [MetAt(0, 0, id, first)];
    assert ReadingSteps(parse, 0, readings) == [] + LineSteps(parse, 0, lines) == LineSteps(parse, 0, lines);
    assert LineSteps(parse, 0, lines) == [] + steps == steps;
    assert steps[..0] == [] && before + [] == before;
    hide TokenCharge.LineRows;
  }

  // No tick of the run does harm, no key is taken, the message only grew on lines with a
  // row, on no two alike, and by the saved ticks it is charged once, the most it ever
  // reported. But the table holds what the killed tick charged as well.
  lemma KilledTickChargesTwice(parse: Parser, c: Codec<Row>, plans: seq<Plan>, n: string, a: Line, b: Line, id: string,
                               first: TokenCharge.Usage, most: TokenCharge.Usage)
    requires c.Valid() && plans == Killed(n, a, b)
    requires Report(parse, a, 0, id, first) && Report(parse, b, 4_000_000, id, most)
    ensures GrowingRun(plans, ClaudeWatcher(parse), c) && AlwaysHarmless(plans, ClaudeWatcher(parse), c)
    ensures
      var x := Run(plans, ClaudeWatcher(parse), c);
      var steps := WorldSteps(parse, x);
      && NoneTaken(x, RowsFor(steps, id), c)
      && TokenTheorems.AllGrowOnCarriers(steps, id) && PaysOnce(RowsFor(steps, id))
      && TokenTheorems.Charged(steps, id) == TokenTheorems.Peak(steps, id) == most
      && TokensHeld(plans, parse, c, id) == first.Total().Plus(most.Total()) != most.Total()
  {
    hide Run, GrowingRun, AlwaysHarmless, ClaudeWatcher, TokenTheorems.Peak, TokenTheorems.Charged, HistorySteps;
    hide RowsFor, TokenTheorems.AllGrowOnCarriers, TokenTheorems.SumTokens, Readings;
    var x := Run(plans, ClaudeWatcher(parse), c);
    var ra, rb := PaidRow(0, id, first), PaidRow(4_000_000, id, most);
    KilledRun(parse, c, plans, n, a, b, id, first, most);
    var cache := KilledSteps(parse, x.history, n, a, b, id, first, most);
    KilledUnsaved(parse, c, plans, n, a, b, id, first);
    assert WorldSteps(parse, x) == HistorySteps(parse, x.history);
    assert Due(x, c) == [ra] + [rb];
    TwoRows(ra, rb);
    AmongBoth(ra, rb, MadeFor(plans, parse, c, id));
  }

  lemma AmongBoth(a: Row, b: Row, made: set<Row>)
    requires a in made && b in made
    ensures Among([a] + [b], made) == [a] + [b]
  {
    var one := [a];
    assert ([a] + [b])[..1] == one && one[..0] == [];
    assert Among(one, made) == one;
  }

  // ----- nothing is assumed that cannot be had ------------------------------------------------

  const COUNTS: TokenCharge.Usage := TokenCharge.Usage(100, 0, 0, 0)

  const MORE: TokenCharge.Usage := TokenCharge.Usage(150, 0, 0, 0)

  // Two lines that report the same message, one hundred tokens and then half as many more.
  function TwoLines(line: Line): Option<TokenCharge.SessionLine> {
    if line == [1] then Some(Stamped(0, "m", COUNTS))
    else if line == [2] then Some(Stamped(4_000_000, "m", MORE))
    else None
  }

  lemma KilledTickHappens()
    ensures TokensHeld(Killed("f", [1], [2]), TwoLines, ROW_CODEC, "m") == TokenCharge.Tokens(250, 0)
    ensures
      var x := Run(Killed("f", [1], [2]), ClaudeWatcher(TwoLines), ROW_CODEC);
      TokenTheorems.Peak(WorldSteps(TwoLines, x), "m").Total() == TokenCharge.Tokens(150, 0)
  {
    hide TokensHeld, Killed, Run, WorldSteps, ClaudeWatcher;
    RowCodecIsValid();
    KilledTickChargesTwice(TwoLines, ROW_CODEC, Killed("f", [1], [2]), "f", [1], [2], "m", COUNTS, MORE);
  }
}
