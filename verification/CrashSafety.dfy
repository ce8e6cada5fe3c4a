// Collection over any number of ticks, each cut off anywhere: what the saved state, the
// queue and the server then hold, told from what was read.
module CrashSafety {
  import opened Basics
  import opened Wrappers
  import opened JsonLines
  import opened Tail
  import opened Queue
  import opened Tick

  // A tick whose state was saved: when it ran, and what it read.
  datatype Entry = Entry(now: int, readings: seq<Reading>)

  // The durable state; and as history where each file was first sighted, what it holds
  // by now, and the ticks whose state was saved. A tick that could not read the state and
  // saves its own begins anew: `past` is how things stood each time before that.
  datatype World<Memory, Row> =
    World(disk: Durable<Memory, Row>, first: Offsets, files: map<string, seq<byte>>, history: seq<Entry>,
          past: seq<World<Memory, Row>>)

  function Start<Memory, Row>(w: Watcher<Memory, Row>): World<Memory, Row> {
    World(Durable(map[], w.start, None, []), map[], map[], [], [])
  }

  // The same with an empty state.
  function Anew<Memory, Row>(x: World<Memory, Row>, w: Watcher<Memory, Row>): World<Memory, Row> {
    World(x.disk.(offsets := map[], memory := w.start), map[], x.files, [], x.past + [x.(past := [])])
  }

  function SightedContent(files: map<string, seq<byte>>, seen: seq<Sighting>): map<string, seq<byte>> {
    if seen == [] then files
    else SightedContent(files, seen[..|seen| - 1])[seen[|seen| - 1].name := seen[|seen| - 1].poll.disk]
  }

  predicate Saves(p: Plan) {
    p.reached >= 2 && p.saveWorks
  }

  function FirstSeen(first: Offsets, offsets: Offsets): Offsets {
    map n | n in offsets :: if n in first then first[n] else offsets[n]
  }

  function Readings<Memory, Row>(x: World<Memory, Row>, p: Plan): seq<Reading> {
    LookAll(OffsetsRead(x.disk, p), p.files).0
  }

  function OffsetsAfter<Memory, Row>(x: World<Memory, Row>, p: Plan): Offsets {
    LookAll(OffsetsRead(x.disk, p), p.files).1
  }

  function Finds<Memory, Row>(x: World<Memory, Row>, p: Plan, w: Watcher<Memory, Row>): seq<Row> {
    RowsFound(w, p.now, MemoryRead(x.disk, p, w), Readings(x, p))
  }

  function Remembers<Memory, Row>(x: World<Memory, Row>, p: Plan, w: Watcher<Memory, Row>): Memory {
    MemoryAfter(w, p.now, MemoryRead(x.disk, p, w), Readings(x, p))
  }

  function Advance<Memory, Row(!new)>(x: World<Memory, Row>, p: Plan, w: Watcher<Memory, Row>,
                                      c: Codec<Row>): World<Memory, Row> {
    var disk := AfterTick(x.disk, p, w, c);
    var y := if Saves(p) && !p.stateReads then Anew(x, w) else x;
    World(disk,
          FirstSeen(y.first, disk.offsets),
          SightedContent(x.files, p.files),
          if Saves(p) then y.history + [Entry(p.now, Readings(x, p))] else y.history,
          y.past)
  }

  function RunFrom<Memory, Row(!new)>(x: World<Memory, Row>, plans: seq<Plan>, w: Watcher<Memory, Row>,
                                      c: Codec<Row>): World<Memory, Row>
  {
    if plans == [] then x else Advance(RunFrom(x, plans[..|plans| - 1], w, c), plans[|plans| - 1], w, c)
  }

  function Run<Memory, Row(!new)>(plans: seq<Plan>, w: Watcher<Memory, Row>, c: Codec<Row>): World<Memory, Row> {
    RunFrom(Start(w), plans, w, c)
  }

  // ----- what is assumed of the files ------------------------------------------------

  ghost predicate DistinctNames(files: seq<Sighting>) {
    forall i, j :: 0 <= i < j < |files| ==> files[i].name != files[j].name
  }

  ghost predicate Grew(before: map<string, seq<byte>>, offsets: Offsets, s: Sighting) {
    && s.poll.size <= |s.poll.disk|
    && (s.name in before ==> before[s.name] <= s.poll.disk && |before[s.name]| <= s.poll.size)
    && (s.name in offsets ==> offsets[s.name] <= s.poll.size <= offsets[s.name] + MAX_READ_PER_FILE)
  }

  // A tick sees each file once, and files only grow, within the limit of one read.
  ghost predicate FilesGrow<Memory, Row>(x: World<Memory, Row>, p: Plan) {
    DistinctNames(p.files) && forall i :: 0 <= i < |p.files| ==> Grew(x.files, OffsetsRead(x.disk, p), p.files[i])
  }

  // ----- what the saved ticks amount to ---------------------------------------------------

  // What the watcher remembers, and the rows it made, had only these saved ticks been.
  function Replay<Memory, Row>(w: Watcher<Memory, Row>, history: seq<Entry>): (Memory, seq<Row>) {
    if history == [] then (w.start, [])
    else
      var (m, rows) := Replay(w, history[..|history| - 1]);
      var e := history[|history| - 1];
      (MemoryAfter(w, e.now, m, e.readings), rows + RowsFound(w, e.now, m, e.readings))
  }

  function LinesOf(readings: seq<Reading>, n: string): seq<Line> {
    if readings == [] then []
    else
      var last := readings[|readings| - 1];
      LinesOf(readings[..|readings| - 1], n) + if last.name == n then last.lines else []
  }

  function HistoryLines(history: seq<Entry>, n: string): seq<Line> {
    if history == [] then []
    else HistoryLines(history[..|history| - 1], n) + LinesOf(history[|history| - 1].readings, n)
  }

  lemma LinesOfSnoc(readings: seq<Reading>, r: Reading, n: string)
    ensures LinesOf(readings + [r], n) == LinesOf(readings, n) + if r.name == n then r.lines else []
  {
    assert (readings + [r])[..|readings|] == readings;
  }

  lemma HistorySnoc<Memory, Row>(w: Watcher<Memory, Row>, history: seq<Entry>, e: Entry, n: string)
    ensures HistoryLines(history + [e], n) == HistoryLines(history, n) + LinesOf(e.readings, n)
    ensures
      var (m, rows) := Replay(w, history);
      Replay(w, history + [e]) == (MemoryAfter(w, e.now, m, e.readings), rows + RowsFound(w, e.now, m, e.readings))
  {
    assert (history + [e])[..|history|] == history;
  }

  // ----- the invariant -----------------------------------------------------------------

  function Held<Memory, Row(!new, ==)>(d: Durable<Memory, Row>, c: Codec<Row>): set<Row> {
    Elements(ReadRows(d.queue, c)) + Elements(d.given)
  }

  function PastRows<Memory, Row>(past: seq<World<Memory, Row>>, w: Watcher<Memory, Row>): seq<Row> {
    if past == [] then []
    else PastRows(past[..|past| - 1], w) + Replay(w, past[|past| - 1].history).1
  }

  // Every row that the saved ticks made.
  function Derived<Memory, Row>(x: World<Memory, Row>, w: Watcher<Memory, Row>): seq<Row> {
    PastRows(x.past, w) + Replay(w, x.history).1
  }

  ghost predicate Placed(b: seq<byte>, first: nat, offset: nat) {
    first <= offset <= |b| && (offset == first || b[offset - 1] == NEWLINE)
  }

  ghost predicate AllPlaced<Memory, Row>(x: World<Memory, Row>) {
    && x.first.Keys == x.disk.offsets.Keys
    && x.disk.offsets.Keys <= x.files.Keys
    && forall n :: n in x.disk.offsets ==> Placed(x.files[n], x.first[n], x.disk.offsets[n])
  }

  // What was saved of file `n` is its complete lines up to the offset, each once.
  ghost predicate LinesConsumed<Memory, Row>(x: World<Memory, Row>, n: string)
    requires AllPlaced(x)
  {
    HistoryLines(x.history, n) == if n in x.disk.offsets then Lines(x.files[n][x.first[n]..x.disk.offsets[n]]) else []
  }

  // The saved state is that of an agent that ran the saved ticks and nothing else.
  ghost predicate Consistent<Memory, Row>(x: World<Memory, Row>, w: Watcher<Memory, Row>) {
    && AllPlaced(x)
    && x.disk.memory == Replay(w, x.history).0
    && forall n :: LinesConsumed(x, n)
  }

  // Lines that come next in file `n` after the first `k` saved ticks.
  ghost predicate ComesNext<Memory, Row>(x: World<Memory, Row>, k: nat, readings: seq<Reading>, n: string)
    requires AllPlaced(x) && k <= |x.history|
  {
    if n in x.disk.offsets then
      HistoryLines(x.history[..k], n) + LinesOf(readings, n) <= Lines(x.files[n][x.first[n]..])
    else LinesOf(readings, n) == []
  }

  // Row `r` is one the watcher makes of next lines, after some of the saved ticks.
  ghost predicate Justified<Memory, Row>(x: World<Memory, Row>, w: Watcher<Memory, Row>, r: Row, k: nat, now: int,
                                         readings: seq<Reading>)
    requires AllPlaced(x)
  {
    && k <= |x.history|
    && r in RowsFound(w, now, Replay(w, x.history[..k]).0, readings)
    && forall n :: ComesNext(x, k, readings, n)
  }

  ghost predicate HasReason<Memory, Row>(x: World<Memory, Row>, w: Watcher<Memory, Row>, r: Row) {
    AllPlaced(x) && exists k, now, readings :: Justified(x, w, r, k, now, readings)
  }

  ghost predicate HadReason<Memory, Row>(past: seq<World<Memory, Row>>, w: Watcher<Memory, Row>, r: Row) {
    exists i :: 0 <= i < |past| && HasReason(past[i], w, r)
  }

  // Nothing is in the queue or at the server that no file produced.
  ghost predicate NothingInvented<Memory, Row(!new)>(x: World<Memory, Row>, w: Watcher<Memory, Row>, c: Codec<Row>) {
    forall r :: r in Held(x.disk, c) ==> HasReason(x, w, r) || HadReason(x.past, w, r)
  }

  // No row that a saved tick made is lost.
  ghost predicate NothingLost<Memory, Row(!new)>(x: World<Memory, Row>, w: Watcher<Memory, Row>, c: Codec<Row>) {
    forall r :: r in Derived(x, w) ==> r in Held(x.disk, c)
  }

  ghost predicate Sound<Memory, Row(!new)>(x: World<Memory, Row>, w: Watcher<Memory, Row>, c: Codec<Row>) {
    Consistent(x, w) && WellFramed(x.disk.queue) && NothingInvented(x, w, c)
  }

  // ----- one look at each file -----------------------------------------------------------------

  ghost predicate Sees(seen: seq<Sighting>, n: string) {
    exists i :: 0 <= i < |seen| && seen[i].name == n
  }

  lemma SeesSnoc(init: seq<Sighting>, s: Sighting, n: string)
    ensures Sees(init + [s], n) <==> Sees(init, n) || s.name == n
  {
    var seen := init + [s];
    assert seen[|init|] == s;
    if i :| 0 <= i < |init| && init[i].name == n {
      assert seen[i].name == n;
    }
  }

  // What a tick does with file `n`: passes over its next complete lines.
  ghost predicate PassesOver(files': map<string, seq<byte>>, before: Offsets, after: Offsets, readings: seq<Reading>,
                             n: string) {
    && (n in before ==>
      && n in after && n in files'
      && before[n] <= after[n] <= |files'[n]|
      && (after[n] == before[n] || files'[n][after[n] - 1] == NEWLINE)
      && LinesOf(readings, n) == Lines(files'[n][before[n]..after[n]]))
    && (n !in before ==>
      && LinesOf(readings, n) == []
      && (n in after ==> n in files' && after[n] <= |files'[n]|))
  }

  ghost predicate Untouched(files: map<string, seq<byte>>, files': map<string, seq<byte>>, before: Offsets,
                            after: Offsets, readings: seq<Reading>, n: string)
  {
    && LinesOf(readings, n) == []
    && (n in after <==> n in before) && (n in before ==> after[n] == before[n])
    && (n in files' <==> n in files) && (n in files ==> files'[n] == files[n])
  }

  ghost predicate FileGrows(files: map<string, seq<byte>>, files': map<string, seq<byte>>, n: string) {
    n in files ==> n in files' && files[n] <= files'[n]
  }

  lemma NoLinesAt(b: seq<byte>, o: nat)
    requires o <= |b|
    ensures Lines(b[o..o]) == []
  {
    assert b[o..o] == [];
  }

  lemma LookAdvances(files: map<string, seq<byte>>, offsets: Offsets, s: Sighting)
    requires Grew(files, offsets, s)
    ensures
      var (lines, after) := Look(offsets, s);
      && (s.name in offsets ==>
        && s.name in after && after == offsets[s.name := after[s.name]]
        && offsets[s.name] <= after[s.name] <= s.poll.size
        && (after[s.name] == offsets[s.name] || s.poll.disk[after[s.name] - 1] == NEWLINE)
        && lines == Lines(s.poll.disk[offsets[s.name]..after[s.name]]))
      && (s.name !in offsets ==> lines == [] && after == offsets[s.name := s.poll.size])
  {
    hide Read, Lines, Unbroken, Fill, Room;
    if s.name in offsets {
      var o := offsets[s.name];
      NoLinesAt(s.poll.disk, o);
      assert offsets[s.name := o] == offsets;
      if o < s.poll.size && s.readable {
        var read, o' := PollResult(o, s.poll);
      }
    } else {
      FirstSight(s.poll);
    }
  }

  lemma FirstSight(p: Poll)
    ensures Read(None, p) == ([], p.size)
  {
  }

  ghost predicate PassedOver(files: map<string, seq<byte>>, files': map<string, seq<byte>>, before: Offsets,
                             after: Offsets, readings: seq<Reading>, seen: seq<Sighting>, n: string)
  {
    && PassesOver(files', before, after, readings, n) && FileGrows(files, files', n)
    && (!Sees(seen, n) ==> Untouched(files, files', before, after, readings, n))
  }

  lemma {:induction false} LookAllPasses(files: map<string, seq<byte>>, offsets: Offsets, seen: seq<Sighting>,
                                         n: string)
    requires DistinctNames(seen) && forall i :: 0 <= i < |seen| ==> Grew(files, offsets, seen[i])
    requires n in offsets ==> n in files && offsets[n] <= |files[n]|
    ensures PassedOver(files, SightedContent(files, seen), offsets, LookAll(offsets, seen).1,
      LookAll(offsets, seen).0, seen, n)
  {
    if seen == [] {
      if n in offsets {
        NoLinesAt(files[n], offsets[n]);
      }
    } else {
      var init, s := seen[..|seen| - 1], seen[|seen| - 1];
      assert init + [s] == seen;
      FirstSighting(init, s);
      LookAllPasses(files, offsets, init, n);
      var (readings, before) := LookAll(offsets, init);
      var files' := SightedContent(files, init);
      LookAllSnoc(offsets, init, s);
      hide Look, PassedOver, Grew;
      if s.name == n {
        LookHere(files, files', offsets, before, readings, init, s);
      } else {
        LookElsewhere(files, files', offsets, before, readings, init, s, n);
      }
    }
  }

  lemma FirstSighting(init: seq<Sighting>, s: Sighting)
    requires DistinctNames(init + [s])
    ensures DistinctNames(init) && !Sees(init, s.name)
  {
    var seen := init + [s];
    assert forall i :: 0 <= i < |init| ==> seen[i] == init[i];
    assert seen[|init|] == s;
  }

  lemma LookLeavesOthers(offsets: Offsets, s: Sighting, n: string)
    requires s.name != n
    ensures n in Look(offsets, s).1 <==> n in offsets
    ensures n in offsets ==> Look(offsets, s).1[n] == offsets[n]
  {
    hide Read;
  }

  lemma LookElsewhere(files: map<string, seq<byte>>, files': map<string, seq<byte>>, offsets: Offsets, before: Offsets,
                      readings: seq<Reading>, init: seq<Sighting>, s: Sighting, n: string)
    requires PassedOver(files, files', offsets, before, readings, init, n) && s.name != n
    ensures
      var (lines, after) := Look(before, s);
      PassedOver(files, files'[s.name := s.poll.disk], offsets, after, readings + [Reading(s.name, lines)],
        init + [s], n)
  {
    LookLeavesOthers(before, s, n);
    SeesSnoc(init, s, n);
    hide Look, Lines, Sees;
    LinesOfSnoc(readings, Reading(s.name, Look(before, s).0), n);
  }

  lemma LookHere(files: map<string, seq<byte>>, files': map<string, seq<byte>>, offsets: Offsets, before: Offsets,
                 readings: seq<Reading>, init: seq<Sighting>, s: Sighting)
    requires PassedOver(files, files', offsets, before, readings, init, s.name) && !Sees(init, s.name) &&
      Grew(files, offsets, s)
    ensures
      var (lines, after) := Look(before, s);
      PassedOver(files, files'[s.name := s.poll.disk], offsets, after, readings + [Reading(s.name, lines)],
        init + [s], s.name)
  {
    GrewStill(files, files', offsets, before, readings, s);
    SeesSnoc(init, s, s.name);
    LookedAt(files', offsets, before, readings, s);
    hide Look, Lines, Sees, Untouched, LinesOf, PassedOver, Grew;
    var (lines, after) := Look(before, s);
    SeenNow(files, files'[s.name := s.poll.disk], offsets, after, readings + [Reading(s.name, lines)], init + [s], s);
  }

  // What a look does to the offset of its file, and which lines it adds.
  ghost predicate Looked(offsets: Offsets, after: Offsets, readings: seq<Reading>, s: Sighting) {
    && s.name in after
    && (s.name in offsets ==>
      && offsets[s.name] <= after[s.name] <= s.poll.size <= |s.poll.disk|
      && (after[s.name] == offsets[s.name] || s.poll.disk[after[s.name] - 1] == NEWLINE)
      && LinesOf(readings, s.name) == Lines(s.poll.disk[offsets[s.name]..after[s.name]]))
    && (s.name !in offsets ==> after[s.name] == s.poll.size && LinesOf(readings, s.name) == [])
  }

  lemma LookedAt(files': map<string, seq<byte>>, offsets: Offsets, before: Offsets, readings: seq<Reading>, s: Sighting)
    requires Grew(files', before, s) && LinesOf(readings, s.name) == []
    requires s.name in before <==> s.name in offsets
    requires s.name in offsets ==> before[s.name] == offsets[s.name]
    ensures
      var (lines, after) := Look(before, s);
      Looked(offsets, after, readings + [Reading(s.name, lines)], s)
  {
    LookAdvances(files', before, s);
    var (lines, after) := Look(before, s);
    LinesOfSnoc(readings, Reading(s.name, lines), s.name);
    hide Look, Lines;
    assert [] + lines == lines;
  }

  lemma SeenNow(files: map<string, seq<byte>>, files': map<string, seq<byte>>, offsets: Offsets, after: Offsets,
                readings: seq<Reading>, seen: seq<Sighting>, s: Sighting)
    requires s.name in files' && files'[s.name] == s.poll.disk && Grew(files, offsets, s) && Sees(seen, s.name)
    requires Looked(offsets, after, readings, s)
    ensures PassedOver(files, files', offsets, after, readings, seen, s.name)
  {
  }

  lemma GrewStill(files: map<string, seq<byte>>, files': map<string, seq<byte>>, offsets: Offsets, before: Offsets,
                  readings: seq<Reading>, s: Sighting)
    requires Untouched(files, files', offsets, before, readings, s.name) && Grew(files, offsets, s)
    ensures Grew(files', before, s)
  {
  }

  // ----- what a tick keeps ------------------------------------------------------------------

  predicate Posts(p: Plan) {
    p.reached >= 3 && !p.send.Unreached?
  }

  predicate Appends(p: Plan) {
    p.reached >= 1 && p.appendWorks
  }

  predicate Rewrites<Row>(p: Plan, pending: seq<Row>) {
    p.reached >= 4 && p.send.Confirmed? && p.rewriteWorks && |pending| > 0
  }

  function Batch<Row(!new)>(pending: seq<Row>, c: Codec<Row>): seq<Row> {
    pending[..BatchLength(pending, MAX_SEND_BYTES, c)]
  }

  lemma ElementsConcat<T>(a: seq<T>, b: seq<T>)
    ensures Elements(a + b) == Elements(a) + Elements(b)
  {
  }

  lemma ElementsSplit<T>(s: seq<T>, k: nat)
    requires k <= |s|
    ensures Elements(s[..k]) + Elements(s[k..]) == Elements(s)
  {
    assert s[..k] + s[k..] == s;
    ElementsConcat(s[..k], s[k..]);
  }

  // The queue file after a tick, as rows.
  lemma QueueAfter<Memory, Row(!new)>(d: Durable<Memory, Row>, p: Plan, found: seq<Row>, offsets: Offsets,
                                      memory: Memory, queued: seq<Row>, c: Codec<Row>)
    requires c.Valid() && WellFramed(d.queue)
    ensures
      var after := Settle(d, p, found, offsets, memory, queued, c).queue;
      && WellFramed(after)
      && ReadRows(after, c) ==
         if Rewrites(p, queued + found) then (queued + found)[BatchLength(queued + found, MAX_SEND_BYTES, c)..]
         else ReadRows(d.queue, c) + if Appends(p) then found else []
  {
    var pending := queued + found;
    AppendReadsBack(d.queue, found, p.appendWorks, c);
    var queue := if p.reached >= 1 then Appended(d.queue, found, p.appendWorks, c) else d.queue;
    SaveReadsBack(queue, pending[BatchLength(pending, MAX_SEND_BYTES, c)..], p.rewriteWorks, c);
    assert ReadRows(d.queue, c) + [] == ReadRows(d.queue, c);
  }

  // What a tick leaves in the queue and at the server. A rewrite leaves what the tick
  // had in hand; without one nothing is given up.
  lemma HeldAfter<Memory, Row(!new)>(d: Durable<Memory, Row>, p: Plan, found: seq<Row>, offsets: Offsets,
                                     memory: Memory, queued: seq<Row>, c: Codec<Row>)
    requires c.Valid() && WellFramed(d.queue)
    ensures Held(Settle(d, p, found, offsets, memory, queued, c), c) ==
            if Rewrites(p, queued + found) then Elements(d.given) + Elements(queued + found)
            else Held(d, c) + (if Appends(p) then Elements(found) else {})
                            + (if Posts(p) then Elements(Batch(queued + found, c)) else {})
  {
    hide ReadRows, WellFramed, Elements, BatchLength, Settle, Rewrites, Appends, Posts;
    var pending := queued + found;
    var rows, batch := ReadRows(d.queue, c), Batch(pending, c);
    QueueAfter(d, p, found, offsets, memory, queued, c);
    GivenAfter(d, p, found, offsets, memory, queued, c);
    ElementsConcat(d.given, batch);
    if Rewrites(p, pending) {
      ElementsSplit(pending, BatchLength(pending, MAX_SEND_BYTES, c));
      RewritesPosts(p, pending);
    } else {
      ElementsConcat(rows, found);
      assert rows + [] == rows;
    }
  }

  lemma RewritesPosts<Row>(p: Plan, pending: seq<Row>)
    ensures Rewrites(p, pending) ==> Posts(p)
  {
  }

  lemma GivenAfter<Memory, Row(!new)>(d: Durable<Memory, Row>, p: Plan, found: seq<Row>, offsets: Offsets,
                                      memory: Memory, queued: seq<Row>, c: Codec<Row>)
    ensures Settle(d, p, found, offsets, memory, queued, c).given ==
            if Posts(p) then d.given + Batch(queued + found, c) else d.given
  {
    hide Appended, Saved;
  }

  // ----- one tick of the world ------------------------------------------------------------------

  // One tick, with what it read and whether its state was saved.
  ghost predicate Stepped<Memory, Row>(x: World<Memory, Row>, x': World<Memory, Row>, e: Entry, offsets: Offsets,
                                       saved: bool) {
    && (forall n :: PassesOver(x'.files, x.disk.offsets, offsets, e.readings, n))
    && (forall n :: FileGrows(x.files, x'.files, n))
    && x'.disk.offsets == (if saved then offsets else x.disk.offsets)
    && x'.first == FirstSeen(x.first, x'.disk.offsets)
    && x'.history == (if saved then x.history + [e] else x.history)
    && x'.past == x.past
  }

  // A tick that reads the state.
  lemma AdvanceSteps<Memory, Row(!new)>(x: World<Memory, Row>, p: Plan, w: Watcher<Memory, Row>, c: Codec<Row>)
    requires AllPlaced(x) && FilesGrow(x, p) && p.stateReads
    ensures Stepped(x, Advance(x, p, w, c), Entry(p.now, Readings(x, p)), OffsetsAfter(x, p), Saves(p))
  {
    var (readings, offsets) := LookAll(x.disk.offsets, p.files);
    var files' := SightedContent(x.files, p.files);
    forall n: string
      ensures PassesOver(files', x.disk.offsets, offsets, readings, n) && FileGrows(x.files, files', n)
    {
      hide Placed, PassesOver, FileGrows, Untouched;
      InsideFile(x, n);
      LookAllPasses(x.files, x.disk.offsets, p.files, n);
    }
  }

  // One that does not sights every file anew, and reads no line.
  lemma SightsOnly(files: map<string, seq<byte>>, seen: seq<Sighting>)
    requires DistinctNames(seen) && forall i :: 0 <= i < |seen| ==> Grew(files, map[], seen[i])
    ensures forall n :: LinesOf(LookAll(map[], seen).0, n) == [] && FileGrows(files, SightedContent(files, seen), n)
  {
    var none: Offsets := map[];
    forall n: string
      ensures LinesOf(LookAll(none, seen).0, n) == [] && FileGrows(files, SightedContent(files, seen), n)
    {
      LookAllPasses(files, none, seen, n);
    }
  }

  lemma {:induction false} NoLinesNoRows<Memory, Row>(w: Watcher<Memory, Row>, now: int, m: Memory,
                                                      readings: seq<Reading>)
    requires forall n :: LinesOf(readings, n) == []
    ensures WatchReadings(w, now, m, readings) == (m, [])
  {
    if readings != [] {
      var init, last := readings[..|readings| - 1], readings[|readings| - 1];
      assert LinesOf(readings, last.name) == [];
      assert forall n :: LinesOf(readings, n) == LinesOf(init, n) + if last.name == n then last.lines else [];
      NoLinesNoRows(w, now, m, init);
    }
  }

  lemma UnreadFindsNothing<Memory, Row>(x: World<Memory, Row>, p: Plan, w: Watcher<Memory, Row>)
    requires FilesGrow(x, p) && !p.stateReads
    ensures Finds(x, p, w) == [] && forall n :: LinesOf(Readings(x, p), n) == []
  {
    SightsOnly(x.files, p.files);
    NoLinesNoRows(w, p.now, w.start, Readings(x, p));
  }

  // If it does not save its own state either, it leaves the saved one alone.
  lemma UnreadUnsaved<Memory, Row(!new)>(x: World<Memory, Row>, p: Plan, w: Watcher<Memory, Row>, c: Codec<Row>)
    requires AllPlaced(x) && FilesGrow(x, p) && !p.stateReads && !Saves(p)
    ensures Stepped(x, Advance(x, p, w, c), Entry(p.now, Readings(x, p)), x.disk.offsets, false)
  {
    var files' := SightedContent(x.files, p.files);
    SightsOnly(x.files, p.files);
    forall n: string
      ensures PassesOver(files', x.disk.offsets, x.disk.offsets, Readings(x, p), n)
    {
      assert LinesOf(Readings(x, p), n) == [] && FileGrows(x.files, files', n);
      InsideFile(x, n);
      hide AllPlaced, LinesOf, Lines;
      if n in x.disk.offsets {
        NoLinesAt(files'[n], x.disk.offsets[n]);
      }
    }
  }

  // If it does, it is a tick that reads an empty state.
  lemma UnreadIsAnew<Memory, Row(!new)>(x: World<Memory, Row>, p: Plan, w: Watcher<Memory, Row>, c: Codec<Row>)
    requires !p.stateReads && Saves(p)
    ensures
      var y, q := Anew(x, w), p.(stateReads := true);
      && Advance(x, p, w, c) == Advance(y, q, w, c) && Finds(x, p, w) == Finds(y, q, w)
      && (FilesGrow(x, p) ==> FilesGrow(y, q)) && Readings(x, p) == Readings(y, q) &&
           OffsetsAfter(x, p) == OffsetsAfter(y, q)
  {
  }

  lemma AnewIsConsistent<Memory, Row>(x: World<Memory, Row>, w: Watcher<Memory, Row>)
    requires Consistent(x, w)
    ensures Consistent(Anew(x, w), w) && Derived(Anew(x, w), w) == Derived(x, w)
  {
    var past := x.past + [x.(past := [])];
    assert past[..|past| - 1] == x.past;
    assert Derived(x, w) + [] == Derived(x, w);
  }

  lemma InsideFile<Memory, Row>(x: World<Memory, Row>, n: string)
    requires AllPlaced(x)
    ensures n in x.disk.offsets ==> n in x.files && n in x.first && Placed(x.files[n], x.first[n], x.disk.offsets[n])
    ensures n in x.disk.offsets ==> x.disk.offsets[n] <= |x.files[n]|
  {
  }

  lemma {:induction false} LinesPrefix(a: seq<byte>, b: seq<byte>)
    ensures Lines(a) <= Lines(a + b)
  {
    if HasNewline(a) {
      var i := FirstNewline(a);
      LinesPeel(a, b, i);
      LinesPrefix(a[i + 1..], b);
    }
  }

  lemma LinesOfPrefix(a: seq<byte>, b: seq<byte>)
    requires a <= b
    ensures Lines(a) <= Lines(b)
  {
    assert b == a + b[|a|..];
    LinesPrefix(a, b[|a|..]);
  }

  // A file that grew, read on from one line end to another.
  lemma ReadOn(b: seq<byte>, b': seq<byte>, first: nat, o: nat, o': nat)
    requires Placed(b, first, o) && b <= b' && o <= o' <= |b'| && (o' == o || b'[o' - 1] == NEWLINE)
    ensures Placed(b', first, o')
    ensures Lines(b'[first..o']) == Lines(b[first..o]) + Lines(b'[o..o'])
  {
    assert b[first..o] == b'[first..o];
    assert o > first ==> b'[o - 1] == b[o - 1];
    LinesJoin(b', first, o, o');
  }

  // What file `n` looks like afterwards, when its offset was saved before.
  lemma KnownFile<Memory, Row>(x: World<Memory, Row>, x': World<Memory, Row>, e: Entry, offsets: Offsets, saved: bool,
                               n: string)
    requires Stepped(x, x', e, offsets, saved) && AllPlaced(x) && n in x.disk.offsets
    ensures n in x'.disk.offsets && n in x'.files && n in x'.first && x'.first[n] == x.first[n] && n in offsets
    ensures x.files[n] <= x'.files[n] && Placed(x.files[n], x.first[n], x.disk.offsets[n])
    ensures x.disk.offsets[n] <= offsets[n] <= |x'.files[n]|
    ensures offsets[n] == x.disk.offsets[n] || x'.files[n][offsets[n] - 1] == NEWLINE
    ensures LinesOf(e.readings, n) == Lines(x'.files[n][x.disk.offsets[n]..offsets[n]])
    ensures x'.disk.offsets[n] == if saved then offsets[n] else x.disk.offsets[n]
  {
    hide Lines, Placed;
    assert PassesOver(x'.files, x.disk.offsets, offsets, e.readings, n);
    assert FileGrows(x.files, x'.files, n);
  }

  lemma NewFile<Memory, Row>(x: World<Memory, Row>, x': World<Memory, Row>, e: Entry, offsets: Offsets, saved: bool,
                             n: string)
    requires Stepped(x, x', e, offsets, saved) && AllPlaced(x) && n !in x.disk.offsets
    ensures LinesOf(e.readings, n) == []
    ensures n in x'.disk.offsets ==>
      n in x'.files && n in x'.first && x'.first[n] == x'.disk.offsets[n] <= |x'.files[n]|
  {
    hide Lines, Placed;
    assert PassesOver(x'.files, x.disk.offsets, offsets, e.readings, n);
  }

  lemma PlacedAfter<Memory, Row>(x: World<Memory, Row>, x': World<Memory, Row>, e: Entry, offsets: Offsets, saved: bool)
    requires Stepped(x, x', e, offsets, saved) && AllPlaced(x)
    ensures AllPlaced(x')
  {
    hide Placed, PassesOver, FileGrows;
    assert x'.first.Keys == x'.disk.offsets.Keys;
    forall n | n in x'.disk.offsets
      ensures n in x'.files && Placed(x'.files[n], x'.first[n], x'.disk.offsets[n])
    {
      FilePlaced(x, x', e, offsets, saved, n);
    }
  }

  lemma FilePlaced<Memory, Row>(x: World<Memory, Row>, x': World<Memory, Row>, e: Entry, offsets: Offsets, saved: bool,
                                n: string)
    requires Stepped(x, x', e, offsets, saved) && AllPlaced(x) && n in x'.disk.offsets
    ensures n in x'.files && n in x'.first && Placed(x'.files[n], x'.first[n], x'.disk.offsets[n])
  {
    hide Stepped, AllPlaced, Lines;
    InsideFile(x, n);
    if n in x.disk.offsets {
      KnownFile(x, x', e, offsets, saved, n);
      ReadOn(x.files[n], x'.files[n], x.first[n], x.disk.offsets[n], x'.disk.offsets[n]);
    } else {
      NewFile(x, x', e, offsets, saved, n);
    }
  }

  lemma HistoryGrows<Memory, Row>(x: World<Memory, Row>, x': World<Memory, Row>, e: Entry, offsets: Offsets,
                                  saved: bool, n: string)
    requires Stepped(x, x', e, offsets, saved)
    ensures HistoryLines(x'.history, n) == HistoryLines(x.history, n) + if saved then LinesOf(e.readings, n) else []
  {
    assert (x.history + [e])[..|x.history|] == x.history;
  }

  lemma KnownConsumed<Memory, Row>(x: World<Memory, Row>, x': World<Memory, Row>, e: Entry, offsets: Offsets,
                                   saved: bool, n: string)
    requires Stepped(x, x', e, offsets, saved) && AllPlaced(x) && AllPlaced(x') && LinesConsumed(x, n) &&
      n in x.disk.offsets
    ensures LinesConsumed(x', n)
  {
    hide Stepped, AllPlaced, Lines, Placed, HistoryLines, LinesOf;
    HistoryGrows(x, x', e, offsets, saved, n);
    InsideFile(x, n);
    KnownFile(x, x', e, offsets, saved, n);
    StillConsumed(HistoryLines(x.history, n), LinesOf(e.readings, n), x.files[n], x'.files[n],
                  x.first[n], x.disk.offsets[n], offsets[n], x'.disk.offsets[n], saved);
  }

  lemma StillConsumed(consumed: seq<Line>, read: seq<Line>, b: seq<byte>, b': seq<byte>,
                      first: nat, o: nat, end: nat, o': nat, saved: bool)
    requires Placed(b, first, o) && b <= b' && o <= end <= |b'| && (end == o || b'[end - 1] == NEWLINE)
    requires consumed == Lines(b[first..o]) && read == Lines(b'[o..end]) && o' == if saved then end else o
    ensures consumed + (if saved then read else []) == Lines(b'[first..o'])
  {
    hide Lines;
    if saved {
      ReadOn(b, b', first, o, end);
    } else {
      assert b'[first..o] == b[first..o];
      assert consumed + [] == consumed;
    }
  }

  lemma NewConsumed<Memory, Row>(x: World<Memory, Row>, x': World<Memory, Row>, e: Entry, offsets: Offsets,
                                 saved: bool, n: string)
    requires Stepped(x, x', e, offsets, saved) && AllPlaced(x) && AllPlaced(x') && LinesConsumed(x, n) &&
      n !in x.disk.offsets
    ensures LinesConsumed(x', n)
  {
    hide Stepped, AllPlaced, Lines, Placed, HistoryLines, LinesOf;
    HistoryGrows(x, x', e, offsets, saved, n);
    NewFile(x, x', e, offsets, saved, n);
    if n in x'.disk.offsets {
      NoLinesAt(x'.files[n], x'.first[n]);
    }
  }

  // The saved ticks still consumed exactly the complete lines up to the offsets.
  lemma ConsumedAfter<Memory, Row>(x: World<Memory, Row>, x': World<Memory, Row>, e: Entry, offsets: Offsets,
                                   saved: bool, n: string)
    requires Stepped(x, x', e, offsets, saved) && AllPlaced(x) && AllPlaced(x') && LinesConsumed(x, n)
    ensures LinesConsumed(x', n)
  {
    hide Stepped, AllPlaced, LinesConsumed;
    if n in x.disk.offsets {
      KnownConsumed(x, x', e, offsets, saved, n);
    } else {
      NewConsumed(x, x', e, offsets, saved, n);
    }
  }

  // What came next before still does, and what this tick read comes next.
  lemma ComesNextAfter<Memory, Row>(x: World<Memory, Row>, x': World<Memory, Row>, e: Entry, offsets: Offsets,
                                    saved: bool, k: nat, readings: seq<Reading>, n: string)
    requires Stepped(x, x', e, offsets, saved) && AllPlaced(x) && AllPlaced(x') && k <= |x.history|
    requires ComesNext(x, k, readings, n) && (n !in x.disk.offsets ==> HistoryLines(x.history[..k], n) == [])
    ensures k <= |x'.history| && ComesNext(x', k, readings, n)
  {
    hide Lines, LinesOf, HistoryLines;
    assert x'.history[..k] == x.history[..k];
    if n in x.disk.offsets {
      KnownFile(x, x', e, offsets, saved, n);
      assert x.files[n][x.first[n]..] <= x'.files[n][x.first[n]..];
      LinesOfPrefix(x.files[n][x.first[n]..], x'.files[n][x.first[n]..]);
    }
  }

  lemma ReadComesNext<Memory, Row>(x: World<Memory, Row>, x': World<Memory, Row>, e: Entry, offsets: Offsets,
                                   saved: bool, n: string)
    requires Stepped(x, x', e, offsets, saved) && AllPlaced(x) && AllPlaced(x') && LinesConsumed(x, n)
    ensures |x.history| <= |x'.history| && ComesNext(x', |x.history|, e.readings, n)
  {
    hide Lines, Placed, HistoryLines, LinesOf, PassesOver, FileGrows;
    assert x'.history[..|x.history|] == x.history;
    InsideFile(x, n);
    if n in x.disk.offsets {
      KnownFile(x, x', e, offsets, saved, n);
      ReadOnAndMore(x.files[n], x'.files[n], x.first[n], x.disk.offsets[n], offsets[n]);
    } else {
      NewFile(x, x', e, offsets, saved, n);
    }
  }

  lemma ReadOnAndMore(b: seq<byte>, b': seq<byte>, first: nat, o: nat, o': nat)
    requires Placed(b, first, o) && b <= b' && o <= o' <= |b'| && (o' == o || b'[o' - 1] == NEWLINE)
    ensures Lines(b[first..o]) + Lines(b'[o..o']) <= Lines(b'[first..])
  {
    ReadOn(b, b', first, o, o');
    assert b'[first..o'] <= b'[first..];
    LinesOfPrefix(b'[first..o'], b'[first..]);
  }

  // The first ticks consumed no line of a file that is sighted only later.
  lemma {:induction false} NothingEarlier(history: seq<Entry>, k: nat, n: string)
    requires k <= |history| && HistoryLines(history, n) == []
    ensures HistoryLines(history[..k], n) == []
  {
    if k < |history| {
      NothingEarlier(history[..|history| - 1], k, n);
      assert history[..|history| - 1][..k] == history[..k];
    } else {
      assert history[..k] == history;
    }
  }

  lemma JustifiedAfter<Memory, Row>(x: World<Memory, Row>, x': World<Memory, Row>, e: Entry, offsets: Offsets,
                                    saved: bool,
                                    w: Watcher<Memory, Row>, r: Row, k: nat, now: int, readings: seq<Reading>)
    requires Stepped(x, x', e, offsets, saved) && Consistent(x, w) && AllPlaced(x') &&
      Justified(x, w, r, k, now, readings)
    ensures Justified(x', w, r, k, now, readings)
  {
    assert x'.history[..k] == x.history[..k];
    forall n: string
      ensures ComesNext(x', k, readings, n)
    {
      assert ComesNext(x, k, readings, n) && LinesConsumed(x, n);
      hide Stepped, AllPlaced, ComesNext;
      if n !in x.disk.offsets {
        NothingEarlier(x.history, k, n);
      }
      ComesNextAfter(x, x', e, offsets, saved, k, readings, n);
    }
  }

  lemma FoundIsJustified<Memory, Row>(x: World<Memory, Row>, x': World<Memory, Row>, e: Entry, offsets: Offsets,
                                      saved: bool, w: Watcher<Memory, Row>, r: Row)
    requires Stepped(x, x', e, offsets, saved) && Consistent(x, w) && AllPlaced(x')
    requires r in RowsFound(w, e.now, x.disk.memory, e.readings)
    ensures Justified(x', w, r, |x.history|, e.now, e.readings)
  {
    assert x'.history[..|x.history|] == x.history;
    forall n: string
      ensures ComesNext(x', |x.history|, e.readings, n)
    {
      assert LinesConsumed(x, n);
      hide Stepped, AllPlaced, ComesNext;
      ReadComesNext(x, x', e, offsets, saved, n);
    }
  }

  lemma SteppedStaysConsistent<Memory, Row>(x: World<Memory, Row>, x': World<Memory, Row>, e: Entry, offsets: Offsets,
                                            saved: bool, w: Watcher<Memory, Row>)
    requires Consistent(x, w) && Stepped(x, x', e, offsets, saved)
    requires x'.disk.memory == if saved then MemoryAfter(w, e.now, x.disk.memory, e.readings) else x.disk.memory
    ensures Consistent(x', w)
    ensures Derived(x', w) ==
            Derived(x, w) + if saved then RowsFound(w, e.now, x.disk.memory, e.readings) else []
  {
    hide Stepped, LinesConsumed, AllPlaced, RowsFound, MemoryAfter, Derived, Replay;
    PlacedAfter(x, x', e, offsets, saved);
    forall n: string
      ensures LinesConsumed(x', n)
    {
      assert LinesConsumed(x, n);
      ConsumedAfter(x, x', e, offsets, saved, n);
    }
    DerivedAfter(x, x', e, offsets, saved, w);
  }

  lemma DerivedAfter<Memory, Row>(x: World<Memory, Row>, x': World<Memory, Row>, e: Entry, offsets: Offsets,
                                  saved: bool,
                                  w: Watcher<Memory, Row>)
    requires Stepped(x, x', e, offsets, saved) && x.disk.memory == Replay(w, x.history).0
    ensures Replay(w, x'.history).0 == if saved then MemoryAfter(w, e.now, x.disk.memory, e.readings) else x.disk.memory
    ensures Derived(x', w) ==
            Derived(x, w) + if saved then RowsFound(w, e.now, x.disk.memory, e.readings) else []
  {
    hide RowsFound, MemoryAfter, PastRows, Replay, Stepped, HistoryLines, LinesOf;
    HistorySnoc(w, x.history, e, "");
    PastStays(x, x', e, offsets, saved);
    if saved {
      Assoc(PastRows(x.past, w), Replay(w, x.history).1, RowsFound(w, e.now, x.disk.memory, e.readings));
    } else {
      NothingMore(Derived(x, w));
    }
  }

  lemma PastStays<Memory, Row>(x: World<Memory, Row>, x': World<Memory, Row>, e: Entry, offsets: Offsets, saved: bool)
    requires Stepped(x, x', e, offsets, saved)
    ensures x'.past == x.past && x'.history == if saved then x.history + [e] else x.history
  {
  }

  lemma NothingMore<T>(s: seq<T>)
    ensures s + [] == s
  {
  }

  lemma ReadTickStaysConsistent<Memory, Row(!new)>(x: World<Memory, Row>, p: Plan, w: Watcher<Memory, Row>,
                                                   c: Codec<Row>)
    requires Consistent(x, w) && FilesGrow(x, p) && p.stateReads
    ensures Consistent(Advance(x, p, w, c), w)
    ensures Derived(Advance(x, p, w, c), w) == Derived(x, w) + if Saves(p) then Finds(x, p, w) else []
  {
    hide Consistent, FilesGrow, Stepped, Derived;
    PlacedPart(x, w);
    AdvanceSteps(x, p, w, c);
    SteppedStaysConsistent(x, Advance(x, p, w, c), Entry(p.now, Readings(x, p)), OffsetsAfter(x, p), Saves(p), w);
  }

  lemma PlacedPart<Memory, Row>(x: World<Memory, Row>, w: Watcher<Memory, Row>)
    requires Consistent(x, w)
    ensures AllPlaced(x)
  {
  }

  // Whatever it could read or save, a tick leaves a state that the saved ticks account
  // for.
  lemma TickStaysConsistent<Memory, Row(!new)>(x: World<Memory, Row>, p: Plan, w: Watcher<Memory, Row>, c: Codec<Row>)
    requires Consistent(x, w) && FilesGrow(x, p)
    ensures Consistent(Advance(x, p, w, c), w)
    ensures Derived(Advance(x, p, w, c), w) == Derived(x, w) + if Saves(p) then Finds(x, p, w) else []
  {
    hide Consistent, FilesGrow, Stepped, Derived, Anew;
    if p.stateReads {
      ReadTickStaysConsistent(x, p, w, c);
    } else if Saves(p) {
      AnewIsConsistent(x, w);
      UnreadIsAnew(x, p, w, c);
      ReadTickStaysConsistent(Anew(x, w), p.(stateReads := true), w, c);
    } else {
      PlacedPart(x, w);
      UnreadUnsaved(x, p, w, c);
      SteppedStaysConsistent(x, Advance(x, p, w, c), Entry(p.now, Readings(x, p)), x.disk.offsets, false, w);
    }
  }
}
