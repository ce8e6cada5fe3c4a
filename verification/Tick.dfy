// One collection tick: rows are persisted before the offsets they came from, and the
// queue is rewritten only after the server confirms. A crash may fall between any two
// writes. What a watcher remembers is saved together with the offsets.
module Tick {
  import opened Basics
  import opened Wrappers
  import opened JsonLines
  import opened Tail
  import opened Queue

  type Offsets = map<string, nat>

  // One file as a tick meets it; `readable` is whether opening and reading it works.
  datatype Sighting = Sighting(name: string, poll: Poll, readable: bool)

  datatype Send = Unreached | Unconfirmed | Confirmed

  // What happens to one tick: when it runs, whether the state can be read, the files it
  // meets, whether the queue can be read, how many of its four writes are reached before
  // a crash (append, save the state, post, rewrite), and how each goes.
  datatype Plan = Plan(now: int, stateReads: bool, files: seq<Sighting>, readWorks: bool, reached: nat,
                       appendWorks: bool, saveWorks: bool, send: Send, rewriteWorks: bool)

  // The rows a watcher makes of a line, given the time and what it remembers, and what
  // it remembers after the line and at the end of a tick.
  datatype Watcher<!Memory, Row> =
    Watcher(start: Memory, onLine: (int, Memory, Line) -> (Memory, seq<Row>), atEnd: Memory -> Memory)

  // Everything that outlives a crash: the state file, the queue file, and all that the
  // server was given, in order.
  datatype Durable<Memory, Row> =
    Durable(offsets: Offsets, memory: Memory, queue: Option<seq<byte>>, given: seq<Row>)

  // The lines that one look at a file yields.
  datatype Reading = Reading(name: string, lines: seq<Line>)

  // ----- looking at the files ------------------------------------------------------

  // A file that did not grow is passed over, and keeps its offset even if it shrank.
  function Look(offsets: Offsets, s: Sighting): (seq<Line>, Offsets) {
    if s.name in offsets && s.poll.size <= offsets[s.name] then ([], offsets)
    else ReadFile(offsets, s.name, Some(s.poll), s.readable)
  }

  function LookAll(offsets: Offsets, files: seq<Sighting>): (seq<Reading>, Offsets) {
    if files == [] then ([], offsets)
    else
      var s := files[|files| - 1];
      var (readings, before) := LookAll(offsets, files[..|files| - 1]);
      var (lines, after) := Look(before, s);
      (readings + [Reading(s.name, lines)], after)
  }

  lemma LookAllSnoc(offsets: Offsets, files: seq<Sighting>, s: Sighting)
    ensures
      var (readings, before) := LookAll(offsets, files);
      var (lines, after) := Look(before, s);
      LookAll(offsets, files + [s]) == (readings + [Reading(s.name, lines)], after)
  {
    assert (files + [s])[..|files|] == files;
  }

  // ----- what the watcher makes of the lines -------------------------------------------

  function WatchLines<Memory, Row>(w: Watcher<Memory, Row>, now: int, m: Memory,
                                   lines: seq<Line>): (Memory, seq<Row>) {
    if lines == [] then (m, [])
    else
      var (before, rows) := WatchLines(w, now, m, lines[..|lines| - 1]);
      var (after, more) := w.onLine(now, before, lines[|lines| - 1]);
      (after, rows + more)
  }

  function WatchReadings<Memory, Row>(w: Watcher<Memory, Row>, now: int, m: Memory,
                                      readings: seq<Reading>): (Memory, seq<Row>) {
    if readings == [] then (m, [])
    else
      var (before, rows) := WatchReadings(w, now, m, readings[..|readings| - 1]);
      var (after, more) := WatchLines(w, now, before, readings[|readings| - 1].lines);
      (after, rows + more)
  }

  function RowsFound<Memory, Row>(w: Watcher<Memory, Row>, now: int, m: Memory, readings: seq<Reading>): seq<Row> {
    WatchReadings(w, now, m, readings).1
  }

  function MemoryAfter<Memory, Row>(w: Watcher<Memory, Row>, now: int, m: Memory, readings: seq<Reading>): Memory {
    w.atEnd(WatchReadings(w, now, m, readings).0)
  }

  // ----- the tick ---------------------------------------------------------------------------

  function Elements<T(==)>(s: seq<T>): set<T> {
    set x | x in s
  }

  // What a tick writes, given what its watchers found and remember, and what it read of
  // the queue.
  function Settle<Memory, Row(!new)>(d: Durable<Memory, Row>, p: Plan, found: seq<Row>, offsets: Offsets,
                                     memory: Memory, queued: seq<Row>, c: Codec<Row>): Durable<Memory, Row>
  {
    var pending := queued + found;
    var take := BatchLength(pending, MAX_SEND_BYTES, c);
    var queue := if p.reached >= 1 then Appended(d.queue, found, p.appendWorks, c) else d.queue;
    var saved := p.reached >= 2 && p.saveWorks;
    Durable(
      if saved then offsets else d.offsets,
      if saved then memory else d.memory,
      if p.reached >= 4 && p.send.Confirmed? && pending != []
      then Saved(queue, pending[take..], p.rewriteWorks, c) else queue,
      if p.reached >= 3 && !p.send.Unreached? then d.given + pending[..take] else d.given)
  }

  function Queued<Memory, Row(!new)>(d: Durable<Memory, Row>, p: Plan, c: Codec<Row>): seq<Row> {
    if p.readWorks then ReadRows(d.queue, c) else []
  }

  // The state a tick starts from; one that cannot be read counts as empty.
  function OffsetsRead<Memory, Row>(d: Durable<Memory, Row>, p: Plan): Offsets {
    if p.stateReads then d.offsets else map[]
  }

  function MemoryRead<Memory, Row>(d: Durable<Memory, Row>, p: Plan, w: Watcher<Memory, Row>): Memory {
    if p.stateReads then d.memory else w.start
  }

  function AfterTick<Memory, Row(!new)>(d: Durable<Memory, Row>, p: Plan, w: Watcher<Memory, Row>,
                                        c: Codec<Row>): Durable<Memory, Row> {
    var (readings, offsets) := LookAll(OffsetsRead(d, p), p.files);
    var memory := MemoryRead(d, p, w);
    Settle(d, p, RowsFound(w, p.now, memory, readings), offsets, MemoryAfter(w, p.now, memory, readings),
      Queued(d, p, c), c)
  }

  // ----- the agent ---------------------------------------------------------------------

  // A watcher that parses each line, and passes over those that do not parse.
  function Parsing<Memory, Value, Row>(parse: Line -> Option<Value>,
                                       watch: (int, Memory, Value) -> (Memory, seq<Row>)):
    (int, Memory, Line) -> (Memory, seq<Row>)
  {
    (now, m, line) => match parse(line) case None => (m, []) case Some(v) => watch(now, m, v)
  }

  function WatchValues<Memory, Value, Row>(watch: (int, Memory, Value) -> (Memory, seq<Row>), now: int, m: Memory,
                                           values: seq<Value>):
    (Memory, seq<Row>)
  {
    if values == [] then (m, [])
    else
      var (before, rows) := WatchValues(watch, now, m, values[..|values| - 1]);
      var (after, more) := watch(now, before, values[|values| - 1]);
      (after, rows + more)
  }

  // Watching the values that parse is watching the lines.
  lemma {:induction false} WatchedValues<Memory, Value, Row>(w: Watcher<Memory, Row>, now: int, m: Memory,
                                                             lines: seq<Line>, parse: Line -> Option<Value>,
                                                             watch: (int, Memory, Value) -> (Memory, seq<Row>))
    requires w.onLine == Parsing(parse, watch)
    ensures WatchValues(watch, now, m, ParseAll(lines, parse)) == WatchLines(w, now, m, lines)
  {
    if lines != [] {
      var init, last := lines[..|lines| - 1], lines[|lines| - 1];
      WatchedValues(w, now, m, init, parse, watch);
      match parse(last)
      case None =>
        var (memory, rows) := WatchLines(w, now, m, init);
        assert rows + [] == rows;
      case Some(v) =>
        var values := ParseAll(init, parse);
        assert (values + [v])[..|values|] == values;
    }
  }

  lemma WatchReadingsSnoc<Memory, Row>(w: Watcher<Memory, Row>, now: int, m: Memory, readings: seq<Reading>,
                                       r: Reading)
    ensures
      var (before, rows) := WatchReadings(w, now, m, readings);
      var (after, more) := WatchLines(w, now, before, r.lines);
      WatchReadings(w, now, m, readings + [r]) == (after, rows + more)
  {
    assert (readings + [r])[..|readings|] == readings;
  }

  lemma NothingToSend<Row(!new)>(pending: seq<Row>, c: Codec<Row>)
    requires pending == []
    ensures pending[..BatchLength(pending, MAX_SEND_BYTES, c)] == []
  {
  }

  class Agent<Memory, Value, Row(!new)> {
    const codec: Codec<Row>
    const parse: Line -> Option<Value>
    const watch: (int, Memory, Value) -> (Memory, seq<Row>)
    const watcher: Watcher<Memory, Row>
    const queue: QueueFile<Row>
    // The state as last saved, and what the server was given.
    var saved: Offsets
    var memory: Memory
    var given: seq<Row>

    ghost predicate Valid()
      reads this, queue
    {
      queue.codec == codec && watcher.onLine == Parsing(parse, watch)
    }

    function State(): Durable<Memory, Row>
      reads this, queue
    {
      Durable(saved, memory, queue.text, given)
    }

    constructor (codec: Codec<Row>, parse: Line -> Option<Value>, watch: (int, Memory, Value) -> (Memory, seq<Row>),
                 start: Memory, atEnd: Memory -> Memory)
      ensures Valid() && fresh(queue) && State() == Durable(map[], start, None, [])
      ensures this.codec == codec && this.watcher == Watcher(start, Parsing(parse, watch), atEnd)
    {
      this.codec := codec;
      this.parse := parse;
      this.watch := watch;
      this.watcher := Watcher(start, Parsing(parse, watch), atEnd);
      queue := new QueueFile(codec, None);
      saved := map[];
      memory := start;
      given := [];
    }

    method Watch(now: int, before: Memory, values: seq<Value>) returns (after: Memory, rows: seq<Row>)
      ensures (after, rows) == WatchValues(watch, now, before, values)
    {
      after, rows := before, [];
      for i := 0 to |values|
        invariant (after, rows) == WatchValues(watch, now, before, values[..i])
      {
        assert values[..i + 1][..i] == values[..i];
        var (next, more) := watch(now, after, values[i]);
        after, rows := next, rows + more;
      }
      assert values[..|values|] == values;
    }

    // One file: passed over if it did not grow, tailed and watched otherwise.
    method WatchFile(tailer: Tailer, now: int, before: Memory, s: Sighting) returns (after: Memory, rows: seq<Row>)
      requires Valid()
      modifies tailer
      ensures tailer.offsets == Look(old(tailer.offsets), s).1
      ensures (after, rows) == WatchLines(watcher, now, before, Look(old(tailer.offsets), s).0)
    {
      hide Read, Split, ParseAll;
      WatchedValues(watcher, now, before, Look(tailer.offsets, s).0, parse, watch);
      if s.name in tailer.offsets && s.poll.size <= tailer.offsets[s.name] {
        return before, [];
      }
      var values := tailer.ReadNewLines(s.name, Some(s.poll), s.readable, parse);
      after, rows := Watch(now, before, values);
    }

    // The saved state, or an empty one.
    method LoadState(works: bool) returns (offsets: Offsets, remembered: Memory)
      ensures offsets == (if works then saved else map[]) && remembered == if works then memory else watcher.start
    {
      if works {
        return saved, memory;
      }
      return map[], watcher.start;
    }

    method RunWatchers(now: int, before: Offsets, start: Memory, files: seq<Sighting>)
      returns (rows: seq<Row>, offsets: Offsets, remembered: Memory)
      requires Valid()
      ensures offsets == LookAll(before, files).1
      ensures rows == RowsFound(watcher, now, start, LookAll(before, files).0)
      ensures remembered == MemoryAfter(watcher, now, start, LookAll(before, files).0)
    {
      hide Look;
      var tailer := new Tailer();
      tailer.offsets := before;
      rows, remembered := [], start;
      ghost var readings: seq<Reading> := LookAll(before, files[..0]).0;
      for i := 0 to |files|
        invariant fresh(tailer)
        invariant (readings, tailer.offsets) == LookAll(before, files[..i])
        invariant (remembered, rows) == WatchReadings(watcher, now, start, readings)
      {
        ghost var reading := Reading(files[i].name, Look(tailer.offsets, files[i]).0);
        LookAllSnoc(before, files[..i], files[i]);
        assert files[..i + 1] == files[..i] + [files[i]];
        WatchReadingsSnoc(watcher, now, start, readings, reading);
        readings := readings + [reading];
        var after, more := WatchFile(tailer, now, remembered, files[i]);
        remembered, rows := after, rows + more;
      }
      assert files[..|files|] == files;
      offsets := tailer.offsets;
      remembered := watcher.atEnd(remembered);
    }

    // A tick, cut off after the writes that `p` lets it reach.
    method Tick(p: Plan)
      requires Valid()
      modifies this, queue
      ensures Valid()
      ensures State() == AfterTick(old(State()), p, watcher, codec)
    {
      var before, start := LoadState(p.stateReads);
      var rows, offsets, remembered := RunWatchers(p.now, before, start, p.files);
      var queued := queue.Read(p.readWorks);
      Persist(p, rows, offsets, remembered, queued);
    }

    // The writes themselves, in their order.
    method Persist(p: Plan, rows: seq<Row>, offsets: Offsets, remembered: Memory, queued: seq<Row>)
      requires Valid()
      modifies this, queue
      ensures Valid()
      ensures State() == Settle(old(State()), p, rows, offsets, remembered, queued, codec)
    {
      hide BatchLength, Saved, Framed;
      if p.reached < 1 {
        return;
      }
      if rows != [] {
        queue.Append(rows, p.appendWorks);
      }
      if p.reached < 2 {
        return;
      }
      if p.saveWorks {
        saved, memory := offsets, remembered;
      }
      if p.reached < 3 {
        return;
      }
      if queued + rows == [] {
        NothingToSend(queued + rows, codec);
        return;
      }
      Send(p, queued + rows);
    }

    method Send(p: Plan, pending: seq<Row>)
      requires Valid() && pending != [] && p.reached >= 3
      modifies this`given, queue
      ensures
        var take := BatchLength(pending, MAX_SEND_BYTES, codec);
        && given == old(given) + (if p.send.Unreached? then [] else pending[..take])
        && queue.text == if p.reached >= 4 && p.send.Confirmed?
                         then Saved(old(queue.text), pending[take..], p.rewriteWorks, codec) else old(queue.text)
    {
      var take := TakeSendBatch(pending, MAX_SEND_BYTES, codec);
      if !p.send.Unreached? {
        given := given + pending[..take];
      }
      if p.send.Confirmed? && p.reached >= 4 {
        queue.Save(pending[take..], p.rewriteWorks);
      }
    }
  }
}
