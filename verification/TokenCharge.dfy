// Token accounting for session logs: a message is reported again and again with
// growing counters, and only the growth is charged.
module TokenCharge {
  import opened Wrappers

  const USAGE_BY_ID_CAP: nat := 20000

  // ----- counters ----------------------------------------------------------------

  // Counters are in units of the least positive double, of which every finite double is a
  // whole multiple.

  datatype Usage = Usage(input: int, cacheWrite: int, cacheRead: int, output: int) {
    function Plus(that: Usage): Usage {
      Usage(input + that.input, cacheWrite + that.cacheWrite, cacheRead + that.cacheRead, output + that.output)
    }

    function Max(that: Usage): Usage {
      Usage(Larger(input, that.input), Larger(cacheWrite, that.cacheWrite), Larger(cacheRead, that.cacheRead),
        Larger(output, that.output))
    }

    // What this report adds to what was already recorded.
    function Growth(previous: Usage): Usage {
      Usage(Larger(input - previous.input, 0), Larger(cacheWrite - previous.cacheWrite, 0),
            Larger(cacheRead - previous.cacheRead, 0), Larger(output - previous.output, 0))
    }

    predicate AtMost(that: Usage) {
      input <= that.input && cacheWrite <= that.cacheWrite && cacheRead <= that.cacheRead && output <= that.output
    }

    predicate AnyPositive() {
      input > 0 || cacheWrite > 0 || cacheRead > 0 || output > 0
    }

    // The two sums that a row carries.
    function Total(): Tokens {
      Tokens(input + cacheWrite + cacheRead, output)
    }
  }

  datatype Tokens = Tokens(into: int, out: int) {
    function Plus(that: Tokens): Tokens {
      Tokens(into + that.into, out + that.out)
    }
  }

  const NO_USAGE: Usage := Usage(0, 0, 0, 0)
  const NO_TOKENS: Tokens := Tokens(0, 0)

  function Larger(x: int, y: int): int {
    if x >= y then x else y
  }

  // ----- session lines ---------------------------------------------------------------

  datatype Author = ByUser | ByAssistant | ByOther

  // `path` is the block's file path, when it has one that is not empty.
  datatype Block = TextBlock | ToolResult | ToolUse(path: Option<string>) | OtherBlock

  datatype Content = PlainText | Blocks(blocks: seq<Block>) | NoContent

  datatype Report = Report(id: Option<string>, counts: Usage)

  // Lines older than this are passed over. Timestamps are whole milliseconds, and so is the
  // time it is, which rounding up to them puts on the same side of every window.
  const RECENT_WINDOW_MS: int := 3_600_000

  // A line whose timestamp parses; `recent` is whether it lay in the window when it was
  // met.
  datatype SessionLine = SessionLine(recent: bool, time: int, source: string, project: string, cwd: string,
                                     author: Author, sidechain: bool, content: Content, report: Option<Report>)

  function Seen(line: SessionLine, now: int): SessionLine {
    line.(recent := now - line.time <= RECENT_WINDOW_MS)
  }

  datatype Actor = Human | Machine

  // What the server's table tells rows apart by; the machine is one and the same.
  datatype Key = Key(time: int, source: string, project: string, entity: string, actor: Actor)

  datatype Row = Row(key: Key, tokens: Option<Tokens>)

  function MakeRow(line: SessionLine, entity: string, actor: Actor, tokens: Option<Tokens>): Row {
    Row(Key(line.time, line.source, line.project, entity, actor), tokens)
  }

  predicate IsHumanPrompt(line: SessionLine) {
    && line.author == ByUser && !line.sidechain
    && match line.content
       case PlainText => true
       case Blocks(blocks) => TextBlock in blocks && ToolResult !in blocks
       case NoContent => false
  }

  // A row for every file a tool used; the tokens ride on the first.
  function FileRows(line: SessionLine, blocks: seq<Block>, tokens: Option<Tokens>): seq<Row> {
    if blocks == [] then []
    else
      var before := FileRows(line, blocks[..|blocks| - 1], tokens);
      match blocks[|blocks| - 1]
      case ToolUse(Some(path)) => before + [MakeRow(line, path, Machine, if before == [] then tokens else None)]
      case _ => before
  }

  function RowsOf(line: SessionLine, tokens: Option<Tokens>): seq<Row> {
    if IsHumanPrompt(line) then [MakeRow(line, line.cwd, Human, None)]
    else
      var rows := if line.content.Blocks? then FileRows(line, line.content.blocks, tokens) else [];
      if rows == [] && line.author != ByOther then [MakeRow(line, line.cwd, Machine, tokens)] else rows
  }

  // ----- the cache --------------------------------------------------------------------

  // The largest counters seen for each message, and the order of first insertion.
  datatype Cache = Cache(order: seq<string>, peaks: map<string, Usage>) {
    ghost predicate Valid() {
      && (forall k :: k in peaks <==> k in order)
      && NoDuplicates(order)
    }
  }

  ghost predicate NoDuplicates(s: seq<string>) {
    forall i, j :: 0 <= i < j < |s| ==> s[i] != s[j]
  }

  const EMPTY_CACHE: Cache := Cache([], map[])

  function Previous(cache: Cache, id: Option<string>): Usage {
    if id.Some? && id.value in cache.peaks then cache.peaks[id.value] else NO_USAGE
  }

  function Insert(cache: Cache, id: string, usage: Usage): Cache {
    Cache(if id in cache.peaks then cache.order else cache.order + [id], cache.peaks[id := usage])
  }

  // The growth that a line is charged for.
  function Charge(cache: Cache, line: SessionLine): Usage {
    if line.recent && line.report.Some?
    then line.report.value.counts.Growth(Previous(cache, line.report.value.id))
    else NO_USAGE
  }

  function Record(cache: Cache, line: SessionLine): Cache {
    if line.recent && line.report.Some? && line.report.value.id.Some? then
      var report := line.report.value;
      Insert(cache, report.id.value, report.counts.Max(Previous(cache, report.id)))
    else cache
  }

  function LineRows(cache: Cache, line: SessionLine): seq<Row> {
    if !line.recent then []
    else
      var charge := Charge(cache, line);
      RowsOf(line, if charge.AnyPositive() then Some(charge.Total()) else None)
  }

  function Restrict(peaks: map<string, Usage>, order: seq<string>): map<string, Usage> {
    map k | k in peaks && k in order :: peaks[k]
  }

  // The cache with the earliest insertions dropped, down to the cap.
  function Trimmed(cache: Cache): Cache {
    if |cache.order| <= USAGE_BY_ID_CAP then cache
    else
      var kept := cache.order[|cache.order| - USAGE_BY_ID_CAP..];
      Cache(kept, Restrict(cache.peaks, kept))
  }

  lemma DropOldest(peaks: map<string, Usage>, order: seq<string>)
    requires order != [] && NoDuplicates(order)
    ensures NoDuplicates(order[1..])
    ensures Restrict(peaks, order) - {order[0]} == Restrict(peaks, order[1..])
  {
    assert forall k :: k in order <==> k == order[0] || k in order[1..];
  }

  lemma AllKept(cache: Cache)
    requires cache.Valid()
    ensures cache.peaks == Restrict(cache.peaks, cache.order)
  {
  }

  // What one run over the lines leaves in the cache and emits.
  function ReadLines(cache: Cache, lines: seq<SessionLine>): (Cache, seq<Row>) {
    if lines == [] then (cache, [])
    else
      var (before, rows) := ReadLines(cache, lines[..|lines| - 1]);
      var line := lines[|lines| - 1];
      (Record(before, line), rows + LineRows(before, line))
  }

  lemma {:induction false} ReadLinesValid(cache: Cache, lines: seq<SessionLine>)
    requires cache.Valid()
    ensures ReadLines(cache, lines).0.Valid()
  {
    if lines != [] {
      ReadLinesValid(cache, lines[..|lines| - 1]);
      RecordValid(ReadLines(cache, lines[..|lines| - 1]).0, lines[|lines| - 1]);
    }
  }

  lemma RecordValid(cache: Cache, line: SessionLine)
    requires cache.Valid()
    ensures Record(cache, line).Valid()
  {
  }

  lemma TrimmedValid(cache: Cache)
    requires cache.Valid()
    ensures Trimmed(cache).Valid()
  {
  }

  class ClaudeWatcher {
    // The map of the state file, which keeps its keys in insertion order.
    var order: seq<string>
    var peaks: map<string, Usage>

    constructor ()
      ensures State() == EMPTY_CACHE
    {
      order, peaks := [], map[];
    }

    function State(): Cache
      reads this
    {
      Cache(order, peaks)
    }

    method EmitRows(line: SessionLine, tokens: Option<Tokens>) returns (rows: seq<Row>)
      ensures rows == RowsOf(line, tokens)
    {
      if IsHumanPrompt(line) {
        return [MakeRow(line, line.cwd, Human, None)];
      }
      rows := [];
      var emitted := false;
      if line.content.Blocks? {
        var blocks := line.content.blocks;
        for i := 0 to |blocks|
          invariant rows == FileRows(line, blocks[..i], tokens) && emitted == (rows != [])
        {
          assert blocks[..i + 1][..i] == blocks[..i];
          if blocks[i].ToolUse? && blocks[i].path.Some? {
            rows := rows + [MakeRow(line, blocks[i].path.value, Machine, if emitted then None else tokens)];
            emitted := true;
          }
        }
        assert blocks[..|blocks|] == blocks;
      }
      if !emitted && line.author != ByOther {
        rows := rows + [MakeRow(line, line.cwd, Machine, tokens)];
      }
    }

    // Record the report and return what it is charged.
    method Account(report: Report) returns (delta: Usage)
      modifies this
      ensures delta == report.counts.Growth(Previous(old(State()), report.id))
      ensures State() == if report.id.None? then old(State())
                         else Insert(old(State()), report.id.value,
                           report.counts.Max(Previous(old(State()), report.id)))
    {
      var current := report.counts;
      var previous := if report.id.Some? && report.id.value in peaks then peaks[report.id.value] else NO_USAGE;
      delta := current.Growth(previous);
      if report.id.Some? {
        var id := report.id.value;
        if id !in peaks {
          order := order + [id];
        }
        peaks := peaks[id := current.Max(previous)];
      }
    }

    method ReadLine(line: SessionLine) returns (rows: seq<Row>)
      modifies this
      ensures State() == Record(old(State()), line)
      ensures rows == LineRows(old(State()), line)
    {
      if !line.recent {
        return [];
      }
      var tokens: Option<Tokens> := None;
      if line.report.Some? {
        var delta := Account(line.report.value);
        if delta.AnyPositive() {
          tokens := Some(delta.Total());
        }
      }
      rows := EmitRows(line, tokens);
    }

    method Run(lines: seq<SessionLine>) returns (rows: seq<Row>)
      requires State().Valid()
      modifies this
      ensures rows == ReadLines(old(State()), lines).1
      ensures State() == Trimmed(ReadLines(old(State()), lines).0) && State().Valid()
    {
      rows := [];
      for i := 0 to |lines|
        invariant (State(), rows) == ReadLines(old(State()), lines[..i])
      {
        assert lines[..i + 1][..i] == lines[..i];
        var more := ReadLine(lines[i]);
        rows := rows + more;
      }
      assert lines[..|lines|] == lines;
      ReadLinesValid(old(State()), lines);
      Trim();
    }

    // Remove the first key until the map is within the cap.
    method Trim()
      requires State().Valid()
      modifies this
      ensures State() == Trimmed(old(State())) && State().Valid()
    {
      hide NoDuplicates, Restrict;
      ghost var dropped := 0;
      AllKept(State());
      while |order| > USAGE_BY_ID_CAP
        invariant dropped <= |old(order)| && order == old(order)[dropped..]
        invariant dropped > 0 ==> |order| >= USAGE_BY_ID_CAP
        invariant peaks == Restrict(old(peaks), order)
        invariant NoDuplicates(order)
      {
        DropOldest(old(peaks), order);
        var oldest := order[0];
        order := order[1..];
        peaks := peaks - {oldest};
        dropped := dropped + 1;
      }
      TrimmedValid(old(State()));
    }
  }
}
