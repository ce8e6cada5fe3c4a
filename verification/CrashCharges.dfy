// The session-log watcher under crashes: what it remembers is saved with the offsets.
// Exactly when the server's table ends up with the most a message ever reported.
module CrashCharges {
  import opened Wrappers
  import opened JsonLines
  import opened Queue
  import opened Tick
  import opened CrashSafety
  import opened CrashTheorems
  import opened CrashStrays
  import Ingest
  import TokenCharge
  import TokenTheorems
  import TokenEvictions
  import opened TokenStore

  type Cache = TokenCharge.Cache
  type Row = TokenCharge.Row
  type Step = TokenTheorems.Step
  // How a line is parsed, timestamp included.
  type Parser = Line -> Option<TokenCharge.SessionLine>

  function ClaudeWatcher(parse: Parser): Watcher<Cache, Row> {
    Watcher(
      TokenCharge.EMPTY_CACHE,
      (now, cache: Cache, line) =>
        match parse(line)
        case None => (cache, [])
        case Some(s) =>
          var met := TokenCharge.Seen(s, now);
          (TokenCharge.Record(cache, met), TokenCharge.LineRows(cache, met)),
      cache => TokenCharge.Trimmed(cache))
  }

  // ----- the accounting steps of what was read ------------------------------------------

  function LineSteps(parse: Parser, now: int, lines: seq<Line>): seq<Step> {
    if lines == [] then []
    else
      LineSteps(parse, now, lines[..|lines| - 1]) +
      match parse(lines[|lines| - 1])
      case None => []
      case Some(s) => [TokenTheorems.Line(TokenCharge.Seen(s, now))]
  }

  function ReadingSteps(parse: Parser, now: int, readings: seq<Reading>): seq<Step> {
    if readings == [] then []
    else ReadingSteps(parse, now, readings[..|readings| - 1]) + LineSteps(parse, now, readings[|readings| - 1].lines)
  }

  // Every saved tick is its lines followed by one trim.
  function HistorySteps(parse: Parser, history: seq<Entry>): seq<Step> {
    if history == [] then []
    else
      var e := history[|history| - 1];
      HistorySteps(parse, history[..|history| - 1]) + ReadingSteps(parse, e.now, e.readings) + [TokenTheorems.Trim]
  }

  lemma OneMoreStep(steps: seq<Step>, step: Step)
    ensures TokenTheorems.After(steps + [step]) == TokenTheorems.Apply(TokenTheorems.After(steps), step)
    ensures StepRows(steps + [step]) ==
            StepRows(steps) + if step.Line? then TokenCharge.LineRows(TokenTheorems.After(steps), step.line) else []
  {
    assert (steps + [step])[..|steps|] == steps;
  }

  lemma {:induction false} LinesAreSteps(parse: Parser, before: seq<Step>, now: int, lines: seq<Line>)
    ensures
      var (cache, rows) := WatchLines(ClaudeWatcher(parse), now, TokenTheorems.After(before), lines);
      var steps := before + LineSteps(parse, now, lines);
      cache == TokenTheorems.After(steps) && StepRows(before) + rows == StepRows(steps)
  {
    hide TokenTheorems.After, StepRows, TokenCharge.Record, TokenCharge.LineRows;
    if lines == [] {
      assert before + [] == before && StepRows(before) + [] == StepRows(before);
    } else {
      var init, last := lines[..|lines| - 1], lines[|lines| - 1];
      LinesAreSteps(parse, before, now, init);
      var so := before + LineSteps(parse, now, init);
      match parse(last)
      case None =>
        assert LineSteps(parse, now, lines) == LineSteps(parse, now, init);
      case Some(s) =>
        var met := TokenTheorems.Line(TokenCharge.Seen(s, now));
        OneMoreStep(so, met);
        assert so + [met] == before + LineSteps(parse, now, lines);
    }
  }

  lemma {:induction false} ReadingsAreSteps(parse: Parser, before: seq<Step>, now: int, readings: seq<Reading>)
    ensures
      var (cache, rows) := WatchReadings(ClaudeWatcher(parse), now, TokenTheorems.After(before), readings);
      var steps := before + ReadingSteps(parse, now, readings);
      cache == TokenTheorems.After(steps) && StepRows(before) + rows == StepRows(steps)
  {
    hide TokenTheorems.After, StepRows, LineSteps, WatchLines, ClaudeWatcher;
    if readings == [] {
      assert before + [] == before && StepRows(before) + [] == StepRows(before);
    } else {
      var init, last := readings[..|readings| - 1], readings[|readings| - 1];
      ReadingsAreSteps(parse, before, now, init);
      var so := before + ReadingSteps(parse, now, init);
      LinesAreSteps(parse, so, now, last.lines);
      assert so + LineSteps(parse, now, last.lines) == before + ReadingSteps(parse, now, readings);
    }
  }

  lemma {:induction false} HistoryIsSteps(parse: Parser, before: seq<Step>, history: seq<Entry>)
    requires TokenTheorems.After(before) == TokenCharge.EMPTY_CACHE
    ensures
      var (cache, rows) := Replay(ClaudeWatcher(parse), history);
      var steps := before + HistorySteps(parse, history);
      cache == TokenTheorems.After(steps) && StepRows(before) + rows == StepRows(steps)
  {
    hide TokenTheorems.After, StepRows, ReadingSteps, WatchReadings, ClaudeWatcher;
    if history == [] {
      assert before + [] == before && StepRows(before) + [] == StepRows(before);
      assert ClaudeWatcher(parse).start == TokenCharge.EMPTY_CACHE by { StartsEmpty(parse); }
    } else {
      var init, e := history[..|history| - 1], history[|history| - 1];
      HistoryIsSteps(parse, before, init);
      var so := before + HistorySteps(parse, init);
      ReadingsAreSteps(parse, so, e.now, e.readings);
      OneMoreStep(so + ReadingSteps(parse, e.now, e.readings), TokenTheorems.Trim);
      assert so + ReadingSteps(parse, e.now, e.readings) + [TokenTheorems.Trim] ==
        before + HistorySteps(parse, history);
      TrimsAtEnd(parse, WatchReadings(ClaudeWatcher(parse), e.now, TokenTheorems.After(so), e.readings).0);
    }
  }

  lemma StartsEmpty(parse: Parser)
    ensures ClaudeWatcher(parse).start == TokenCharge.EMPTY_CACHE
  {
  }

  lemma TrimsAtEnd(parse: Parser, cache: Cache)
    ensures ClaudeWatcher(parse).atEnd(cache) == TokenTheorems.Apply(cache, TokenTheorems.Trim)
  {
  }

  // Each time the state was lost, the cache was lost with it.
  function PastSteps(parse: Parser, past: seq<World<Cache, Row>>): seq<Step> {
    if past == [] then []
    else
      PastSteps(parse, past[..|past| - 1]) + HistorySteps(parse, past[|past| - 1].history) + [TokenTheorems.Lost]
  }

  function WorldSteps(parse: Parser, x: World<Cache, Row>): seq<Step> {
    PastSteps(parse, x.past) + HistorySteps(parse, x.history)
  }

  lemma {:induction false} PastIsSteps(parse: Parser, past: seq<World<Cache, Row>>)
    ensures TokenTheorems.After(PastSteps(parse, past)) == TokenCharge.EMPTY_CACHE
    ensures StepRows(PastSteps(parse, past)) == PastRows(past, ClaudeWatcher(parse))
  {
    if past != [] {
      var init, last := past[..|past| - 1], past[|past| - 1];
      PastIsSteps(parse, init);
      HistoryIsSteps(parse, PastSteps(parse, init), last.history);
      hide HistorySteps, StepRows, Replay, TokenTheorems.After, ClaudeWatcher;
      var so := PastSteps(parse, init) + HistorySteps(parse, last.history);
      OneMoreStep(so, TokenTheorems.Lost);
      assert StepRows(so) + [] == StepRows(so);
    }
  }

  // What the saved ticks leave in the cache, and all rows they made, are those of the
  // accounting of the lines they read.
  lemma WorldIsSteps(parse: Parser, x: World<Cache, Row>)
    ensures Replay(ClaudeWatcher(parse), x.history).0 == TokenTheorems.After(WorldSteps(parse, x))
    ensures Derived(x, ClaudeWatcher(parse)) == StepRows(WorldSteps(parse, x))
  {
    PastIsSteps(parse, x.past);
    HistoryIsSteps(parse, PastSteps(parse, x.past), x.history);
  }

  // ----- the saved ticks ------------------------------------------------------------------

  // After any run, however its ticks were cut off: the saved cache is that of the
  // accounting steps of the lines below the saved offsets, each read once; by these steps
  // a message is charged the most it ever reported, if and only if no counter of it comes
  // back after it was forgotten; and while every tick is harmless all their rows are
  // queued or at the server.
  lemma SavedTicksChargeOnce(plans: seq<Plan>, parse: Parser, c: Codec<Row>, id: string)
    requires c.Valid() && GrowingRun(plans, ClaudeWatcher(parse), c)
    ensures
      var x := Run(plans, ClaudeWatcher(parse), c);
      var steps := WorldSteps(parse, x);
      && AllPlaced(x) && (forall n :: LinesConsumed(x, n))
      && x.disk.memory == TokenTheorems.After(steps)
      && (TokenTheorems.Charged(steps, id) == TokenTheorems.Peak(steps, id) <==>
            forall k :: !TokenEvictions.ComesBack(steps, id, k))
      && (AlwaysHarmless(plans, ClaudeWatcher(parse), c) ==> forall r :: r in StepRows(steps) ==> r in Held(x.disk, c))
  {
    var w := ClaudeWatcher(parse);
    var x := Run(plans, w, c);
    RunIsSound(plans, w, c);
    WorldIsSteps(parse, x);
    hide Run, TokenTheorems.After, TokenTheorems.Charged, TokenTheorems.Peak, TokenEvictions.ComesBack, Derived;
    hide WorldSteps, StepRows, ClaudeWatcher;
    hide NothingInvented, WellFramed, GrowingRun, AlwaysHarmless, AlwaysKept, Held;
    TokenEvictions.ChargedOnceIfNoneComesBack(WorldSteps(parse, x), id);
    if AlwaysHarmless(plans, w, c) {
      CollectionIsCrashSafe(plans, w, c);
      KeptSoFar(plans, w, c);
    }
  }

  // ----- the server's table -----------------------------------------------------------------

  // What the server was given, and what waits for it.
  function Due(x: World<Cache, Row>, c: Codec<Row>): seq<Row> {
    x.disk.given + ReadRows(x.disk.queue, c)
  }

  // What the table holds once the queue is drained.
  ghost function TableOf(x: World<Cache, Row>, c: Codec<Row>): seq<Row> {
    Ingest.Kept(Due(x, c), KeyOf)
  }

  lemma DueIsHeld(x: World<Cache, Row>, c: Codec<Row>, r: Row)
    ensures r in Due(x, c) <==> r in Held(x.disk, c)
  {
  }

  lemma MakesSensible(parse: Parser)
    ensures MakesGood(ClaudeWatcher(parse), Sensible)
  {
    forall now, m, line, r | r in ClaudeWatcher(parse).onLine(now, m, line).1
      ensures Sensible(r)
    {
      match parse(line)
      case Some(s) => LineRowsAreSensible(m, TokenCharge.Seen(s, now));
      case None =>
    }
  }

  lemma TableIsSensible(plans: seq<Plan>, parse: Parser, c: Codec<Row>)
    requires c.Valid() && GrowingRun(plans, ClaudeWatcher(parse), c)
    ensures
      var table := TableOf(Run(plans, ClaudeWatcher(parse), c), c);
      && Ingest.DistinctKeys(table, KeyOf)
      && AllSensible(table)
      && (forall r :: r in table ==> r in Held(Run(plans, ClaudeWatcher(parse), c).disk, c))
  {
    hide GrowingRun, Held, ClaudeWatcher, Run, Sensible;
    var x := Run(plans, ClaudeWatcher(parse), c);
    MakesSensible(parse);
    AllHeldAreGood(plans, ClaudeWatcher(parse), c, Sensible);
    Ingest.KeptKeysAreDistinct(Due(x, c), KeyOf);
    forall r | r in TableOf(x, c)
      ensures r in Held(x.disk, c) && Sensible(r)
    {
      Ingest.KeptWasGiven(Due(x, c), KeyOf, r);
      DueIsHeld(x, c, r);
    }
  }

  // No row with tokens came after a different one with its key.
  ghost predicate NoneTaken(x: World<Cache, Row>, rows: seq<Row>, c: Codec<Row>) {
    forall r :: r in rows && r.tokens.Some? ==> !Ingest.Taken(Due(x, c), KeyOf, r)
  }

  // While no tick does harm, what the saved ticks charged a message all reaches the table
  // if and only if none of the keys was taken.
  lemma ChargesReachTheTable(plans: seq<Plan>, parse: Parser, c: Codec<Row>, id: string)
    requires c.Valid() && GrowingRun(plans, ClaudeWatcher(parse), c) && AlwaysHarmless(plans, ClaudeWatcher(parse), c)
    ensures
      var x := Run(plans, ClaudeWatcher(parse), c);
      var rows := RowsFor(WorldSteps(parse, x), id);
      PaidWithin(rows, TableOf(x, c)) <==> NoneTaken(x, rows, c)
  {
    var x := Run(plans, ClaudeWatcher(parse), c);
    SavedTicksChargeOnce(plans, parse, c, id);
    ForAmongAll(WorldSteps(parse, x), id);
    hide Run, ClaudeWatcher, GrowingRun, AlwaysHarmless, StepRows, WorldSteps, Held, LinesConsumed, AllPlaced, Due,
      RowsFor;
    var rows := RowsFor(WorldSteps(parse, x), id);
    forall r | r in rows
      ensures r in TableOf(x, c) <==> !Ingest.Taken(Due(x, c), KeyOf, r)
    {
      DueIsHeld(x, c, r);
      Ingest.KeptUnlessTaken(Due(x, c), KeyOf, r);
    }
  }

  lemma ForAmongAll(steps: seq<Step>, id: string)
    ensures forall r :: r in RowsFor(steps, id) ==> r in StepRows(steps)
  {
    var none: seq<Step> := [];
    MadeAmongAll(none, steps, id);
    assert none + steps == steps;
  }

  // ----- what unsaved ticks made for a message ------------------------------------------------

  // The accounting steps that a tick starts from.
  function StepsBefore(parse: Parser, x: World<Cache, Row>, p: Plan): seq<Step> {
    if p.stateReads then WorldSteps(parse, x) else WorldSteps(parse, x) + [TokenTheorems.Lost]
  }

  // The rows a tick makes of lines that report the message.
  function FindsFor(parse: Parser, x: World<Cache, Row>, p: Plan, id: string): seq<Row> {
    RowsMadeFor(StepsBefore(parse, x, p), ReadingSteps(parse, p.now, Readings(x, p)), id)
  }

  lemma FindsForIsFound(parse: Parser, x: World<Cache, Row>, p: Plan, id: string)
    requires x.disk.memory == Replay(ClaudeWatcher(parse), x.history).0
    ensures forall r :: r in FindsFor(parse, x, p, id) ==> r in Finds(x, p, ClaudeWatcher(parse))
  {
    var before, steps := StepsBefore(parse, x, p), ReadingSteps(parse, p.now, Readings(x, p));
    var w := ClaudeWatcher(parse);
    WorldIsSteps(parse, x);
    OneMoreStep(WorldSteps(parse, x), TokenTheorems.Lost);
    StartsEmpty(parse);
    ReadingsAreSteps(parse, before, p.now, Readings(x, p));
    MadeAmongAll(before, steps, id);
    hide TokenTheorems.After, StepRows, WorldSteps, ReadingSteps, ClaudeWatcher, Readings, WatchReadings, Replay;
    assert TokenTheorems.After(before) == MemoryRead(x.disk, p, w);
    assert StepRows(before + steps) == StepRows(before) + Finds(x, p, w);
    assert (StepRows(before) + Finds(x, p, w))[|StepRows(before)|..] == Finds(x, p, w);
  }

  // Over a run, those of the ticks that did not save their state.
  ghost function UnsavedFor(plans: seq<Plan>, parse: Parser, c: Codec<Row>, id: string): set<Row> {
    if plans == [] then {}
    else
      var init, last := plans[..|plans| - 1], plans[|plans| - 1];
      UnsavedFor(init, parse, c, id)
      + if Saves(last) then {} else Elements(FindsFor(parse, Run(init, ClaudeWatcher(parse), c), last, id))
  }

  // All rows that any tick of the run made for the message.
  ghost function MadeFor(plans: seq<Plan>, parse: Parser, c: Codec<Row>, id: string): set<Row> {
    Elements(RowsFor(WorldSteps(parse, Run(plans, ClaudeWatcher(parse), c)), id)) + UnsavedFor(plans, parse, c, id)
  }

  // What the table holds of them.
  ghost function TokensHeld(plans: seq<Plan>, parse: Parser, c: Codec<Row>, id: string): TokenCharge.Tokens {
    TokenTheorems.SumTokens(Among(TableOf(Run(plans, ClaudeWatcher(parse), c), c), MadeFor(plans, parse, c, id)))
  }

  // Each row with tokens that the table has of an unsaved tick was made by a saved one too.
  ghost predicate UnsavedAreMade(plans: seq<Plan>, parse: Parser, c: Codec<Row>, id: string) {
    var x := Run(plans, ClaudeWatcher(parse), c);
    forall r :: r in UnsavedFor(plans, parse, c, id) && r in TableOf(x, c) && r.tokens.Some? ==>
      r in RowsFor(WorldSteps(parse, x), id)
  }

  // After any run of ticks cut off anywhere, none of which does harm and no key of a
  // charge being taken. The table holds no less for a message than what the saved ticks
  // charged it on different rows, and exactly that if and only if the unsaved ticks added
  // nothing. If that is no less than the most it ever reported, it holds exactly the most
  // if and only if both are so. And in terms of the lines: when the message only grew on
  // lines with a row, and on no two alike, if and only if no counter of it came back
  // after it was forgotten, and the unsaved ticks added nothing.
  lemma CrashesChargeOnce(plans: seq<Plan>, parse: Parser, c: Codec<Row>, id: string)
    requires c.Valid() && GrowingRun(plans, ClaudeWatcher(parse), c) && AlwaysHarmless(plans, ClaudeWatcher(parse), c)
    requires
      var x := Run(plans, ClaudeWatcher(parse), c);
      NoneTaken(x, RowsFor(WorldSteps(parse, x), id), c)
    ensures
      var steps := WorldSteps(parse, Run(plans, ClaudeWatcher(parse), c));
      var peak, rows := TokenTheorems.Peak(steps, id).Total(), RowsFor(steps, id);
      var held, charged := TokensHeld(plans, parse, c, id), TokenTheorems.SumTokens(Once(rows));
      && AtMost(charged, held) && (held == charged <==> UnsavedAreMade(plans, parse, c, id))
      && (AtMost(peak, charged) ==> (held == peak <==> charged == peak && UnsavedAreMade(plans, parse, c, id)))
      && (TokenTheorems.AllGrowOnCarriers(steps, id) && PaysOnce(rows) ==>
            (held == peak <==>
               (forall k :: !TokenEvictions.ComesBack(steps, id, k)) && UnsavedAreMade(plans, parse, c, id)))
  {
    hide ClaudeWatcher, GrowingRun, AlwaysHarmless, NoneTaken, PaidWithin, Held, Run, WorldSteps, RowsFor, Once, Among;
    hide TokenTheorems.AllGrowOnCarriers, TokenEvictions.ComesBack, TokenTheorems.Peak, TableOf,
      TokenTheorems.SumTokens;
    hide AtMost, PaysOnce, AllSensible, UnsavedFor;
    var x := Run(plans, ClaudeWatcher(parse), c);
    ChargesReachTheTable(plans, parse, c, id);
    TableIsSensible(plans, parse, c);
    TableHoldsThePeak(WorldSteps(parse, x), TableOf(x, c), MadeFor(plans, parse, c, id), id);
    NoneElseIsUnsaved(plans, parse, c, id);
  }

  lemma NoneElseIsUnsaved(plans: seq<Plan>, parse: Parser, c: Codec<Row>, id: string)
    ensures
      var x := Run(plans, ClaudeWatcher(parse), c);
      NoneElse(TableOf(x, c), MadeFor(plans, parse, c, id), RowsFor(WorldSteps(parse, x), id)) <==>
      UnsavedAreMade(plans, parse, c, id)
  {
  }
}
