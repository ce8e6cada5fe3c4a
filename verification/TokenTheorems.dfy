// What the accounting adds up to over any number of runs: each message is charged,
// in all, the most it ever reported.
module TokenTheorems {
  import opened Wrappers
  import opened TokenCharge

  // A run is its lines followed by one trim. A state that cannot be read is lost with
  // the cache in it.
  datatype Step = Line(line: SessionLine) | Trim | Lost

  function Apply(cache: Cache, step: Step): Cache {
    match step
    case Line(line) => Record(cache, line)
    case Trim => Trimmed(cache)
    case Lost => EMPTY_CACHE
  }

  function After(steps: seq<Step>): Cache {
    if steps == [] then EMPTY_CACHE else Apply(After(steps[..|steps| - 1]), steps[|steps| - 1])
  }

  predicate Reports(step: Step, id: string) {
    step.Line? && step.line.recent && step.line.report.Some? && step.line.report.value.id == Some(id)
  }

  datatype Counter = Input | CacheWrite | CacheRead | Output

  function Get(u: Usage, k: Counter): int {
    match k
    case Input => u.input
    case CacheWrite => u.cacheWrite
    case CacheRead => u.cacheRead
    case Output => u.output
  }

  // The most that the steps ever reported for a message, at least zero.
  function Peak(steps: seq<Step>, id: string): Usage {
    if steps == [] then NO_USAGE
    else
      var before, step := Peak(steps[..|steps| - 1], id), steps[|steps| - 1];
      if Reports(step, id) then step.line.report.value.counts.Max(before) else before
  }

  // All that was charged for a message.
  function Charged(steps: seq<Step>, id: string): Usage {
    if steps == [] then NO_USAGE
    else
      var init, step := steps[..|steps| - 1], steps[|steps| - 1];
      if Reports(step, id) then Charged(init, id).Plus(Charge(After(init), step.line)) else Charged(init, id)
  }

  function SumTokens(rows: seq<Row>): Tokens {
    if rows == [] then NO_TOKENS
    else
      var before, row := SumTokens(rows[..|rows| - 1]), rows[|rows| - 1];
      if row.tokens.Some? then before.Plus(row.tokens.value) else before
  }

  // All that the rows of a message's lines carry.
  function Emitted(steps: seq<Step>, id: string): Tokens {
    if steps == [] then NO_TOKENS
    else
      var init, step := steps[..|steps| - 1], steps[|steps| - 1];
      if Reports(step, id) then Emitted(init, id).Plus(SumTokens(LineRows(After(init), step.line)))
        else Emitted(init, id)
  }

  ghost predicate UsesAFile(blocks: seq<Block>) {
    exists i :: 0 <= i < |blocks| && blocks[i].ToolUse? && blocks[i].path.Some?
  }

  // Lines whose rows have room for tokens: not a prompt, and the agent's or a file's.
  ghost predicate Carries(line: SessionLine) {
    && !IsHumanPrompt(line)
    && (line.author != ByOther || (line.content.Blocks? && UsesAFile(line.content.blocks)))
  }

  // What was charged on lines that no row carries.
  ghost function Missed(steps: seq<Step>, id: string): Tokens {
    if steps == [] then NO_TOKENS
    else
      var init, step := steps[..|steps| - 1], steps[|steps| - 1];
      if Reports(step, id) && !Carries(step.line) then Missed(init, id).Plus(Charge(After(init), step.line).Total())
      else Missed(init, id)
  }

  ghost predicate Evicts(steps: seq<Step>, id: string) {
    exists i :: 0 <= i < |steps| && id in After(steps[..i]).peaks && id !in After(steps[..i + 1]).peaks
  }

  // ----- charges telescope ---------------------------------------------------------------

  lemma {:induction false} CacheStaysValid(steps: seq<Step>)
    ensures After(steps).Valid()
  {
    if steps != [] {
      CacheStaysValid(steps[..|steps| - 1]);
      RecordOrTrimValid(After(steps[..|steps| - 1]), steps[|steps| - 1]);
    }
  }

  lemma RecordOrTrimValid(cache: Cache, step: Step)
    requires cache.Valid()
    ensures Apply(cache, step).Valid()
  {
    match step
    case Line(line) => RecordValid(cache, line);
    case Trim => TrimmedValid(cache);
    case Lost =>
  }

  lemma EvictsEarlier(steps: seq<Step>, id: string)
    requires steps != [] && !Evicts(steps, id)
    ensures !Evicts(steps[..|steps| - 1], id)
    ensures id in After(steps[..|steps| - 1]).peaks ==> id in After(steps).peaks
  {
    var init := steps[..|steps| - 1];
    assert forall i :: 0 <= i <= |init| ==> init[..i] == steps[..i];
    assert steps[..|steps|] == steps;
  }

  // A message that is never evicted is charged, in all, the most it ever reported,
  // whatever the order, the repeats and the reports that shrink.
  lemma {:induction false} ChargesTelescope(steps: seq<Step>, id: string)
    requires !Evicts(steps, id)
    ensures Charged(steps, id) == Peak(steps, id)
    ensures Previous(After(steps), Some(id)) == Peak(steps, id)
  {
    if steps != [] {
      EvictsEarlier(steps, id);
      ChargesTelescope(steps[..|steps| - 1], id);
    }
  }

  // Evicted or not, it is never charged less; what the cache remembers is never more.
  lemma {:induction false} NeverUndercharged(steps: seq<Step>, id: string)
    ensures Peak(steps, id).AtMost(Charged(steps, id))
    ensures Previous(After(steps), Some(id)).AtMost(Peak(steps, id))
    ensures NO_USAGE.AtMost(Previous(After(steps), Some(id)))
  {
    if steps != [] {
      NeverUndercharged(steps[..|steps| - 1], id);
    }
  }

  // Every report is at most the peak, and the peak is zero or some report, counter
  // by counter.
  lemma {:induction false} PeakIsTheMaximum(steps: seq<Step>, id: string, k: Counter)
    ensures forall i :: 0 <= i < |steps| && Reports(steps[i], id) ==>
      Get(steps[i].line.report.value.counts, k) <= Get(Peak(steps, id), k)
    ensures Get(Peak(steps, id), k) == 0 || exists i :: 0 <= i < |steps| && Attains(steps[i], id, k, Peak(steps, id))
  {
    if steps != [] {
      var init := steps[..|steps| - 1];
      PeakIsTheMaximum(init, id, k);
      assert forall i :: 0 <= i < |init| ==> init[i] == steps[i];
      assert Attains(steps[|steps| - 1], id, k, Peak(steps, id)) || Get(Peak(steps, id), k) == Get(Peak(init, id), k);
    }
  }

  ghost predicate Attains(step: Step, id: string, k: Counter, peak: Usage) {
    Reports(step, id) && Get(step.line.report.value.counts, k) == Get(peak, k)
  }

  // ----- eviction ------------------------------------------------------------------------------

  // A report never moves an earlier key: keys stand in the order of insertion.
  lemma RecordAppends(cache: Cache, line: SessionLine)
    requires cache.Valid()
    ensures cache.order <= Record(cache, line).order
    ensures forall k :: k in cache.peaks ==> k in Record(cache, line).peaks
  {
  }

  // A trim evicts only keys inserted before every key it keeps, keeps their counters,
  // and evicts none while the cache is within the cap.
  lemma TrimEvictsTheEarliest(cache: Cache)
    requires cache.Valid()
    ensures |Trimmed(cache).order| <= USAGE_BY_ID_CAP
    ensures |cache.order| <= USAGE_BY_ID_CAP ==> Trimmed(cache) == cache
    ensures forall i, j :: 0 <= i < |cache.order| && 0 <= j < |cache.order| ==>
                             cache.order[i] !in Trimmed(cache).peaks && cache.order[j] in Trimmed(cache).peaks ==> i < j
    ensures forall k :: k in Trimmed(cache).peaks ==> k in cache.peaks && Trimmed(cache).peaks[k] == cache.peaks[k]
    ensures |cache.order| >= USAGE_BY_ID_CAP ==> |Trimmed(cache).order| == USAGE_BY_ID_CAP
  {
    var n := |cache.order| - USAGE_BY_ID_CAP;
    if n > 0 {
      var kept := cache.order[n..];
      forall j | 0 <= j < |cache.order|
        ensures cache.order[j] in kept <==> n <= j
      {
        if n <= j {
          assert kept[j - n] == cache.order[j];
        } else {
          assert forall i :: 0 <= i < |kept| ==> kept[i] == cache.order[n + i];
        }
      }
    }
  }

  function Ids(steps: seq<Step>): set<string> {
    set i | 0 <= i < |steps| && steps[i].Line? && steps[i].line.report.Some? && steps[i].line.report.value.id.Some?
      :: steps[i].line.report.value.id.value
  }

  lemma {:induction false} CachedIdsWereReported(steps: seq<Step>)
    ensures forall k :: k in After(steps).peaks ==> k in Ids(steps)
  {
    if steps != [] {
      var init := steps[..|steps| - 1];
      CachedIdsWereReported(init);
      assert Ids(init) <= Ids(steps) by {
        forall k | k in Ids(init)
          ensures k in Ids(steps)
        {
          var i :| 0 <= i < |init| && init[i].Line? && init[i].line.report.Some? &&
            init[i].line.report.value.id == Some(k);
          assert steps[i] == init[i];
        }
      }
      assert steps[|steps| - 1].Line? ==> After(steps) == Record(After(init), steps[|steps| - 1].line);
    }
  }

  lemma {:induction false} DistinctFit(s: seq<string>, within: set<string>)
    requires NoDuplicates(s) && forall k :: k in s ==> k in within
    ensures |s| <= |within|
  {
    if s != [] {
      var init, last := s[..|s| - 1], s[|s| - 1];
      assert forall i :: 0 <= i < |init| ==> init[i] == s[i];
      DistinctFit(init, within - {last});
    }
  }

  // While no more distinct ids are reported than the cap, and the state is not lost,
  // none is ever evicted.
  lemma FewIdsAreNeverEvicted(steps: seq<Step>, id: string)
    requires |Ids(steps)| <= USAGE_BY_ID_CAP && Lost !in steps
    ensures !Evicts(steps, id)
  {
    forall i | 0 <= i < |steps| && id in After(steps[..i]).peaks
      ensures id in After(steps[..i + 1]).peaks
    {
      var init, cache := steps[..i], After(steps[..i]);
      assert steps[..i + 1][..i] == init;
      CacheStaysValid(init);
      CachedIdsWereReported(init);
      FewerIds(steps, i);
      DistinctFit(cache.order, Ids(init));
    }
  }

  lemma FewerIds(steps: seq<Step>, i: nat)
    requires i <= |steps|
    ensures |Ids(steps[..i])| <= |Ids(steps)|
  {
    var init := steps[..i];
    forall k | k in Ids(init)
      ensures k in Ids(steps)
    {
      var j :| 0 <= j < |init| && init[j].Line? && init[j].line.report.Some? && init[j].line.report.value.id == Some(k);
      assert steps[j] == init[j];
    }
    SubsetSize(Ids(init), Ids(steps));
  }

  lemma {:induction false} SubsetSize(a: set<string>, b: set<string>)
    requires a <= b
    ensures |a| <= |b|
  {
    if a != {} {
      var x :| x in a;
      SubsetSize(a - {x}, b - {x});
    }
  }

  // ----- where the charges go --------------------------------------------------------------------

  lemma {:induction false} FileRowsCarryOnce(line: SessionLine, blocks: seq<Block>, tokens: Option<Tokens>)
    ensures FileRows(line, blocks, tokens) != [] <==> UsesAFile(blocks)
    ensures SumTokens(FileRows(line, blocks, tokens)) ==
      if UsesAFile(blocks) && tokens.Some? then tokens.value else NO_TOKENS
  {
    if blocks != [] {
      var init, last := blocks[..|blocks| - 1], blocks[|blocks| - 1];
      FileRowsCarryOnce(line, init, tokens);
      assert forall i :: 0 <= i < |init| ==> init[i] == blocks[i];
      assert UsesAFile(blocks) <==> UsesAFile(init) || (last.ToolUse? && last.path.Some?);
      if last.ToolUse? && last.path.Some? {
        var rows := FileRows(line, blocks, tokens);
        assert rows[..|rows| - 1] == FileRows(line, init, tokens);
      }
    }
  }

  lemma OneRow(row: Row)
    ensures SumTokens([row]) == if row.tokens.Some? then row.tokens.value else NO_TOKENS
  {
    assert [row][..0] == [];
  }

  // A line's rows carry its charge once, or not at all.
  lemma RowsCarryOnce(line: SessionLine, tokens: Option<Tokens>)
    ensures SumTokens(RowsOf(line, tokens)) == if Carries(line) && tokens.Some? then tokens.value else NO_TOKENS
  {
    OneRow(MakeRow(line, line.cwd, Human, None));
    OneRow(MakeRow(line, line.cwd, Machine, tokens));
    if !IsHumanPrompt(line) && line.content.Blocks? {
      FileRowsCarryOnce(line, line.content.blocks, tokens);
    }
  }

  lemma LineCarries(cache: Cache, line: SessionLine)
    requires line.recent
    ensures SumTokens(LineRows(cache, line)) == if Carries(line) then Charge(cache, line).Total() else NO_TOKENS
  {
    var charge := Charge(cache, line);
    RowsCarryOnce(line, if charge.AnyPositive() then Some(charge.Total()) else None);
  }

  // Every charge is on exactly one row, or is missed.
  lemma {:induction false} EmittedOrMissed(steps: seq<Step>, id: string)
    ensures Emitted(steps, id).Plus(Missed(steps, id)) == Charged(steps, id).Total()
  {
    hide After, LineRows, Charge, Carries, Usage.Total, Usage.Plus, Tokens.Plus;
    if steps == [] {
      NothingPlus(NO_USAGE, NO_TOKENS);
    } else {
      var init, step := steps[..|steps| - 1], steps[|steps| - 1];
      EmittedOrMissed(init, id);
      if Reports(step, id) {
        var charge := Charge(After(init), step.line);
        LineCarries(After(init), step.line);
        TotalPlus(Charged(init, id), charge);
        PlusOneMore(Emitted(init, id), Missed(init, id), charge.Total());
      }
    }
  }

  lemma TotalPlus(u: Usage, v: Usage)
    ensures u.Plus(v).Total() == u.Total().Plus(v.Total())
  {
  }

  lemma PlusOneMore(a: Tokens, b: Tokens, c: Tokens)
    ensures a.Plus(c).Plus(b) == a.Plus(b).Plus(c) && a.Plus(b.Plus(c)) == a.Plus(b).Plus(c)
    ensures a.Plus(NO_TOKENS) == a
  {
  }

  ghost predicate GrowsOnACarrier(steps: seq<Step>, id: string, i: nat)
    requires i < |steps|
  {
    Reports(steps[i], id) && !Carries(steps[i].line) ==> !Charge(After(steps[..i]), steps[i].line).AnyPositive()
  }

  ghost predicate AllGrowOnCarriers(steps: seq<Step>, id: string) {
    forall i :: 0 <= i < |steps| ==> GrowsOnACarrier(steps, id, i)
  }

  lemma CarriersSoFar(steps: seq<Step>, id: string)
    requires steps != []
    ensures AllGrowOnCarriers(steps, id)
       <==> AllGrowOnCarriers(steps[..|steps| - 1], id) && GrowsOnACarrier(steps, id, |steps| - 1)
  {
    var init := steps[..|steps| - 1];
    forall i | 0 <= i < |init|
      ensures GrowsOnACarrier(init, id, i) == GrowsOnACarrier(steps, id, i)
    {
      assert init[..i] == steps[..i] && init[i] == steps[i];
    }
  }

  lemma ChargeIsNotNegative(cache: Cache, line: SessionLine)
    ensures Charge(cache, line).Total().into >= 0 && Charge(cache, line).Total().out >= 0
    ensures Charge(cache, line).Total() == NO_TOKENS <==> !Charge(cache, line).AnyPositive()
  {
  }

  lemma MissedMore(before: Tokens, charge: Tokens, counts: bool)
    requires before.into >= 0 && before.out >= 0 && charge.into >= 0 && charge.out >= 0
    ensures
      var after := if counts then before.Plus(charge) else before;
      && after.into >= 0 && after.out >= 0
      && (after == NO_TOKENS <==> before == NO_TOKENS && (counts ==> charge == NO_TOKENS))
  {
  }

  ghost predicate MissesNothing(steps: seq<Step>, id: string) {
    && Missed(steps, id).into >= 0 && Missed(steps, id).out >= 0
    && (Missed(steps, id) == NO_TOKENS <==> AllGrowOnCarriers(steps, id))
  }

  lemma MissedStep(steps: seq<Step>, id: string)
    requires steps != [] && MissesNothing(steps[..|steps| - 1], id)
    ensures MissesNothing(steps, id)
  {
    var init, step := steps[..|steps| - 1], steps[|steps| - 1];
    CarriersSoFar(steps, id);
    if Reports(step, id) {
      var charge := Charge(After(init), step.line);
      ChargeIsNotNegative(After(init), step.line);
      MissedMore(Missed(init, id), charge.Total(), !Carries(step.line));
      hide Charge, After, Carries, AllGrowOnCarriers;
    }
  }

  lemma {:induction false} MissedNothing(steps: seq<Step>, id: string)
    ensures MissesNothing(steps, id)
  {
    if steps != [] {
      MissedNothing(steps[..|steps| - 1], id);
      MissedStep(steps, id);
    }
  }

  // A message's rows add up to the most it ever reported exactly when its counters
  // only grew on lines that have a row to carry them.
  lemma RowsAddUpToThePeak(steps: seq<Step>, id: string)
    requires !Evicts(steps, id)
    ensures Emitted(steps, id) == Peak(steps, id).Total() <==> AllGrowOnCarriers(steps, id)
  {
    ChargesTelescope(steps, id);
    EmittedOrMissed(steps, id);
    MissedNothing(steps, id);
  }

  lemma OneMoreReport(init: seq<Step>, step: Step, id: string, charge: Usage, cache: Cache)
    requires Reports(step, id) && charge == Charge(After(init), step.line) && cache == Record(After(init), step.line)
    ensures After(init + [step]) == cache
    ensures Charged(init + [step], id) == Charged(init, id).Plus(charge)
    ensures Emitted(init + [step], id) ==
      Emitted(init, id).Plus(if Carries(step.line) then charge.Total() else NO_TOKENS)
  {
    assert (init + [step])[..|init|] == init;
    LineCarries(After(init), step.line);
  }

  function Reporting(author: Author, id: string, counts: Usage): Step {
    Line(SessionLine(true, 0, "", "", "", author, false, NoContent, Some(Report(Some(id), counts))))
  }

  lemma ChargeOnce(cache: Cache, author: Author, id: string, counts: Usage)
    requires NO_USAGE.AtMost(counts) && Previous(cache, Some(id)) in {NO_USAGE, counts}
    ensures
      var line := Reporting(author, id, counts).line;
      && Charge(cache, line) == (if Previous(cache, Some(id)) == counts then NO_USAGE else counts)
      && Previous(Record(cache, line), Some(id)) == counts
      && (Carries(line) <==> author != ByOther)
  {
  }

  // The other case is real: after any history that has not seen the message, a line
  // that is neither the user's nor the assistant's, and uses no file, takes the
  // message's tokens with it; the assistant's next report is charged none.
  lemma SystemLineSwallowsTokens(before: seq<Step>, id: string, counts: Usage) returns (first: Step, again: Step)
    requires counts.AnyPositive() && NO_USAGE.AtMost(counts) && id !in After(before).peaks
    ensures first == Reporting(ByOther, id, counts) && again == Reporting(ByAssistant, id, counts)
    ensures Charged(before + [first] + [again], id) == Charged(before, id).Plus(counts)
    ensures Emitted(before + [first] + [again], id) == Emitted(before, id)
  {
    hide After, Charge, Record, Charged, Emitted, Carries, Usage.Plus, Tokens.Plus, Usage.Total, Usage.AtMost;
    hide Usage.AnyPositive;
    first, again := Reporting(ByOther, id, counts), Reporting(ByAssistant, id, counts);
    var cache := Record(After(before), first.line);
    ChargeOnce(After(before), ByOther, id, counts);
    ChargeOnce(cache, ByAssistant, id, counts);
    OneMoreReport(before, first, id, counts, cache);
    OneMoreReport(before + [first], again, id, NO_USAGE, Record(cache, again.line));
    NothingPlus(Charged(before, id).Plus(counts), Emitted(before, id));
  }

  lemma NothingPlus(u: Usage, t: Tokens)
    ensures u.Plus(NO_USAGE) == u && t.Plus(NO_TOKENS) == t && NO_USAGE.Total() == NO_TOKENS
  {
  }

  // A report without an id is charged in full each time, and remembered by no one.
  lemma AnonymousReportsChargeInFull(cache: Cache, line: SessionLine)
    requires line.recent && line.report.Some? && line.report.value.id.None?
    ensures Charge(cache, line) == line.report.value.counts.Max(NO_USAGE) && Record(cache, line) == cache
  {
  }

  // ----- runs are steps ---------------------------------------------------------------------------

  function StepsOf(lines: seq<SessionLine>): seq<Step> {
    seq(|lines|, i requires 0 <= i < |lines| => Line(lines[i]))
  }

  // What a run of the watcher leaves is what its lines and the trim leave.
  lemma {:induction false} RunIsItsSteps(before: seq<Step>, lines: seq<SessionLine>)
    ensures ReadLines(After(before), lines).0 == After(before + StepsOf(lines))
    ensures Trimmed(ReadLines(After(before), lines).0) == After(before + StepsOf(lines) + [Trim])
  {
    var steps := before + StepsOf(lines);
    hide After, Record, Trimmed;
    if lines == [] {
      assert steps == before;
    } else {
      var init, last := lines[..|lines| - 1], lines[|lines| - 1];
      assert steps == before + StepsOf(init) + [Line(last)];
      RunIsItsSteps(before, init);
      OneMore(before + StepsOf(init), Line(last));
    }
    OneMore(steps, Trim);
  }

  lemma OneMore(steps: seq<Step>, step: Step)
    ensures After(steps + [step]) == Apply(After(steps), step)
  {
    assert (steps + [step])[..|steps|] == steps;
  }

  // ----- what a row says -----------------------------------------------------------------------

  // The files that the tools of a line used, in order.
  function FilesUsed(content: Content): seq<string> {
    match content
    case Blocks(blocks) => FilesOf(blocks)
    case _ => []
  }

  function FilesOf(blocks: seq<Block>): seq<string> {
    if blocks == [] then []
    else
      FilesOf(blocks[..|blocks| - 1]) +
      match blocks[|blocks| - 1]
      case ToolUse(Some(path)) => [path]
      case _ => []
  }

  // These rows are at the line's time and place, of these entities, and by this actor; the
  // tokens are on the first.
  ghost predicate RowsAre(rows: seq<Row>, line: SessionLine, entities: seq<string>, actor: Actor,
                          tokens: Option<Tokens>) {
    && |rows| == |entities|
    && forall i :: 0 <= i < |rows| ==>
         && rows[i].key.time == line.time && rows[i].key.source == line.source && rows[i].key.project == line.project
         && rows[i].key.entity == entities[i] && rows[i].key.actor == actor
         && rows[i].tokens == if i == 0 then tokens else None
  }

  lemma {:induction false} FileRowsAre(line: SessionLine, blocks: seq<Block>, tokens: Option<Tokens>)
    ensures RowsAre(FileRows(line, blocks, tokens), line, FilesOf(blocks), Machine, tokens)
  {
    if blocks != [] {
      FileRowsAre(line, blocks[..|blocks| - 1], tokens);
    }
  }

  // A prompt is one row of the human's without tokens. Any other line is a row of the
  // machine's for each file it used, or one for its directory if it used none and is the
  // user's or the assistant's; the first has the tokens.
  lemma LinesTell(line: SessionLine, tokens: Option<Tokens>)
    ensures
      var rows, files := RowsOf(line, tokens), FilesUsed(line.content);
      var typed := line.content.PlainText? ||
        (line.content.Blocks? && TextBlock in line.content.blocks && ToolResult !in line.content.blocks);
      if line.author == ByUser && !line.sidechain && typed then RowsAre(rows, line, [line.cwd], Human, None)
      else if files != [] then RowsAre(rows, line, files, Machine, tokens)
      else if line.author != ByOther then RowsAre(rows, line, [line.cwd], Machine, tokens)
      else rows == []
  {
    if line.content.Blocks? {
      FileRowsAre(line, line.content.blocks, tokens);
    }
  }

  // What a row charges: input and both cache counters on the one side, output on the
  // other, as far as each is above what was known of the message.
  lemma RowsChargeTheGrowth(cache: Cache, line: SessionLine, r: Row)
    requires r in LineRows(cache, line) && r.tokens.Some?
    ensures
      && line.recent && line.report.Some?
      && var now, known := line.report.value.counts, Previous(cache, line.report.value.id);
         && r.tokens.value.into == Larger(now.input, known.input) - known.input
              + (Larger(now.cacheWrite, known.cacheWrite) - known.cacheWrite)
              + (Larger(now.cacheRead, known.cacheRead) - known.cacheRead)
         && r.tokens.value.out == Larger(now.output, known.output) - known.output
  {
    var charge := Charge(cache, line);
    var tokens := if charge.AnyPositive() then Some(charge.Total()) else None;
    LinesTell(line, tokens);
    assert r in RowsOf(line, tokens);
    hide RowsOf, IsHumanPrompt, FilesUsed;
  }
}
