// How many of a message's tokens the server's table holds: exactly when it is the most
// the message ever reported.
module TokenStore {
  import opened Wrappers
  import opened TokenCharge
  import opened TokenTheorems
  import opened TokenEvictions
  import opened Ingest

  function KeyOf(row: Row): Key {
    row.key
  }

  // The rows that the lines among the steps give.
  function StepRows(steps: seq<Step>): seq<Row> {
    if steps == [] then []
    else
      var init, last := steps[..|steps| - 1], steps[|steps| - 1];
      StepRows(init) + if last.Line? then LineRows(After(init), last.line) else []
  }

  // Those that further steps give for lines that report a message.
  function RowsMadeFor(before: seq<Step>, steps: seq<Step>, id: string): seq<Row> {
    if steps == [] then []
    else
      var init, last := steps[..|steps| - 1], steps[|steps| - 1];
      RowsMadeFor(before, init, id) + if Reports(last, id) then LineRows(After(before + init), last.line) else []
  }

  function RowsFor(steps: seq<Step>, id: string): seq<Row> {
    RowsMadeFor([], steps, id)
  }

  // ----- the rows of the steps -----------------------------------------------------------

  lemma {:induction false} SumConcat(a: seq<Row>, b: seq<Row>)
    ensures SumTokens(a + b) == SumTokens(a).Plus(SumTokens(b))
  {
    hide Tokens.Plus;
    if b == [] {
      assert a + b == a;
      PlusOneMore(SumTokens(a), NO_TOKENS, NO_TOKENS);
    } else {
      var init, last := b[..|b| - 1], b[|b| - 1];
      assert (a + b)[..|a + b| - 1] == a + init;
      SumConcat(a, init);
      if last.tokens.Some? {
        PlusOneMore(SumTokens(a), SumTokens(init), last.tokens.value);
      }
    }
  }

  // What the rows made for a message hold is what its lines emitted.
  lemma {:induction false} RowsHoldTheEmitted(steps: seq<Step>, id: string)
    ensures SumTokens(RowsFor(steps, id)) == Emitted(steps, id)
  {
    hide After, LineRows;
    if steps != [] {
      var init, last := steps[..|steps| - 1], steps[|steps| - 1];
      RowsHoldTheEmitted(init, id);
      assert [] + init == init;
      if Reports(last, id) {
        SumConcat(RowsFor(init, id), LineRows(After(init), last.line));
      } else {
        assert RowsFor(init, id) + [] == RowsFor(init, id);
      }
    }
  }

  // They are among the rows of all lines.
  lemma {:induction false} MadeAmongAll(before: seq<Step>, steps: seq<Step>, id: string)
    ensures StepRows(before) <= StepRows(before + steps)
    ensures forall r :: r in RowsMadeFor(before, steps, id) ==> r in StepRows(before + steps)[|StepRows(before)|..]
  {
    hide After, LineRows;
    if steps == [] {
      assert before + steps == before;
    } else {
      var init, last := steps[..|steps| - 1], steps[|steps| - 1];
      MadeAmongAll(before, init, id);
      assert (before + steps)[..|before + steps| - 1] == before + init;
      var all := StepRows(before + init);
      var more := if last.Line? then LineRows(After(before + init), last.line) else [];
      assert StepRows(before + steps) == all + more;
      assert (all + more)[|StepRows(before)|..] == all[|StepRows(before)|..] + more;
    }
  }

  // A row's tokens are never negative, nor none at all.
  predicate Sensible(row: Row) {
    row.tokens.Some? ==>
      row.tokens.value.into >= 0 && row.tokens.value.out >= 0 && row.tokens.value != NO_TOKENS
  }

  ghost predicate AllSensible(rows: seq<Row>) {
    forall r :: r in rows ==> Sensible(r)
  }

  lemma {:induction false} FileRowsAreSensible(line: SessionLine, blocks: seq<Block>, tokens: Option<Tokens>)
    requires Sensible(MakeRow(line, "", Machine, tokens))
    ensures AllSensible(FileRows(line, blocks, tokens))
  {
    if blocks != [] {
      FileRowsAreSensible(line, blocks[..|blocks| - 1], tokens);
    }
  }

  lemma RowsAreSensible(line: SessionLine, tokens: Option<Tokens>)
    requires Sensible(MakeRow(line, "", Machine, tokens))
    ensures AllSensible(RowsOf(line, tokens))
  {
    hide IsHumanPrompt;
    if line.content.Blocks? {
      FileRowsAreSensible(line, line.content.blocks, tokens);
    }
  }

  lemma LineRowsAreSensible(cache: Cache, line: SessionLine)
    ensures AllSensible(LineRows(cache, line))
  {
    hide RowsOf, Charge;
    if line.recent {
      var charge := Charge(cache, line);
      ChargeIsNotNegative(cache, line);
      RowsAreSensible(line, if charge.AnyPositive() then Some(charge.Total()) else None);
    }
  }

  // ----- sums over rows that are told apart -------------------------------------------------

  // No two of the rows with tokens are the same.
  ghost predicate PaysOnce(rows: seq<Row>) {
    forall i, j :: 0 <= i < j < |rows| && rows[i].tokens.Some? ==> rows[i] != rows[j]
  }

  ghost predicate AtMost(a: Tokens, b: Tokens) {
    a.into <= b.into && a.out <= b.out
  }

  // Every row of the one with tokens is in the other.
  ghost predicate PaidWithin(a: seq<Row>, b: seq<Row>) {
    forall r :: r in a && r.tokens.Some? ==> r in b
  }

  lemma SumSnoc(rows: seq<Row>, row: Row)
    ensures SumTokens(rows + [row]) == if row.tokens.Some? then SumTokens(rows).Plus(row.tokens.value)
      else SumTokens(rows)
  {
    assert (rows + [row])[..|rows|] == rows;
  }

  lemma {:induction false} SumIsSensible(rows: seq<Row>)
    requires AllSensible(rows)
    ensures AtMost(NO_TOKENS, SumTokens(rows))
    ensures SumTokens(rows) == NO_TOKENS <==> forall r :: r in rows ==> r.tokens.None?
  {
    if rows != [] {
      var init, last := rows[..|rows| - 1], rows[|rows| - 1];
      assert forall r :: r in rows <==> r in init || r == last;
      SumIsSensible(init);
      assert last in rows && Sensible(last);
    }
  }

  lemma SumWithout(rows: seq<Row>, i: nat)
    requires i < |rows| && rows[i].tokens.Some?
    ensures SumTokens(rows) == SumTokens(rows[..i] + rows[i + 1..]).Plus(rows[i].tokens.value)
  {
    hide SumTokens, Tokens.Plus;
    var a, b := rows[..i], rows[i + 1..];
    assert rows == (a + [rows[i]]) + b;
    SumConcat(a + [rows[i]], b);
    SumConcat(a, b);
    SumSnoc(a, rows[i]);
    PlusOneMore(SumTokens(a), SumTokens(b), rows[i].tokens.value);
  }

  lemma AtMostPlus(a: Tokens, b: Tokens, c: Tokens)
    ensures AtMost(a.Plus(c), b.Plus(c)) <==> AtMost(a, b)
    ensures a.Plus(c) == b.Plus(c) <==> a == b
  {
  }

  // A list that holds all rows of another that have tokens holds at least as much, and
  // exactly as much if and only if it has no further one.
  lemma {:induction false} SumWithin(d: seq<Row>, k: seq<Row>)
    requires PaysOnce(d) && PaysOnce(k) && PaidWithin(d, k) && AllSensible(k)
    ensures AtMost(SumTokens(d), SumTokens(k))
    ensures SumTokens(d) == SumTokens(k) <==> PaidWithin(k, d)
    decreases |d|
  {
    hide Sensible, Tokens.Plus, AtMost;
    if d == [] {
      SumIsSensible(k);
    } else {
      var init, last := d[..|d| - 1], d[|d| - 1];
      assert forall r :: r in d <==> r in init || r == last;
      assert forall i :: 0 <= i < |init| ==> init[i] == d[i];
      if last.tokens.Some? {
        var i := PlaceOf(k, last);
        var k' := k[..i] + k[i + 1..];
        SumWithout(k, i);
        OneOut(k, i);
        LastOut(d, k, i);
        SumWithin(init, k');
        AtMostPlus(SumTokens(init), SumTokens(k'), last.tokens.value);
      } else {
        SumWithin(init, k);
      }
    }
  }

  lemma PlaceOf(k: seq<Row>, r: Row) returns (i: nat)
    requires r in k
    ensures i < |k| && k[i] == r
  {
    i :| 0 <= i < |k| && k[i] == r;
  }

  lemma OneOut(k: seq<Row>, i: nat)
    requires i < |k| && PaysOnce(k) && k[i].tokens.Some?
    ensures
      var k' := k[..i] + k[i + 1..];
      && PaysOnce(k') && k[i] !in k' && forall r :: r in k <==> r in k' || r == k[i]
  {
    Without(k, i);
  }

  lemma Without<T>(k: seq<T>, i: nat)
    requires i < |k|
    ensures
      var k' := k[..i] + k[i + 1..];
      && |k'| == |k| - 1
      && (forall j :: 0 <= j < |k'| ==> k'[j] == k[if j < i then j else j + 1])
      && (forall r :: r in k <==> r in k' || r == k[i])
  {
    var k' := k[..i] + k[i + 1..];
    assert forall j :: 0 <= j < |k| && j != i ==> k[j] == k'[if j < i then j else j - 1];
  }

  lemma LastOut(d: seq<Row>, k: seq<Row>, i: nat)
    requires d != [] && i < |k| && k[i] == d[|d| - 1] && k[i].tokens.Some? && PaysOnce(k) && PaysOnce(d)
    ensures PaidWithin(d, k) <==> PaidWithin(d[..|d| - 1], k[..i] + k[i + 1..])
    ensures PaidWithin(k, d) <==> PaidWithin(k[..i] + k[i + 1..], d[..|d| - 1])
  {
    OneOut(k, i);
    var init := d[..|d| - 1];
    assert forall r :: r in d <==> r in init || r == k[i];
    FirstTime(d);
  }

  // ----- each row once ----------------------------------------------------------------------

  function Once(rows: seq<Row>): seq<Row> {
    if rows == [] then []
    else
      var before, last := Once(rows[..|rows| - 1]), rows[|rows| - 1];
      if last in before then before else before + [last]
  }

  lemma {:induction false} OnceHasAll(rows: seq<Row>)
    ensures forall r :: r in Once(rows) <==> r in rows
    ensures PaysOnce(Once(rows))
    ensures PaysOnce(rows) ==> SumTokens(Once(rows)) == SumTokens(rows)
  {
    if rows != [] {
      var init, last := rows[..|rows| - 1], rows[|rows| - 1];
      assert forall r :: r in rows <==> r in init || r == last;
      OnceHasAll(init);
      var before := Once(init);
      if last in before {
        OnceAgain(rows);
      } else {
        SumSnoc(before, last);
        assert forall i :: 0 <= i < |init| ==> init[i] == rows[i];
      }
    }
  }

  lemma OnceAgain(rows: seq<Row>)
    requires rows != [] && rows[|rows| - 1] in rows[..|rows| - 1]
    ensures PaysOnce(rows) ==> PaysOnce(rows[..|rows| - 1]) && rows[|rows| - 1].tokens.None?
  {
    var init := rows[..|rows| - 1];
    var j := PlaceOf(init, rows[|rows| - 1]);
    assert rows[j] == rows[|rows| - 1] && forall i :: 0 <= i < |init| ==> init[i] == rows[i];
  }

  // What a table holds of some rows.
  function Among(table: seq<Row>, rows: set<Row>): seq<Row> {
    if table == [] then []
    else
      var before, last := Among(table[..|table| - 1], rows), table[|table| - 1];
      if last in rows then before + [last] else before
  }

  lemma {:induction false} AmongIs(table: seq<Row>, rows: set<Row>)
    ensures forall r :: r in Among(table, rows) <==> r in table && r in rows
    ensures PaysOnce(table) ==> PaysOnce(Among(table, rows))
  {
    if table != [] {
      var init, last := table[..|table| - 1], table[|table| - 1];
      assert forall r :: r in table <==> r in init || r == last;
      assert forall i :: 0 <= i < |init| ==> init[i] == table[i];
      AmongIs(init, rows);
      if PaysOnce(table) {
        FirstTime(table);
      }
    }
  }

  lemma FirstTime(table: seq<Row>)
    requires table != [] && PaysOnce(table)
    ensures PaysOnce(table[..|table| - 1])
    ensures table[|table| - 1].tokens.Some? ==> table[|table| - 1] !in table[..|table| - 1]
  {
    var init := table[..|table| - 1];
    assert forall i :: 0 <= i < |init| ==> init[i] == table[i];
  }

  // ----- the table -----------------------------------------------------------------------------

  lemma TotalsTell(u: Usage, v: Usage)
    requires v.AtMost(u)
    ensures AtMost(v.Total(), u.Total()) && (u.Total() == v.Total() <==> u == v)
  {
  }

  // No row that was made for the message and is in the table pays for it but these.
  ghost predicate NoneElse(table: seq<Row>, made: set<Row>, rows: seq<Row>) {
    forall r :: r in table && r in made && r.tokens.Some? ==> r in rows
  }

  // A table with one row for each key that has all these rows with tokens holds their sum,
  // each counted once, if and only if it has no other row made for the message.
  lemma TableHoldsTheRows(rows: seq<Row>, table: seq<Row>, made: set<Row>)
    requires DistinctKeys(table, KeyOf) && AllSensible(table) && PaidWithin(rows, table) && forall r :: r in rows ==>
      r in made
    ensures
      var held, charged := SumTokens(Among(table, made)), SumTokens(Once(rows));
      AtMost(charged, held) && (held == charged <==> NoneElse(table, made, rows))
  {
    hide Sensible, SumTokens, Among, Once, AtMost;
    TableIsPaidOnce(table);
    AmongIs(table, made);
    OnceHasAll(rows);
    SumWithin(Once(rows), Among(table, made));
  }

  lemma TableIsPaidOnce(table: seq<Row>)
    requires DistinctKeys(table, KeyOf)
    ensures PaysOnce(table)
  {
    assert forall i :: 0 <= i < |table| ==> KeyOf(table[i]) == table[i].key;
  }

  // When no two of a message's rows with tokens are the same and all its growth fell on
  // lines with a row, they hold what it was charged, which is never less than the most it
  // reported, and exactly that if and only if no counter came back after it was forgotten.
  lemma RowsHoldTheCharge(steps: seq<Step>, id: string)
    requires AllGrowOnCarriers(steps, id) && PaysOnce(RowsFor(steps, id))
    ensures
      var charged := SumTokens(Once(RowsFor(steps, id)));
      && charged == Charged(steps, id).Total() && AtMost(Peak(steps, id).Total(), charged)
      && (charged == Peak(steps, id).Total() <==> forall k :: !ComesBack(steps, id, k))
  {
    hide Charged, Peak, ComesBack, SumTokens, Once, RowsFor, Emitted, Missed, PaysOnce, AllGrowOnCarriers, AtMost;
    OnceHasAll(RowsFor(steps, id));
    RowsHoldTheEmitted(steps, id);
    EmittedOrMissed(steps, id);
    MissedNothing(steps, id);
    PlusOneMore(Emitted(steps, id), NO_TOKENS, NO_TOKENS);
    NeverUndercharged(steps, id);
    TotalsTell(Charged(steps, id), Peak(steps, id));
    ChargedOnceIfNoneComesBack(steps, id);
  }

  lemma SumsMeet(held: Tokens, charged: Tokens, peak: Tokens)
    requires AtMost(charged, held) && AtMost(peak, charged)
    ensures held == peak <==> held == charged && charged == peak
  {
  }

  // So if the message's rows, each counted once, hold no less than the most it reported,
  // the table holds exactly that if and only if they do and the table has no other row
  // made for the message.
  lemma TableHoldsThePeak(steps: seq<Step>, table: seq<Row>, made: set<Row>, id: string)
    requires DistinctKeys(table, KeyOf) && AllSensible(table)
    requires PaidWithin(RowsFor(steps, id), table) && forall r :: r in RowsFor(steps, id) ==> r in made
    ensures
      var rows, peak := RowsFor(steps, id), Peak(steps, id).Total();
      var held, charged := SumTokens(Among(table, made)), SumTokens(Once(rows));
      && AtMost(charged, held) && (held == charged <==> NoneElse(table, made, rows))
      && (AtMost(peak, charged) ==> (held == peak <==> charged == peak && NoneElse(table, made, rows)))
      && (AllGrowOnCarriers(steps, id) && PaysOnce(rows) ==>
            (held == peak <==> (forall k :: !ComesBack(steps, id, k)) && NoneElse(table, made, rows)))
  {
    hide AllSensible, SumTokens, Among, Once, AtMost, NoneElse, AllGrowOnCarriers, PaysOnce, ComesBack, Peak, RowsFor;
    hide DistinctKeys, PaidWithin;
    var rows, peak := RowsFor(steps, id), Peak(steps, id).Total();
    var held, charged := SumTokens(Among(table, made)), SumTokens(Once(rows));
    TableHoldsTheRows(rows, table, made);
    if AllGrowOnCarriers(steps, id) && PaysOnce(rows) {
      RowsHoldTheCharge(steps, id);
    }
    if AtMost(peak, charged) {
      SumsMeet(held, charged, peak);
    }
  }

  // Keys that nothing took are needed: a message that grows twice at one instant and place
  // is charged the first growth only, though its rows add up to the most it reported.
  lemma SameInstantUndercharges(id: string, counts: Usage, more: Usage)
    requires counts.AnyPositive() && NO_USAGE.AtMost(counts) && counts.AtMost(more) && counts != more
    ensures
      var steps := [Reporting(ByAssistant, id, counts)] + [Reporting(ByAssistant, id, more)];
      var table := Kept(RowsFor(steps, id), KeyOf);
      && SumTokens(RowsFor(steps, id)) == Peak(steps, id).Total() == more.Total()
      && SumTokens(table) == counts.Total() != Peak(steps, id).Total()
  {
    hide RowsFor, Peak, SumTokens, Ingest.Kept, Usage.Total, Usage.Growth, Usage.AtMost, Usage.AnyPositive, Tokens.Plus;
    hide AtMost;
    var one, two := Reporting(ByAssistant, id, counts), Reporting(ByAssistant, id, more);
    TwoGrowths(id, counts, more);
    TwoRows(GrowthRow(id, counts, NO_USAGE), GrowthRow(id, more, counts));
    FromNothing(counts);
    GrowthAddsUp(counts, more);
    TotalsTell(more, counts);
    PeakOfTwo(one, two, id);
  }

  // The row of a report that grows over what was known.
  function GrowthRow(id: string, counts: Usage, known: Usage): Row {
    MakeRow(Reporting(ByAssistant, id, counts).line, "", Machine, Some(counts.Growth(known).Total()))
  }

  lemma TwoGrowths(id: string, counts: Usage, more: Usage)
    requires counts.AnyPositive() && NO_USAGE.AtMost(counts) && counts.AtMost(more) && counts != more
    ensures RowsFor([Reporting(ByAssistant, id, counts)] + [Reporting(ByAssistant, id, more)], id) ==
            [GrowthRow(id, counts, NO_USAGE)] + [GrowthRow(id, more, counts)]
  {
    var none: seq<Step> := [];
    var one, two := Reporting(ByAssistant, id, counts), Reporting(ByAssistant, id, more);
    hide LineRows, Record, Usage.AtMost, Usage.AnyPositive, GrowthRow;
    FirstGrowth(none, id, counts);
    OneReportMore(none, one, id);
    NextGrowth(none + [one], id, counts, more);
    OneReportMore(none + [one], two, id);
    assert RowsFor(none, id) == [];
    hide RowsFor, After;
    assert none + [one] == [one] && [] + [GrowthRow(id, counts, NO_USAGE)] == [GrowthRow(id, counts, NO_USAGE)];
  }

  lemma FromNothing(counts: Usage)
    requires NO_USAGE.AtMost(counts)
    ensures counts.Growth(NO_USAGE) == counts && counts.Max(NO_USAGE) == counts
    ensures NO_USAGE.Plus(counts) == counts
  {
  }

  lemma PeakOfTwo(one: Step, two: Step, id: string)
    requires Reports(one, id) && Reports(two, id)
    requires NO_USAGE.AtMost(one.line.report.value.counts)
    requires one.line.report.value.counts.AtMost(two.line.report.value.counts)
    ensures Peak([one] + [two], id) == two.line.report.value.counts
  {
    var none: seq<Step> := [];
    PeakSnoc(none, one, id);
    PeakSnoc([one], two, id);
    assert none + [one] == [one] && Peak(none, id) == NO_USAGE;
    hide Peak;
    FromNothing(one.line.report.value.counts);
  }

  lemma PeakSnoc(steps: seq<Step>, step: Step, id: string)
    requires Reports(step, id)
    ensures Peak(steps + [step], id) == step.line.report.value.counts.Max(Peak(steps, id))
  {
    assert (steps + [step])[..|steps|] == steps;
  }

  lemma GrowthAddsUp(counts: Usage, more: Usage)
    requires counts.AtMost(more)
    ensures counts.Total().Plus(more.Growth(counts).Total()) == more.Total()
  {
  }

  lemma OneReportMore(steps: seq<Step>, step: Step, id: string)
    requires Reports(step, id)
    ensures RowsFor(steps + [step], id) == RowsFor(steps, id) + LineRows(After(steps), step.line)
    ensures After(steps + [step]) == Record(After(steps), step.line)
  {
    assert (steps + [step])[..|steps|] == steps && [] + steps == steps;
  }

  lemma FirstGrowth(steps: seq<Step>, id: string, counts: Usage)
    requires steps == [] && counts.AnyPositive() && NO_USAGE.AtMost(counts)
    ensures
      var line := Reporting(ByAssistant, id, counts).line;
      && LineRows(After(steps), line) == [GrowthRow(id, counts, NO_USAGE)]
      && Previous(Record(After(steps), line), Some(id)) == counts
  {
    FromNothing(counts);
  }

  lemma NextGrowth(steps: seq<Step>, id: string, counts: Usage, more: Usage)
    requires Previous(After(steps), Some(id)) == counts && counts.AtMost(more) && counts != more
    ensures LineRows(After(steps), Reporting(ByAssistant, id, more).line) == [GrowthRow(id, more, counts)]
  {
  }

  // Of two rows the table holds both, or the first if the second has its key.
  lemma TwoRows(a: Row, b: Row)
    requires a.tokens.Some? && b.tokens.Some?
    ensures SumTokens([a] + [b]) == a.tokens.value.Plus(b.tokens.value)
    ensures Kept([a] + [b], KeyOf) == if a.key == b.key then [a] else [a] + [b]
    ensures SumTokens(Kept([a] + [b], KeyOf)) ==
      if a.key == b.key then a.tokens.value else a.tokens.value.Plus(b.tokens.value)
  {
    hide SumTokens, Kept, Tokens.Plus;
    KeptOfTwo(a, b, KeyOf);
    OneRow(a);
    SumSnoc([a], b);
  }
}
