// A codec for the session watcher's rows: whatever is stated of every valid codec is
// stated of this one.
module RowCodec {
  import opened Basics
  import opened Wrappers
  import opened JsonLines
  import opened Queue
  import opened TokenCharge

  // ----- numbers as bytes --------------------------------------------------------------

  const MARK: byte := 1
  const STOP: byte := 0

  function Marks(n: nat): seq<byte> {
    seq(n, _ => MARK)
  }

  // As many marks as the number says, and a stop.
  function Written(numbers: seq<nat>): seq<byte> {
    if numbers == [] then [] else Marks(numbers[0]) + ([STOP] + Written(numbers[1..]))
  }

  function ReadBack(b: seq<byte>, marks: nat): seq<nat> {
    if b == [] then []
    else if b[0] == STOP then [marks] + ReadBack(b[1..], 0)
    else ReadBack(b[1..], marks + 1)
  }

  lemma {:induction false} MarksReadBack(n: nat, rest: seq<byte>, marks: nat)
    ensures ReadBack(Marks(n) + ([STOP] + rest), marks) == [marks + n] + ReadBack(rest, 0)
    decreases n
  {
    var b := Marks(n) + ([STOP] + rest);
    if n == 0 {
      assert b == [STOP] + rest && b[1..] == rest;
    } else {
      assert b[0] == MARK && b[1..] == Marks(n - 1) + ([STOP] + rest);
      MarksReadBack(n - 1, rest, marks + 1);
    }
  }

  lemma {:induction false} WrittenReadsBack(numbers: seq<nat>)
    ensures ReadBack(Written(numbers), 0) == numbers
    ensures forall i :: 0 <= i < |Written(numbers)| ==> Written(numbers)[i] in {MARK, STOP}
    ensures numbers != [] ==> Written(numbers) != []
  {
    if numbers != [] {
      WrittenReadsBack(numbers[1..]);
      MarksReadBack(numbers[0], Written(numbers[1..]), 0);
    }
  }

  // ----- rows as numbers ---------------------------------------------------------------

  // Whole numbers, the negative ones between the others.
  function Folded(n: int): nat {
    if n >= 0 then 2 * n else -2 * n - 1
  }

  function Unfolded(n: nat): int {
    if n % 2 == 0 then n / 2 else -(n / 2) - 1
  }

  lemma FoldedUnfolds(n: int)
    ensures Unfolded(Folded(n)) == n
  {
  }

  // A text is its length and its characters.
  function Spelled(s: string): seq<nat> {
    [|s|] + seq(|s|, i requires 0 <= i < |s| => s[i] as nat)
  }

  predicate IsCharacter(n: nat) {
    n < 0xD800 || 0xE000 <= n < 0x11_0000
  }

  function TakeText(numbers: seq<nat>): Option<(string, seq<nat>)> {
    if numbers == [] || |numbers| <= numbers[0] then None
    else
      var n := numbers[0];
      if exists i :: 1 <= i <= n && !IsCharacter(numbers[i]) then None
      else
        Some((seq(n, i requires 0 <= i < n => assert IsCharacter(numbers[i + 1]); numbers[i + 1] as char),
          numbers[n + 1..]))
  }

  lemma TextIsTaken(s: string, rest: seq<nat>)
    ensures TakeText(Spelled(s) + rest) == Some((s, rest))
  {
    var numbers := Spelled(s) + rest;
    assert forall i :: 0 <= i < |s| ==> numbers[i + 1] == s[i] as nat && IsCharacter(numbers[i + 1]);
    assert forall i :: 1 <= i <= |s| ==> numbers[i] == numbers[(i - 1) + 1];
    assert numbers[|s| + 1..] == rest;
    assert TakeText(numbers).value.0 == s;
  }

  function TokenNumbers(tokens: Option<Tokens>): seq<nat> {
    match tokens
    case None => []
    case Some(t) => [Folded(t.into), Folded(t.out)]
  }

  function Numbers(row: Row): seq<nat> {
    [Folded(row.key.time), if row.key.actor.Human? then 0 else 1]
    + (Spelled(row.key.source) + (Spelled(row.key.project) + (Spelled(row.key.entity) + TokenNumbers(row.tokens))))
  }

  function TokensFrom(numbers: seq<nat>): Option<Option<Tokens>> {
    if numbers == [] then Some(None)
    else if |numbers| == 2 then Some(Some(Tokens(Unfolded(numbers[0]), Unfolded(numbers[1]))))
    else None
  }

  function RowFrom(numbers: seq<nat>): Option<Row> {
    if |numbers| < 2 then None
    else match TakeText(numbers[2..])
      case None => None
      case Some((source, more)) =>
        match TakeText(more)
        case None => None
        case Some((project, rest)) =>
          match TakeText(rest)
          case None => None
          case Some((entity, tail)) =>
            match TokensFrom(tail)
            case None => None
            case Some(tokens) =>
              var actor := if numbers[1] == 0 then Human else Machine;
              Some(Row(Key(Unfolded(numbers[0]), source, project, entity, actor), tokens))
  }

  lemma NumbersReadBack(row: Row)
    ensures RowFrom(Numbers(row)) == Some(row)
  {
    hide Spelled, TakeText, Folded, Unfolded;
    var tail := TokenNumbers(row.tokens);
    var rest := Spelled(row.key.entity) + tail;
    var more := Spelled(row.key.project) + rest;
    TextIsTaken(row.key.entity, tail);
    TextIsTaken(row.key.project, rest);
    TextIsTaken(row.key.source, more);
    assert Numbers(row)[2..] == Spelled(row.key.source) + more;
    FoldedUnfolds(row.key.time);
    if row.tokens.Some? {
      FoldedUnfolds(row.tokens.value.into);
      FoldedUnfolds(row.tokens.value.out);
    }
  }

  // ----- the codec -----------------------------------------------------------------------

  function RowBytes(row: Row): Line {
    Written(Numbers(row))
  }

  function BytesRow(line: Line): Option<Row> {
    RowFrom(ReadBack(line, 0))
  }

  const ROW_CODEC: Codec<Row> := Codec(RowBytes, BytesRow)

  lemma RowCodecIsValid()
    ensures ROW_CODEC.Valid()
  {
    forall row: Row
      ensures BytesRow(RowBytes(row)) == Some(row) && RowBytes(row) != [] && !HasNewline(RowBytes(row))
    {
      WrittenReadsBack(Numbers(row));
      NumbersReadBack(row);
      assert NEWLINE != MARK && NEWLINE != STOP;
    }
  }
}
