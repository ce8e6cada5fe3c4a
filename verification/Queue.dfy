// The offline queue file: one serialised row a line, appended to, rewritten whole,
// and drained in batches that fit a byte budget.
module Queue {
  import opened Basics
  import opened Wrappers
  import opened JsonLines

  const MAX_SEND_BYTES: nat := 4 * 1024 * 1024

  const COMMA: byte := 44
  const OPEN_BRACKET: byte := 91
  const CLOSE_BRACKET: byte := 93

  // How a row is serialised, and how a line is parsed back.
  datatype Codec<!Row(!new)> = Codec(enc: Row -> Line, dec: Line -> Option<Row>) {
    ghost predicate Valid() {
      forall r: Row :: dec(enc(r)) == Some(r) && enc(r) != [] && !HasNewline(enc(r))
    }
  }

  // ----- framing -----------------------------------------------------------------

  // Every row on a line of its own.
  function Framed<Row(!new)>(rows: seq<Row>, c: Codec<Row>): seq<byte> {
    if rows == [] then [] else c.enc(rows[0]) + [NEWLINE] + Framed(rows[1..], c)
  }

  // The lines that parse, empty ones left out.
  function ParseRows<Row(!new)>(lines: seq<Line>, c: Codec<Row>): seq<Row> {
    if lines == [] then []
    else
      var tail := ParseRows(lines[1..], c);
      if lines[0] == [] then tail
      else match c.dec(lines[0])
        case Some(row) => [row] + tail
        case None => tail
  }

  function ReadRows<Row(!new)>(text: Option<seq<byte>>, c: Codec<Row>): seq<Row> {
    match text
    case None => []
    case Some(t) => ParseRows(Split(t), c)
  }

  lemma {:induction false} ParseRowsConcat<Row(!new)>(a: seq<Line>, b: seq<Line>, c: Codec<Row>)
    ensures ParseRows(a + b, c) == ParseRows(a, c) + ParseRows(b, c)
  {
    if a == [] {
      assert a + b == b;
    } else {
      assert (a + b)[1..] == a[1..] + b;
      ParseRowsConcat(a[1..], b, c);
    }
  }

  lemma {:induction false} FramedIsClosed<Row(!new)>(rows: seq<Row>, c: Codec<Row>)
    ensures Closed(Framed(rows, c))
  {
    if rows != [] {
      FramedIsClosed(rows[1..], c);
    }
  }

  lemma FramedRow<Row(!new)>(row: Row, rest: seq<byte>, c: Codec<Row>)
    requires c.Valid()
    ensures Lines(c.enc(row) + [NEWLINE] + rest) == [c.enc(row)] + Lines(rest)
  {
    var b := c.enc(row) + [NEWLINE] + rest;
    var n := |c.enc(row)|;
    assert b[..n] == c.enc(row) && b[n + 1..] == rest;
    assert forall k :: 0 <= k < n ==> b[k] == c.enc(row)[k];
    LinesStep(b, n);
  }

  lemma {:induction false} FramedParses<Row(!new)>(rows: seq<Row>, c: Codec<Row>)
    requires c.Valid()
    ensures ParseRows(Lines(Framed(rows, c)), c) == rows
  {
    if rows == [] {
      assert !HasNewline(Framed(rows, c));
    } else {
      FramedRow(rows[0], Framed(rows[1..], c), c);
      FramedParses(rows[1..], c);
    }
  }

  // What a closed file holds is the rows of its complete lines.
  lemma ClosedRows<Row(!new)>(t: seq<byte>, c: Codec<Row>)
    requires Closed(t)
    ensures ReadRows(Some(t), c) == ParseRows(Lines(t), c)
  {
    SplitIsLines(t);
    LinesConcat(t, [NEWLINE]);
    LinesStep([NEWLINE], 0);
    assert Lines([NEWLINE]) == [[]];
    ParseRowsConcat(Lines(t), [[]], c);
    assert ParseRows([[]], c) == [];
  }

  // Appending to the file appends to the rows read back, whatever it held.
  lemma AppendedRows<Row(!new)>(t: seq<byte>, rows: seq<Row>, c: Codec<Row>)
    requires c.Valid() && Closed(t)
    ensures Closed(t + Framed(rows, c))
    ensures ReadRows(Some(t + Framed(rows, c)), c) == ReadRows(Some(t), c) + rows
  {
    FramedIsClosed(rows, c);
    ClosedRows(t, c);
    ClosedRows(t + Framed(rows, c), c);
    LinesConcat(t, Framed(rows, c));
    ParseRowsConcat(Lines(t), Lines(Framed(rows, c)), c);
    FramedParses(rows, c);
  }

  // ----- the file ------------------------------------------------------------------

  // The rows separated, not followed, by `sep`.
  function Joined<Row(!new)>(rows: seq<Row>, sep: byte, c: Codec<Row>): seq<byte> {
    if rows == [] then []
    else if |rows| == 1 then c.enc(rows[0])
    else Joined(rows[..|rows| - 1], sep, c) + [sep] + c.enc(rows[|rows| - 1])
  }

  lemma {:induction false} FramedSnoc<Row(!new)>(rows: seq<Row>, last: Row, c: Codec<Row>)
    ensures Framed(rows + [last], c) == Framed(rows, c) + c.enc(last) + [NEWLINE]
  {
    if rows == [] {
      assert rows + [last] == [last] && [last][1..] == [];
      assert Framed([last], c) == c.enc(last) + [NEWLINE] + [];
    } else {
      assert (rows + [last])[1..] == rows[1..] + [last];
      FramedSnoc(rows[1..], last, c);
    }
  }

  // Joining with newlines and closing with one is framing.
  lemma {:induction false} JoinedIsFramed<Row(!new)>(rows: seq<Row>, c: Codec<Row>)
    requires rows != []
    ensures Joined(rows, NEWLINE, c) + [NEWLINE] == Framed(rows, c)
  {
    var n := |rows|;
    assert rows[..n - 1] + [rows[n - 1]] == rows;
    FramedSnoc(rows[..n - 1], rows[n - 1], c);
    if n > 1 {
      JoinedIsFramed(rows[..n - 1], c);
    } else {
      assert rows[..0] == [];
    }
  }

  class QueueFile<Row(!new)> {
    const codec: Codec<Row>
    var text: Option<seq<byte>>

    constructor (codec: Codec<Row>, text: Option<seq<byte>>)
      ensures this.codec == codec && this.text == text
    {
      this.codec := codec;
      this.text := text;
    }

    method Encode(rows: seq<Row>) returns (out: seq<byte>)
      ensures out == if rows == [] then [NEWLINE] else Framed(rows, codec)
    {
      out := [];
      for i := 0 to |rows|
        invariant out == Joined(rows[..i], NEWLINE, codec)
      {
        assert rows[..i + 1][..i] == rows[..i];
        if i > 0 {
          out := out + [NEWLINE];
        }
        out := out + codec.enc(rows[i]);
      }
      assert rows[..|rows|] == rows;
      if rows != [] {
        JoinedIsFramed(rows, codec);
      }
      out := out + [NEWLINE];
    }

    // A file that cannot be read counts as empty, like a missing one.
    method Read(works: bool) returns (rows: seq<Row>)
      ensures rows == if works then ReadRows(text, codec) else []
    {
      rows := [];
      if text.None? || !works {
        return;
      }
      var lines := Split(text.value);
      for i := 0 to |lines|
        invariant rows == ParseRows(lines[..i], codec)
      {
        assert lines[..i + 1] == lines[..i] + [lines[i]];
        ParseRowsConcat(lines[..i], [lines[i]], codec);
        if lines[i] != [] {
          match codec.dec(lines[i]) {
            case Some(row) => rows := rows + [row];
            case None =>
          }
        }
      }
      assert lines[..|lines|] == lines;
    }

    // `works` is whether the disk takes the write.
    method Append(rows: seq<Row>, works: bool)
      modifies this
      ensures text == Appended(old(text), rows, works, codec)
    {
      if rows == [] || !works {
        return;
      }
      var bytes := Encode(rows);
      text := Some(Bytes(text) + bytes);
    }

    method Save(rows: seq<Row>, works: bool)
      modifies this
      ensures text == Saved(old(text), rows, works, codec)
    {
      if !works {
        return;
      }
      if rows == [] {
        text := None;
        return;
      }
      var bytes := Encode(rows);
      text := Some(bytes);
    }
  }

  function Bytes(text: Option<seq<byte>>): seq<byte> {
    match text
    case None => []
    case Some(t) => t
  }

  // A file is well framed when it is missing or ends at a line end.
  predicate WellFramed(text: Option<seq<byte>>) {
    Closed(Bytes(text))
  }

  function Appended<Row(!new)>(text: Option<seq<byte>>, rows: seq<Row>, works: bool, c: Codec<Row>): Option<seq<byte>> {
    if works && |rows| > 0 then Some(Bytes(text) + Framed(rows, c)) else text
  }

  function Saved<Row(!new)>(text: Option<seq<byte>>, rows: seq<Row>, works: bool, c: Codec<Row>): Option<seq<byte>> {
    if !works then text else if |rows| == 0 then None else Some(Framed(rows, c))
  }

  // An append that works adds its rows to those read back; one that fails adds none.
  lemma AppendReadsBack<Row(!new)>(text: Option<seq<byte>>, rows: seq<Row>, works: bool, c: Codec<Row>)
    requires c.Valid() && WellFramed(text)
    ensures WellFramed(Appended(text, rows, works, c))
    ensures ReadRows(Appended(text, rows, works, c), c) == ReadRows(text, c) + if works then rows else []
  {
    AppendedRows(Bytes(text), rows, c);
    if text.None? {
      ClosedRows([], c);
      assert Lines([]) == [];
    }
  }

  // A rewrite that works leaves exactly its rows, even none.
  lemma SaveReadsBack<Row(!new)>(text: Option<seq<byte>>, rows: seq<Row>, works: bool, c: Codec<Row>)
    requires c.Valid() && WellFramed(text)
    ensures WellFramed(Saved(text, rows, works, c))
    ensures ReadRows(Saved(text, rows, works, c), c) == if works then rows else ReadRows(text, c)
  {
    FramedIsClosed(rows, c);
    ClosedRows(Framed(rows, c), c);
    FramedParses(rows, c);
  }

  function AppendEach<Row(!new)>(appends: seq<seq<Row>>, c: Codec<Row>): Option<seq<byte>> {
    if appends == [] then None
    else Appended(AppendEach(appends[..|appends| - 1], c), appends[|appends| - 1], true, c)
  }

  function Concat<T>(parts: seq<seq<T>>): seq<T> {
    if parts == [] then [] else parts[0] + Concat(parts[1..])
  }

  lemma {:induction false} ConcatSnoc<T>(parts: seq<seq<T>>, last: seq<T>)
    ensures Concat(parts + [last]) == Concat(parts) + last
  {
    if parts == [] {
      assert Concat([last]) == last + Concat([]);
    } else {
      assert (parts + [last])[1..] == parts[1..] + [last];
      ConcatSnoc(parts[1..], last);
    }
  }

  // However many appends, the file reads back as all their rows in order.
  lemma {:induction false} AppendsReadBack<Row(!new)>(appends: seq<seq<Row>>, c: Codec<Row>)
    requires c.Valid()
    ensures WellFramed(AppendEach(appends, c))
    ensures ReadRows(AppendEach(appends, c), c) == Concat(appends)
  {
    if appends != [] {
      var init, last := appends[..|appends| - 1], appends[|appends| - 1];
      AppendsReadBack(init, c);
      AppendReadsBack(AppendEach(init, c), last, true, c);
      assert init + [last] == appends;
      ConcatSnoc(init, last);
    }
  }

  // ----- batches ---------------------------------------------------------------------

  // The JSON array that a batch is sent as.
  function SerialisedArray<Row(!new)>(rows: seq<Row>, c: Codec<Row>): seq<byte> {
    [OPEN_BRACKET] + Joined(rows, COMMA, c) + [CLOSE_BRACKET]
  }

  // The longest prefix of at most `n` rows whose array fits; one row always does.
  function LongestFit<Row(!new)>(rows: seq<Row>, budget: nat, n: nat, c: Codec<Row>): (k: nat)
    requires n <= |rows|
    ensures k <= n && (n > 0 ==> k > 0)
    ensures k > 1 ==> |SerialisedArray(rows[..k], c)| <= budget
    ensures forall j :: k < j <= n ==> |SerialisedArray(rows[..j], c)| > budget
    decreases n
  {
    if n <= 1 || |SerialisedArray(rows[..n], c)| <= budget then n else LongestFit(rows, budget, n - 1, c)
  }

  function BatchLength<Row(!new)>(rows: seq<Row>, budget: nat, c: Codec<Row>): (k: nat)
    ensures k <= |rows| && (rows != [] ==> k > 0)
  {
    LongestFit(rows, budget, |rows|, c)
  }

  lemma {:induction false} LongerArrays<Row(!new)>(rows: seq<Row>, j: nat, k: nat, c: Codec<Row>)
    requires j <= k <= |rows|
    ensures |SerialisedArray(rows[..j], c)| <= |SerialisedArray(rows[..k], c)|
  {
    if j < k {
      LongerArrays(rows, j, k - 1, c);
      assert rows[..k][..k - 1] == rows[..k - 1];
    }
  }

  // The greedy count stops at the longest prefix that fits.
  lemma {:induction false} FitIsUnique<Row(!new)>(rows: seq<Row>, budget: nat, n: nat, k: nat, c: Codec<Row>)
    requires 0 < k <= n <= |rows|
    requires k > 1 ==> |SerialisedArray(rows[..k], c)| <= budget
    requires k < |rows| ==> |SerialisedArray(rows[..k + 1], c)| > budget
    ensures LongestFit(rows, budget, n, c) == k
    decreases n
  {
    if n > k {
      LongerArrays(rows, k + 1, n, c);
      FitIsUnique(rows, budget, n - 1, k, c);
    }
  }

  method TakeSendBatch<Row(!new)>(pending: seq<Row>, budget: nat, c: Codec<Row>) returns (count: nat)
    ensures count == BatchLength(pending, budget, c)
    ensures count <= |pending| && (pending != [] ==> count > 0)
    ensures count > 1 ==> |SerialisedArray(pending[..count], c)| <= budget
    ensures forall j :: count < j <= |pending| ==> |SerialisedArray(pending[..j], c)| > budget
  {
    count := 0;
    var bytes := 2;
    while count < |pending|
      invariant count <= |pending|
      invariant bytes == |SerialisedArray(pending[..count], c)|
      invariant count > 1 ==> bytes <= budget
    {
      var rowBytes := |c.enc(pending[count])| + if count > 0 then 1 else 0;
      assert pending[..count + 1][..count] == pending[..count];
      assert |SerialisedArray(pending[..count + 1], c)| == bytes + rowBytes;
      if count > 0 && bytes + rowBytes > budget {
        FitIsUnique(pending, budget, |pending|, count, c);
        return;
      }
      count := count + 1;
      bytes := bytes + rowBytes;
    }
    if pending != [] {
      FitIsUnique(pending, budget, |pending|, count, c);
    }
  }

  // The batches that repeated successful sends take.
  function Batches<Row(!new)>(rows: seq<Row>, budget: nat, c: Codec<Row>): seq<seq<Row>> {
    if rows == [] then []
    else
      var k := BatchLength(rows, budget, c);
      [rows[..k]] + Batches(rows[k..], budget, c)
  }

  // A batch is one row or fits, and could not have taken the row after it.
  ghost predicate IsBatch<Row(!new)>(batch: seq<Row>, rest: seq<Row>, budget: nat, c: Codec<Row>) {
    && batch != []
    && (|batch| > 1 ==> |SerialisedArray(batch, c)| <= budget)
    && (rest != [] ==> |SerialisedArray(batch + rest[..1], c)| > budget)
  }

  lemma FirstBatch<Row(!new)>(rows: seq<Row>, budget: nat, c: Codec<Row>)
    requires rows != []
    ensures IsBatch(rows[..BatchLength(rows, budget, c)], rows[BatchLength(rows, budget, c)..], budget, c)
  {
    var k := BatchLength(rows, budget, c);
    if k < |rows| {
      assert rows[..k] + rows[k..][..1] == rows[..k + 1];
    }
  }

  // The batches hold every row once and in order.
  lemma {:induction false} BatchesDrain<Row(!new)>(rows: seq<Row>, budget: nat, c: Codec<Row>)
    ensures Concat(Batches(rows, budget, c)) == rows
    ensures |Batches(rows, budget, c)| <= |rows|
  {
    if rows != [] {
      var k := BatchLength(rows, budget, c);
      BatchesDrain(rows[k..], budget, c);
      assert rows[..k] + rows[k..] == rows;
    }
  }

  // Every one of them is as long as it may be.
  lemma {:induction false} BatchesAreLongest<Row(!new)>(rows: seq<Row>, budget: nat, i: nat, c: Codec<Row>)
    requires i < |Batches(rows, budget, c)|
    ensures IsBatch(Batches(rows, budget, c)[i], Concat(Batches(rows, budget, c)[i + 1..]), budget, c)
  {
    var k := BatchLength(rows, budget, c);
    var rest := Batches(rows[k..], budget, c);
    assert Batches(rows, budget, c)[i + 1..] == rest[i..];
    if i == 0 {
      FirstBatch(rows, budget, c);
      BatchesDrain(rows[k..], budget, c);
      assert rest[0..] == rest;
    } else {
      BatchesAreLongest(rows[k..], budget, i - 1, c);
    }
  }
}
