// Newline-framed files: the pieces a split yields, and which lines are complete.
module JsonLines {
  import opened Basics
  import opened Wrappers

  const NEWLINE: byte := 10

  type Line = seq<byte>

  predicate HasNewline(b: seq<byte>) {
    exists i :: 0 <= i < |b| && b[i] == NEWLINE
  }

  // The pieces between newlines, as `split` yields them.
  function Split(b: seq<byte>): seq<Line> {
    if !HasNewline(b) then [b]
    else
      var i := FirstNewline(b);
      [b[..i]] + Split(b[i + 1..])
  }

  function FirstNewline(b: seq<byte>): (i: nat)
    requires HasNewline(b)
    ensures i < |b| && b[i] == NEWLINE
    ensures forall k :: 0 <= k < i ==> b[k] != NEWLINE
  {
    if b[0] == NEWLINE then 0
    else
      assert HasNewline(b[1..]) by { var k :| 0 <= k < |b| && b[k] == NEWLINE; assert b[1..][k - 1] == NEWLINE; }
      1 + FirstNewline(b[1..])
  }

  // The lines that are complete: every piece that a newline ends.
  function Lines(b: seq<byte>): seq<Line> {
    if !HasNewline(b) then []
    else
      var i := FirstNewline(b);
      [b[..i]] + Lines(b[i + 1..])
  }

  predicate Closed(b: seq<byte>) {
    b == [] || b[|b| - 1] == NEWLINE
  }

  lemma LinesStep(b: seq<byte>, i: nat)
    requires i < |b| && b[i] == NEWLINE && forall k :: 0 <= k < i ==> b[k] != NEWLINE
    ensures HasNewline(b) && FirstNewline(b) == i
    ensures Lines(b) == [b[..i]] + Lines(b[i + 1..])
  {
  }

  lemma LinesPeel(a: seq<byte>, b: seq<byte>, i: nat)
    requires i < |a| && a[i] == NEWLINE && forall k :: 0 <= k < i ==> a[k] != NEWLINE
    ensures Lines(a) == [a[..i]] + Lines(a[i + 1..])
    ensures Lines(a + b) == [a[..i]] + Lines(a[i + 1..] + b)
  {
    LinesStep(a, i);
    LinesStep(a + b, i);
    assert (a + b)[..i] == a[..i];
    assert (a + b)[i + 1..] == a[i + 1..] + b;
  }

  lemma {:induction false} LinesConcat(a: seq<byte>, b: seq<byte>)
    requires Closed(a)
    ensures Lines(a + b) == Lines(a) + Lines(b)
  {
    hide Lines, Closed;
    if a == [] {
      NoLines(a);
      assert a + b == b;
    } else {
      var i := FirstOf(a);
      LinesPeel(a, b, i);
      LinesConcat(a[i + 1..], b);
      Assoc([a[..i]], Lines(a[i + 1..]), Lines(b));
    }
  }

  lemma NoLines(b: seq<byte>)
    requires b == []
    ensures Lines(b) == []
  {
  }

  lemma FirstOf(b: seq<byte>) returns (i: nat)
    requires Closed(b) && b != []
    ensures i < |b| && b[i] == NEWLINE && (forall k :: 0 <= k < i ==> b[k] != NEWLINE) && Closed(b[i + 1..])
  {
    assert HasNewline(b) by { assert b[|b| - 1] == NEWLINE; }
    i := FirstNewline(b);
    var rest := b[i + 1..];
    assert rest != [] ==> rest[|rest| - 1] == b[|b| - 1];
  }

  // Splitting what precedes a final newline gives exactly the complete lines.
  lemma {:induction false} SplitIsLines(b: seq<byte>)
    ensures Split(b) == Lines(b + [NEWLINE])
  {
    var closed := b + [NEWLINE];
    if !HasNewline(b) {
      assert closed[..|b|] == b && closed[|b| + 1..] == [];
      LinesStep(closed, |b|);
    } else {
      var i := FirstNewline(b);
      assert closed[..i] == b[..i];
      LinesStep(closed, i);
      assert closed[i + 1..] == b[i + 1..] + [NEWLINE];
      SplitIsLines(b[i + 1..]);
    }
  }

  function LastNewline(b: seq<byte>): (r: Option<nat>)
    ensures r.Some? ==> r.value < |b| && b[r.value] == NEWLINE && forall k :: r.value < k < |b| ==> b[k] != NEWLINE
    ensures r.None? ==> !HasNewline(b)
  {
    if b == [] then None
    else if b[|b| - 1] == NEWLINE then Some(|b| - 1)
    else LastNewline(b[..|b| - 1])
  }
}
