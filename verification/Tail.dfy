// Tailing a growing JSONL file: the offset moves only through the last newline,
// so what is read does not depend on how the writes were cut up.
module Tail {
  import opened Basics
  import opened Wrappers
  import opened JsonLines

  // A tick never reads more than this from one file.
  const MAX_READ_PER_FILE: nat := 5 * 1024 * 1024

  // ----- one poll -----------------------------------------------------------------

  // What one poll meets: the size seen first, the bytes on disk when it reads, and
  // how many bytes each read call is willing to return.
  datatype Poll = Poll(size: nat, disk: seq<byte>, chunks: seq<nat>)

  // How far the read loop gets into `room` bytes; a zero-byte read ends it.
  function Fill(chunks: seq<nat>, room: nat): (n: nat)
    ensures n <= room
  {
    if chunks == [] || chunks[0] == 0 || room == 0 then 0
    else Min(chunks[0], room) + Fill(chunks[1..], room - Min(chunks[0], room))
  }

  function StartAt(prev: nat, size: nat): nat
    requires prev < size
  {
    if size - prev > MAX_READ_PER_FILE then size - MAX_READ_PER_FILE else prev
  }

  function Room(start: nat, p: Poll): nat
    requires start <= p.size
  {
    Min(p.size - start, if start <= |p.disk| then |p.disk| - start else 0)
  }

  // What the read loop has put into the buffer when it ends.
  function Buffer(start: nat, p: Poll): (b: seq<byte>)
    requires start <= p.size
    ensures |b| <= p.size - start
  {
    if start <= |p.disk| then p.disk[start..start + Fill(p.chunks, Room(start, p))] else []
  }

  // The lines found, and the new offset; the first sight of a file reads nothing.
  function Read(prev: Option<nat>, p: Poll): (seq<Line>, nat) {
    if prev.None? then ([], p.size)
    else if p.size <= prev.value then ([], p.size)
    else
      var start := StartAt(prev.value, p.size);
      var buf := Buffer(start, p);
      match LastNewline(buf)
      case None => ([], start)
      case Some(k) => (Split(buf[..k]), start + k + 1)
  }

  // Lines that do not parse are dropped.
  function ParseAll<Row>(lines: seq<Line>, parse: Line -> Option<Row>): seq<Row> {
    if lines == [] then []
    else
      var before := ParseAll(lines[..|lines| - 1], parse);
      match parse(lines[|lines| - 1])
      case Some(row) => before + [row]
      case None => before
  }

  // One file looked at: `None` when its metadata cannot be read, and `readable` false
  // when opening or reading it fails. Neither touches the offset.
  function ReadFile(offsets: map<string, nat>, name: string, poll: Option<Poll>,
                    readable: bool): (seq<Line>, map<string, nat>) {
    var prev := if name in offsets then Some(offsets[name]) else None;
    if poll.None? || (!readable && prev.Some? && prev.value < poll.value.size) then ([], offsets)
    else
      var (lines, offset) := Read(prev, poll.value);
      (lines, offsets[name := offset])
  }

  lemma FillStep(chunks: seq<nat>, i: nat, room: nat)
    requires i < |chunks|
    ensures
      var n := Min(chunks[i], room);
      Fill(chunks[i..], room) == if n == 0 then 0 else n + Fill(chunks[i + 1..], room - n)
  {
    assert chunks[i..][0] == chunks[i] && chunks[i..][1..] == chunks[i + 1..];
  }

  lemma FillEnd(chunks: seq<nat>, i: nat, room: nat)
    requires i <= |chunks|
    ensures i == |chunks| || room == 0 ==> Fill(chunks[i..], room) == 0
  {
  }

  // What is left of the room is what both the size and the disk leave.
  lemma RoomLeft(start: nat, p: Poll, k: nat)
    requires start <= p.size && k <= Room(start, p)
    ensures Room(start, p) - k ==
            Min(p.size - start - k, if start + k <= |p.disk| then |p.disk| - start - k else 0)
    ensures start <= |p.disk| ==> start + Room(start, p) <= |p.disk|
    ensures start > |p.disk| ==> Room(start, p) == 0
  {
  }

  class Tailer {
    var offsets: map<string, nat>

    constructor ()
      ensures offsets == map[]
    {
      offsets := map[];
    }

    // Fill the buffer by as many read calls as it takes.
    static method FillBuffer(start: nat, p: Poll) returns (buf: seq<byte>)
      requires start <= p.size
      ensures buf == Buffer(start, p)
    {
      hide Fill, Room;
      RoomLeft(start, p, 0);
      buf := [];
      var calls := 0;
      var len := p.size - start;
      ghost var room := Room(start, p);
      while |buf| < len && calls < |p.chunks|
        invariant calls <= |p.chunks|
        invariant |buf| <= room && (start <= |p.disk| ==> buf == p.disk[start..start + |buf|])
        invariant |buf| + Fill(p.chunks[calls..], room - |buf|) == Fill(p.chunks, room)
        decreases |p.chunks| - calls
      {
        var left := if start + |buf| <= |p.disk| then |p.disk| - start - |buf| else 0;
        var n := Min(p.chunks[calls], Min(len - |buf|, left));
        RoomLeft(start, p, |buf|);
        FillStep(p.chunks, calls, room - |buf|);
        if n == 0 {
          break;
        }
        buf := buf + p.disk[start + |buf|..start + |buf| + n];
        calls := calls + 1;
      }
      RoomLeft(start, p, |buf|);
      FillEnd(p.chunks, calls, room - |buf|);
    }

    method ReadNewLines<Row>(name: string, poll: Option<Poll>, readable: bool,
                             parse: Line -> Option<Row>) returns (rows: seq<Row>)
      modifies this
      ensures rows == ParseAll(ReadFile(old(offsets), name, poll, readable).0, parse)
      ensures offsets == ReadFile(old(offsets), name, poll, readable).1
    {
      rows := [];
      if poll.None? {
        return;
      }
      var p := poll.value;
      if name !in offsets {
        offsets := offsets[name := p.size];
        return;
      }
      var prev := offsets[name];
      if p.size <= prev {
        offsets := offsets[name := Min(prev, p.size)];
        return;
      }
      var start := StartAt(prev, p.size);
      if !readable {
        return;
      }
      var buf := FillBuffer(start, p);
      var last := LastNewline(buf);
      if last.None? {
        offsets := offsets[name := start];
        return;
      }
      offsets := offsets[name := start + last.value + 1];
      var lines := Split(buf[..last.value]);
      for i := 0 to |lines|
        invariant rows == ParseAll(lines[..i], parse)
      {
        assert lines[..i + 1][..i] == lines[..i];
        match parse(lines[i]) {
          case Some(row) => rows := rows + [row];
          case None =>
        }
      }
      assert lines[..|lines|] == lines;
    }
  }

  // ----- many polls of a growing file ----------------------------------------------------

  // The offset after the polls, and everything read so far.
  function ReadAll(polls: seq<Poll>): (Option<nat>, seq<Line>) {
    if polls == [] then (None, [])
    else
      var (prev, before) := ReadAll(polls[..|polls| - 1]);
      var (lines, offset) := Read(prev, polls[|polls| - 1]);
      (Some(offset), before + lines)
  }

  // The file only grows, also between looking at its size and reading it.
  ghost predicate Growing(polls: seq<Poll>) {
    && (forall i :: 0 <= i < |polls| ==> polls[i].size <= |polls[i].disk|)
    && (forall i :: 0 <= i < |polls| - 1 ==> |polls[i].disk| <= polls[i + 1].size && polls[i].disk <= polls[i + 1].disk)
  }

  // No poll finds more than it may read.
  ghost predicate WithinLimit(polls: seq<Poll>) {
    forall i :: 0 < i < |polls| ==> polls[i].size <= ReadAll(polls[..i]).0.value + MAX_READ_PER_FILE
  }

  // The last poll read all it had room for.
  ghost predicate ReadFully(polls: seq<Poll>)
    requires |polls| > 0
  {
    var p := polls[|polls| - 1];
    forall start :: 0 <= start <= p.size ==> Fill(p.chunks, Room(start, p)) == Room(start, p)
  }

  // No newline from `lo` up to `hi`.
  ghost predicate Unbroken(b: seq<byte>, lo: nat, hi: nat)
    requires hi <= |b|
  {
    forall k :: lo <= k < hi ==> b[k] != NEWLINE
  }

  // Where a poll leaves the offset (on a line boundary, inside the file, and past
  // every newline it could see), and what it returns: the complete lines it passed.
  lemma PollResult(o: nat, p: Poll) returns (read: seq<Line>, o': nat)
    requires o <= p.size <= |p.disk| && p.size <= o + MAX_READ_PER_FILE
    ensures Read(Some(o), p) == (read, o') && PassedOver(o, p, o', read)
  {
    var last := LastNewline(Buffer(o, p));
    if p.size == o || last.None? {
      read, o' := [], o;
      NothingComplete(o, p);
    } else {
      read, o' := Split(Buffer(o, p)[..last.value]), o + last.value + 1;
      UpToNewline(o, p, last.value);
    }
  }

  ghost predicate PassedOver(o: nat, p: Poll, o': nat, read: seq<Line>) {
    && o <= o' <= p.size <= |p.disk|
    && (o' == o || p.disk[o' - 1] == NEWLINE)
    && read == Lines(p.disk[o..o'])
    && (Fill(p.chunks, Room(o, p)) == Room(o, p) ==> Unbroken(p.disk, o', p.size))
  }

  lemma NothingComplete(o: nat, p: Poll)
    requires o <= p.size <= |p.disk| && (p.size == o || LastNewline(Buffer(o, p)).None?)
    ensures PassedOver(o, p, o, [])
  {
    assert p.disk[o..o] == [];
    forall k | o <= k < o + |Buffer(o, p)|
      ensures p.disk[k] != NEWLINE
    {
      assert p.disk[k] == Buffer(o, p)[k - o];
    }
  }

  lemma UpToNewline(o: nat, p: Poll, k: nat)
    requires o <= p.size <= |p.disk| && LastNewline(Buffer(o, p)) == Some(k)
    ensures k < |Buffer(o, p)| && PassedOver(o, p, o + k + 1, Split(Buffer(o, p)[..k]))
  {
    hide Lines, Split, Fill;
    var buf := Buffer(o, p);
    SplitIsLines(buf[..k]);
    assert buf[..k] + [NEWLINE] == p.disk[o..o + k + 1];
    forall i | o + k + 1 <= i < o + |buf|
      ensures p.disk[i] != NEWLINE
    {
      assert p.disk[i] == buf[i - o];
    }
  }

  // ----- what any number of polls has read -------------------------------------------------

  // On a line boundary, past the first sight and inside the file.
  ghost predicate Stands(first: nat, p: Poll, offset: nat) {
    && first <= offset <= p.size <= |p.disk|
    && (offset == first || p.disk[offset - 1] == NEWLINE)
  }

  ghost predicate OffsetExact(polls: seq<Poll>)
    requires |polls| > 0
  {
    && ReadAll(polls).0.Some?
    && Stands(polls[0].size, polls[|polls| - 1], ReadAll(polls).0.value)
  }

  // The lines read are exactly the complete lines between the first-sight offset
  // and the current one, once each and in order.
  ghost predicate LinesExact(polls: seq<Poll>)
    requires |polls| > 0 && OffsetExact(polls)
  {
    ReadAll(polls).1 == Lines(polls[|polls| - 1].disk[polls[0].size..ReadAll(polls).0.value])
  }

  lemma AppendPoll(polls: seq<Poll>, o: nat, lines: seq<Line>) returns (read: seq<Line>, o': nat)
    requires |polls| > 1 && ReadAll(polls[..|polls| - 1]) == (Some(o), lines)
    requires
      var p := polls[|polls| - 1];
      o <= p.size <= |p.disk| && p.size <= o + MAX_READ_PER_FILE
    ensures ReadAll(polls) == (Some(o'), lines + read) && PassedOver(o, polls[|polls| - 1], o', read)
  {
    read, o' := PollResult(o, polls[|polls| - 1]);
  }

  // What the assumptions say of the last poll and of the polls before it.
  lemma DropLastPoll(polls: seq<Poll>)
    requires |polls| > 1 && Growing(polls) && WithinLimit(polls)
    ensures
      var n, init := |polls|, polls[..|polls| - 1];
      && Growing(init) && WithinLimit(init)
      && polls[n - 2].disk <= polls[n - 1].disk && |polls[n - 2].disk| <= polls[n - 1].size <= |polls[n - 1].disk|
      && polls[n - 1].size <= ReadAll(init).0.value + MAX_READ_PER_FILE
  {
    var init := polls[..|polls| - 1];
    assert forall i :: 0 < i < |init| ==> init[..i] == polls[..i];
  }

  // One more poll, `p` after `q`: the new offset stands, and what it read joins on.
  lemma OneMorePoll(first: nat, q: Poll, p: Poll, o: nat, lines: seq<Line>, o': nat, read: seq<Line>)
    requires Stands(first, q, o) && lines == Lines(q.disk[first..o])
    requires q.disk <= p.disk && PassedOver(o, p, o', read)
    ensures Stands(first, p, o') && lines + read == Lines(p.disk[first..o'])
  {
    assert q.disk[first..o] == p.disk[first..o];
    assert o > first ==> p.disk[o - 1] == q.disk[o - 1];
    LinesJoin(p.disk, first, o, o');
  }

  lemma LinesJoin(disk: seq<byte>, first: nat, o: nat, o': nat)
    requires first <= o <= o' <= |disk| && (o == first || disk[o - 1] == NEWLINE)
    ensures Lines(disk[first..o']) == Lines(disk[first..o]) + Lines(disk[o..o'])
  {
    assert disk[first..o'] == disk[first..o] + disk[o..o'];
    assert o > first ==> disk[first..o][o - first - 1] == disk[o - 1];
    LinesConcat(disk[first..o], disk[o..o']);
  }

  lemma {:induction false} TailIsExact(polls: seq<Poll>)
    requires |polls| > 0 && Growing(polls) && WithinLimit(polls)
    ensures OffsetExact(polls) && LinesExact(polls)
    ensures |polls| > 1 ==>
      OffsetExact(polls[..|polls| - 1]) && ReadAll(polls[..|polls| - 1]).0.value <= ReadAll(polls).0.value
  {
    var n := |polls|;
    var p := polls[n - 1];
    if n == 1 {
      assert polls[..0] == [];
      assert p.disk[p.size..p.size] == [];
    } else {
      var init := polls[..n - 1];
      DropLastPoll(polls);
      TailIsExact(init);
      var o, lines := ReadAll(init).0.value, ReadAll(init).1;
      var read, o' := AppendPoll(polls, o, lines);
      OneMorePoll(polls[0].size, init[n - 2], p, o, lines, o', read);
    }
  }

  // After a poll that read all it had room for, no complete line is left unread.
  lemma NothingCompleteIsLeft(polls: seq<Poll>)
    requires |polls| > 0 && Growing(polls) && WithinLimit(polls) && ReadFully(polls)
    ensures OffsetExact(polls) && Unbroken(polls[|polls| - 1].disk, ReadAll(polls).0.value, polls[|polls| - 1].size)
  {
    TailIsExact(polls);
    var n := |polls|;
    var p := polls[n - 1];
    if n == 1 {
      assert polls[..0] == [];
    } else {
      var init := polls[..n - 1];
      DropLastPoll(polls);
      TailIsExact(init);
      var o := ReadAll(init).0.value;
      var _, o' := AppendPoll(polls, o, ReadAll(init).1);
      assert Fill(p.chunks, Room(o, p)) == Room(o, p);
    }
  }

  // The offset never moves back, nor past the end of the file.
  lemma OffsetNeverDecreases(polls: seq<Poll>)
    requires |polls| > 1 && Growing(polls) && WithinLimit(polls)
    ensures OffsetExact(polls) && OffsetExact(polls[..|polls| - 1])
    ensures ReadAll(polls[..|polls| - 1]).0.value <= ReadAll(polls).0.value <= polls[|polls| - 1].size
  {
    TailIsExact(polls);
  }

  // Two histories of the same file, however the writes and reads were cut up, read
  // the same lines and stop at the same offset.
  lemma ChunkingDoesNotMatter(a: seq<Poll>, b: seq<Poll>)
    requires |a| > 0 && Growing(a) && WithinLimit(a) && ReadFully(a)
    requires |b| > 0 && Growing(b) && WithinLimit(b) && ReadFully(b)
    requires a[0].size == b[0].size
    requires a[|a| - 1].disk == b[|b| - 1].disk && a[|a| - 1].size == b[|b| - 1].size
    ensures ReadAll(a) == ReadAll(b)
  {
    var x := TailSummary(a);
    var y := TailSummary(b);
    SameOffset(a[|a| - 1].disk, a[0].size, a[|a| - 1].size, x, y);
  }

  lemma TailSummary(polls: seq<Poll>) returns (o: nat)
    requires |polls| > 0 && Growing(polls) && WithinLimit(polls) && ReadFully(polls)
    ensures
      var first, p := polls[0].size, polls[|polls| - 1];
      && first <= o <= p.size <= |p.disk|
      && ReadAll(polls) == (Some(o), Lines(p.disk[first..o]))
      && (o == first || p.disk[o - 1] == NEWLINE)
      && Unbroken(p.disk, o, p.size)
  {
    hide Growing, WithinLimit, ReadFully, Unbroken, ReadAll, Lines;
    TailIsExact(polls);
    NothingCompleteIsLeft(polls);
    o := ReadAll(polls).0.value;
  }

  lemma SameOffset(disk: seq<byte>, first: nat, size: nat, x: nat, y: nat)
    requires first <= x <= size <= |disk| && first <= y <= size
    requires (x == first || disk[x - 1] == NEWLINE) && (y == first || disk[y - 1] == NEWLINE)
    requires Unbroken(disk, x, size) && Unbroken(disk, y, size)
    ensures x == y
  {
    assert y == first || x <= y - 1 < size ==> y <= x;
    assert x == first || y <= x - 1 < size ==> x <= y;
  }

  // ----- files that were cut, or grew too far ---------------------------------------------

  // A file that is shorter than the offset is taken as if it were sighted anew: what it has
  // then is passed over, and what comes after is read.
  lemma CutFilesAreSightedAnew(o: nat, p: Poll)
    requires p.size <= o
    ensures Read(Some(o), p) == Read(None, p)
  {
  }

  // A file that has grown by more than one read may take is read from that far before its
  // end on, complete lines and the end of the line that begins before; the rest is skipped.
  lemma FarBehindSkipsAhead(o: nat, start: nat, p: Poll) returns (read: seq<Line>, o': nat)
    requires o < start && p.size == start + MAX_READ_PER_FILE && p.size <= |p.disk|
    ensures Read(Some(o), p) == (read, o') && PassedOver(start, p, o', read)
  {
    hide Read, PassedOver;
    SameStart(o, start, p);
    read, o' := PollResult(start, p);
  }

  lemma SameStart(o: nat, start: nat, p: Poll)
    requires o < start && p.size == start + MAX_READ_PER_FILE
    ensures Read(Some(o), p) == Read(Some(start), p)
  {
    hide Buffer, LastNewline, Split;
  }
}
