// POSIX paths, resolved by their text alone: what normalising keeps.
module Paths {
  import opened Wrappers

  // ----- segments ------------------------------------------------------------------

  predicate HasSlash(s: string) {
    exists i :: 0 <= i < |s| && s[i] == '/'
  }

  // The pieces between slashes, as `split` yields them: one more than the slashes.
  function Split(s: string): (segs: seq<string>)
    ensures segs != []
  {
    if s == "" then [""]
    else if s[0] == '/' then [""] + Split(s[1..])
    else
      var rest := Split(s[1..]);
      [[s[0]] + rest[0]] + rest[1..]
  }

  function Join(segs: seq<string>): string {
    if segs == [] then ""
    else if |segs| == 1 then segs[0]
    else segs[0] + "/" + Join(segs[1..])
  }

  lemma {:induction false} SplitHasNoSlashes(s: string)
    ensures forall i :: 0 <= i < |Split(s)| ==> !HasSlash(Split(s)[i])
  {
    if s != "" {
      SplitHasNoSlashes(s[1..]);
      if s[0] != '/' {
        var rest := Split(s[1..]);
        forall i | 0 <= i < |Split(s)|
          ensures !HasSlash(Split(s)[i])
        {
          if i > 0 {
            assert Split(s)[i] == rest[i];
          } else {
            assert forall k :: 1 <= k < |Split(s)[0]| ==> Split(s)[0][k] == rest[0][k - 1];
          }
        }
      }
    }
  }

  lemma {:induction false} SplitOfOne(seg: string)
    requires !HasSlash(seg)
    ensures Split(seg) == [seg]
  {
    if seg != "" {
      assert forall k :: 0 <= k < |seg[1..]| ==> seg[1..][k] == seg[k + 1];
      SplitOfOne(seg[1..]);
      assert [seg[0]] + seg[1..] == seg;
    }
  }

  lemma HeadOfConcat(c: char, x: seq<string>, y: seq<string>)
    requires x != []
    ensures [[c] + (x + y)[0]] + (x + y)[1..] == ([[c] + x[0]] + x[1..]) + y
  {
  }

  // Splitting at a slash between two texts.
  lemma {:induction false} SplitAtSlash(a: string, b: string)
    ensures Split(a + "/" + b) == Split(a) + Split(b)
  {
    var s := a + "/" + b;
    if a == "" {
      assert s[1..] == b;
    } else {
      assert s[0] == a[0] && s[1..] == a[1..] + "/" + b;
      SplitAtSlash(a[1..], b);
      HeadOfConcat(a[0], Split(a[1..]), Split(b));
    }
  }

  lemma {:induction false} SplitOfJoin(segs: seq<string>)
    requires segs != [] && forall i :: 0 <= i < |segs| ==> !HasSlash(segs[i])
    ensures Split(Join(segs)) == segs
  {
    SplitOfOne(segs[0]);
    if |segs| > 1 {
      SplitOfJoin(segs[1..]);
      SplitAtSlash(segs[0], Join(segs[1..]));
    }
  }

  // ----- walking -------------------------------------------------------------------------

  // A place in the tree: the names on the way to it from the root.
  type Place = seq<string>

  predicate IsName(s: string) {
    s != "" && s != "." && s != ".." && !HasSlash(s)
  }

  predicate IsPlace(place: Place) {
    forall i :: 0 <= i < |place| ==> IsName(place[i])
  }

  function Parent(place: Place): Place {
    if place == [] then [] else place[..|place| - 1]
  }

  function Step(place: Place, seg: string): Place {
    if seg == "" || seg == "." then place else if seg == ".." then Parent(place) else place + [seg]
  }

  function Walk(start: Place, segs: seq<string>): Place {
    if segs == [] then start else Step(Walk(start, segs[..|segs| - 1]), segs[|segs| - 1])
  }

  predicate IsAbsolute(p: string) {
    p != "" && p[0] == '/'
  }

  // Where a path leads from a working directory.
  function WalkPath(cwd: Place, p: string): Place {
    Walk(if IsAbsolute(p) then [] else cwd, Split(p))
  }

  // The path of a place.
  function PathOf(place: Place): string {
    "/" + Join(place)
  }

  lemma {:induction false} WalkConcat(start: Place, a: seq<string>, b: seq<string>)
    ensures Walk(start, a + b) == Walk(Walk(start, a), b)
  {
    if b == [] {
      assert a + b == a;
    } else {
      assert (a + b)[..|a + b| - 1] == a + b[..|b| - 1];
      WalkConcat(start, a, b[..|b| - 1]);
    }
  }

  lemma {:induction false} WalkIsPlace(start: Place, segs: seq<string>)
    requires IsPlace(start) && forall i :: 0 <= i < |segs| ==> !HasSlash(segs[i])
    ensures IsPlace(Walk(start, segs))
  {
    if segs != [] {
      WalkIsPlace(start, segs[..|segs| - 1]);
    }
  }

  lemma EmptySegmentStays(start: Place)
    ensures Walk(start, [""]) == start
  {
    var segs := [""];
    assert segs[..|segs| - 1] == [];
  }

  // ----- normalising ---------------------------------------------------------------------------

  // What one segment does to the stack.
  function Stacked(absolute: bool, stack: seq<string>, seg: string): seq<string> {
    if seg == "" || seg == "." then stack
    else if seg == ".." then
      if stack != [] && stack[|stack| - 1] != ".." then stack[..|stack| - 1]
      else if !absolute then stack + [".."] else stack
    else stack + [seg]
  }

  function StackOf(absolute: bool, segs: seq<string>): seq<string> {
    if segs == [] then [] else Stacked(absolute, StackOf(absolute, segs[..|segs| - 1]), segs[|segs| - 1])
  }

  predicate EndsInSlash(s: string) {
    s != "" && s[|s| - 1] == '/'
  }

  // The text of a stack.
  function Spelled(absolute: bool, trailingSlash: bool, stack: seq<string>): string {
    var out := (if absolute then "/" else "") + Join(stack);
    if out == "" then "." else if trailingSlash && !EndsInSlash(out) then out + "/" else out
  }

  function Normalize(p: string): string {
    if p == "" then "." else Spelled(IsAbsolute(p), EndsInSlash(p), StackOf(IsAbsolute(p), Split(p)))
  }

  method PosixNormalize(p: string) returns (out: string)
    ensures out == Normalize(p)
  {
    if p == "" {
      return ".";
    }
    var absolute := p[0] == '/';
    var trailingSlash := p[|p| - 1] == '/';
    var segs := Split(p);
    var stack: seq<string> := [];
    for i := 0 to |segs|
      invariant stack == StackOf(absolute, segs[..i])
    {
      assert segs[..i + 1][..i] == segs[..i];
      var seg := segs[i];
      if seg == "" || seg == "." {
        continue;
      }
      if seg == ".." {
        if |stack| > 0 && stack[|stack| - 1] != ".." {
          stack := stack[..|stack| - 1];
          continue;
        }
        if !absolute {
          stack := stack + [".."];
        }
      } else {
        stack := stack + [seg];
      }
    }
    assert segs[..|segs|] == segs;
    out := if absolute then "/" else "";
    out := out + Join(stack);
    if out == "" {
      return ".";
    }
    if trailingSlash && !EndsInSlash(out) {
      out := out + "/";
    }
  }

  function PosixJoin(a: string, b: string): string {
    if a == "" && b == "" then "."
    else Normalize(if a == "" then b else if b == "" then a else a + "/" + b)
  }

  function ExpandHome(p: string, home: string): string {
    if p == "" || p[0] != '~' then p else PosixJoin(home, p[1..])
  }

  // The other normaliser: always from the root, never a trailing slash.
  method NormalizeAbs(p: string) returns (out: string)
    ensures out == PathOf(Walk([], Split(p)))
  {
    var segs := Split(p);
    var stack: seq<string> := [];
    for i := 0 to |segs|
      invariant stack == Walk([], segs[..i])
    {
      assert segs[..i + 1][..i] == segs[..i];
      var seg := segs[i];
      if seg == "" || seg == "." {
      } else if seg == ".." {
        stack := if stack == [] then [] else stack[..|stack| - 1];
      } else {
        stack := stack + [seg];
      }
    }
    assert segs[..|segs|] == segs;
    out := if stack == [] then "/" else "/" + Join(stack);
  }

  // ----- normalising keeps the meaning -----------------------------------------------------------

  // Stacks: no empty or dot segments, and `..` only in front of a relative one.
  ghost predicate IsStack(absolute: bool, stack: seq<string>) {
    && (forall i :: 0 <= i < |stack| ==> stack[i] == ".." || IsName(stack[i]))
    && (forall i :: 0 <= i < |stack| && stack[i] == ".." ==> !absolute && (i > 0 ==> stack[i - 1] == ".."))
  }

  lemma {:induction false} StackOfIsStack(absolute: bool, segs: seq<string>)
    requires forall i :: 0 <= i < |segs| ==> !HasSlash(segs[i])
    ensures IsStack(absolute, StackOf(absolute, segs))
  {
    if segs != [] {
      StackOfIsStack(absolute, segs[..|segs| - 1]);
    }
  }

  // The stack leads where the segments lead, from the root or from anywhere.
  lemma {:induction false} StackWalks(absolute: bool, start: Place, segs: seq<string>)
    requires absolute ==> start == []
    requires forall i :: 0 <= i < |segs| ==> !HasSlash(segs[i])
    ensures Walk(start, StackOf(absolute, segs)) == Walk(start, segs)
  {
    if segs != [] {
      var init, seg := segs[..|segs| - 1], segs[|segs| - 1];
      var stack := StackOf(absolute, init);
      StackWalks(absolute, start, init);
      StackOfIsStack(absolute, init);
      StackedWalks(absolute, start, stack, seg);
    }
  }

  lemma StackedWalks(absolute: bool, start: Place, stack: seq<string>, seg: string)
    requires IsStack(absolute, stack) && (absolute ==> start == [])
    ensures Walk(start, Stacked(absolute, stack, seg)) == Step(Walk(start, stack), seg)
  {
    var next := Stacked(absolute, stack, seg);
    if next == stack + [seg] {
      assert next[..|next| - 1] == stack;
    } else if seg == ".." && stack != [] && stack[|stack| - 1] != ".." {
      var before := Walk(start, stack[..|stack| - 1]);
      assert Parent(before + [stack[|stack| - 1]]) == before;
    }
  }

  // The segments of a stack's text lead where the stack leads.
  lemma SpelledWalks(absolute: bool, trailingSlash: bool, stack: seq<string>, start: Place)
    requires IsStack(absolute, stack) && (absolute ==> start == [])
    ensures IsAbsolute(Spelled(absolute, trailingSlash, stack)) <==> absolute
    ensures Walk(start, Split(Spelled(absolute, trailingSlash, stack))) == Walk(start, stack)
  {
    var bare := (if absolute then "/" else "") + Join(stack);
    BareWalks(absolute, stack, start);
    if bare == "" {
      SplitOfOne(".");
      var dot := ["."];
      assert dot[..|dot| - 1] == [];
    } else if trailingSlash && !EndsInSlash(bare) {
      assert bare + "/" + "" == bare + "/";
      SplitAtSlash(bare, "");
      WalkConcat(start, Split(bare), [""]);
      EmptySegmentStays(Walk(start, stack));
    }
  }

  lemma BareWalks(absolute: bool, stack: seq<string>, start: Place)
    requires IsStack(absolute, stack) && (absolute ==> start == [])
    ensures
      var bare := (if absolute then "/" else "") + Join(stack);
      && (IsAbsolute(bare) <==> absolute) && (bare == "" ==> stack == [])
      && Walk(start, Split(bare)) == Walk(start, stack)
  {
    hide Walk, Split, Join, IsStack;
    JoinStarts(absolute, stack);
    JoinWalks(absolute, stack, start);
    if absolute {
      SlashedWalks(Join(stack), start);
    } else {
      NothingBefore(Join(stack));
    }
  }

  lemma NothingBefore(s: string)
    ensures "" + s == s
  {
  }

  lemma JoinWalks(absolute: bool, stack: seq<string>, start: Place)
    requires IsStack(absolute, stack)
    ensures Walk(start, Split(Join(stack))) == Walk(start, stack)
  {
    if stack != [] {
      SplitOfJoin(stack);
    } else {
      SplitOfOne(Join(stack));
      EmptySegmentStays(start);
    }
  }

  lemma SlashedWalks(joined: string, start: Place)
    ensures Walk(start, Split("/" + joined)) == Walk(start, Split(joined))
  {
    hide Walk, Split;
    NothingBefore("/");
    SplitAtSlash("", joined);
    SplitOfOne("");
    WalkConcat(start, [""], Split(joined));
    EmptySegmentStays(start);
  }

  // The text of a stack starts and ends with a character of a segment.
  lemma {:induction false} JoinStarts(absolute: bool, stack: seq<string>)
    requires IsStack(absolute, stack)
    ensures stack == [] <==> Join(stack) == ""
    ensures stack != [] ==> !IsAbsolute(Join(stack)) && !EndsInSlash(Join(stack))
  {
    if stack != [] {
      var first := stack[0];
      assert first != "" && first[0] != '/' && first[|first| - 1] != '/';
      if |stack| > 1 {
        var rest := stack[1..];
        JoinEnds(rest);
        assert rest[0] == stack[1];
      }
    }
  }

  lemma {:induction false} JoinEnds(segs: seq<string>)
    requires segs != [] && forall i :: 0 <= i < |segs| ==> segs[i] == ".." || IsName(segs[i])
    ensures Join(segs) != "" && !EndsInSlash(Join(segs))
  {
    var first := segs[0];
    assert first[|first| - 1] != '/';
    if |segs| > 1 {
      JoinEnds(segs[1..]);
    }
  }

  // Walking the normalised path from any directory reaches where the path does.
  lemma NormalizeKeepsTheWay(cwd: Place, p: string)
    ensures IsAbsolute(Normalize(p)) <==> IsAbsolute(p)
    ensures WalkPath(cwd, Normalize(p)) == WalkPath(cwd, p)
  {
    var start := if IsAbsolute(p) then [] else cwd;
    if p == "" {
      SplitOfOne(".");
      var dot := ["."];
      assert dot[..|dot| - 1] == [];
      EmptySegmentStays(cwd);
    } else {
      SplitHasNoSlashes(p);
      StackOfIsStack(IsAbsolute(p), Split(p));
      StackWalks(IsAbsolute(p), start, Split(p));
      SpelledWalks(IsAbsolute(p), EndsInSlash(p), StackOf(IsAbsolute(p), Split(p)), start);
    }
  }

  // ----- normalising is idempotent ------------------------------------------------------------------

  lemma {:induction false} StackOfConcat(absolute: bool, a: seq<string>, b: seq<string>)
    requires forall i :: 0 <= i < |b| ==> b[i] == "" || b[i] == "."
    ensures StackOf(absolute, a + b) == StackOf(absolute, a)
  {
    if b == [] {
      assert a + b == a;
    } else {
      assert (a + b)[..|a + b| - 1] == a + b[..|b| - 1];
      StackOfConcat(absolute, a, b[..|b| - 1]);
    }
  }

  lemma {:induction false} StackOfStack(absolute: bool, front: seq<string>, stack: seq<string>)
    requires IsStack(absolute, stack) && forall i :: 0 <= i < |front| ==> front[i] == ""
    ensures StackOf(absolute, front + stack) == stack
  {
    if stack == [] {
      assert front + stack == front;
      StackOfBlanks(absolute, front);
    } else {
      var init := stack[..|stack| - 1];
      assert (front + stack)[..|front + stack| - 1] == front + init;
      StackOfStack(absolute, front, init);
      assert stack == init + [stack[|stack| - 1]];
      if stack[|stack| - 1] == ".." && init != [] {
        assert init[|init| - 1] == stack[|stack| - 2] == "..";
      }
    }
  }

  lemma {:induction false} StackOfBlanks(absolute: bool, segs: seq<string>)
    requires forall i :: 0 <= i < |segs| ==> segs[i] == "" || segs[i] == "."
    ensures StackOf(absolute, segs) == []
  {
    if segs != [] {
      StackOfBlanks(absolute, segs[..|segs| - 1]);
    }
  }

  lemma BareStack(absolute: bool, stack: seq<string>)
    requires IsStack(absolute, stack)
    ensures StackOf(absolute, Split((if absolute then "/" else "") + Join(stack))) == stack
  {
    var joined := Join(stack);
    if absolute {
      assert "" + "/" + joined == "/" + joined;
      SplitAtSlash("", joined);
    } else {
      assert "" + joined == joined;
    }
    if stack == [] {
      StackOfBlanks(absolute, Split((if absolute then "/" else "") + joined));
    } else {
      SplitOfJoin(stack);
      var front: seq<string> := if absolute then [""] else [];
      assert Split((if absolute then "/" else "") + joined) == front + stack;
      StackOfStack(absolute, front, stack);
    }
  }

  lemma SpelledStack(absolute: bool, trailingSlash: bool, stack: seq<string>)
    requires IsStack(absolute, stack)
    ensures StackOf(absolute, Split(Spelled(absolute, trailingSlash, stack))) == stack
  {
    var bare := (if absolute then "/" else "") + Join(stack);
    BareStack(absolute, stack);
    JoinStarts(absolute, stack);
    if bare == "" {
      SplitOfOne(".");
      StackOfBlanks(absolute, Split("."));
    } else if trailingSlash && !EndsInSlash(bare) {
      assert bare + "/" + "" == bare + "/";
      SplitAtSlash(bare, "");
      StackOfConcat(absolute, Split(bare), [""]);
    }
  }

  // What the normalised path ends in: a slash stays only where a segment precedes it,
  // and the root is one.
  lemma SlashesAtTheEnd(absolute: bool, trailingSlash: bool, stack: seq<string>)
    requires IsStack(absolute, stack)
    ensures EndsInSlash(Spelled(absolute, trailingSlash, stack)) <==> if stack == [] then absolute else trailingSlash
  {
    JoinStarts(absolute, stack);
    if stack != [] {
      var joined, bare := Join(stack), (if absolute then "/" else "") + Join(stack);
      assert bare[|bare| - 1] == joined[|joined| - 1];
    }
  }

  // A trailing slash is kept exactly where a segment is left in front of it; "./" loses
  // its slash and becomes ".".
  lemma TrailingSlashKept(p: string)
    requires p != ""
    ensures EndsInSlash(Normalize(p)) <==>
      if StackOf(IsAbsolute(p), Split(p)) == [] then IsAbsolute(p) else EndsInSlash(p)
    ensures Normalize("./") == "."
  {
    SplitHasNoSlashes(p);
    StackOfIsStack(IsAbsolute(p), Split(p));
    SlashesAtTheEnd(IsAbsolute(p), EndsInSlash(p), StackOf(IsAbsolute(p), Split(p)));
    var dot := "./";
    assert "." + "/" + "" == dot;
    SplitAtSlash(".", "");
    SplitOfOne(".");
    StackOfBlanks(false, Split(dot));
  }

  lemma NormalizeIsIdempotent(p: string)
    ensures Normalize(Normalize(p)) == Normalize(p)
  {
    if p == "" {
      SplitOfOne(".");
      StackOfBlanks(false, Split("."));
    } else {
      var absolute, trailing := IsAbsolute(p), EndsInSlash(p);
      var stack := StackOf(absolute, Split(p));
      SplitHasNoSlashes(p);
      StackOfIsStack(absolute, Split(p));
      NormalizeKeepsTheWay([], p);
      SpelledStack(absolute, trailing, stack);
      SlashesAtTheEnd(absolute, trailing, stack);
      RespelledSame(absolute, trailing, stack);
    }
  }

  lemma RespelledSame(absolute: bool, trailingSlash: bool, stack: seq<string>)
    requires IsStack(absolute, stack)
    ensures
      var out := Spelled(absolute, trailingSlash, stack);
      out != "" && Spelled(absolute, EndsInSlash(out), stack) == out
  {
    SlashesAtTheEnd(absolute, trailingSlash, stack);
    JoinStarts(absolute, stack);
  }

  // ----- the two normalisers agree ------------------------------------------------------------------

  function DropSlash(p: string): string {
    if |p| > 1 && EndsInSlash(p) then p[..|p| - 1] else p
  }

  lemma {:induction false} AbsoluteStack(segs: seq<string>)
    requires forall i :: 0 <= i < |segs| ==> !HasSlash(segs[i])
    ensures StackOf(true, segs) == Walk([], segs)
  {
    if segs != [] {
      AbsoluteStack(segs[..|segs| - 1]);
      StackOfIsStack(true, segs[..|segs| - 1]);
    }
  }

  // On an absolute path they differ by a trailing slash at most.
  lemma NormalizersAgree(p: string)
    requires IsAbsolute(p)
    ensures DropSlash(Normalize(p)) == PathOf(WalkPath([], p))
  {
    var stack := StackOf(true, Split(p));
    SplitHasNoSlashes(p);
    AbsoluteStack(Split(p));
    StackOfIsStack(true, Split(p));
    JoinStarts(true, stack);
    if stack != [] {
      var joined, bare := Join(stack), "/" + Join(stack);
      assert bare[|bare| - 1] == joined[|joined| - 1];
      assert (bare + "/")[..|bare|] == bare;
    }
  }

  // ----- joining and resolving -------------------------------------------------------------------------

  // Joining walks the second path from where the first leads.
  ghost predicate WalksOn(cwd: Place, joined: string, a: string, b: string) {
    WalkPath(cwd, joined) == Walk(WalkPath(cwd, a), Split(b))
  }

  lemma JoinWalksFrom(cwd: Place, a: string, b: string)
    requires a != "" || !IsAbsolute(b)
    ensures WalksOn(cwd, PosixJoin(a, b), a, b)
  {
    if a == "" {
      SplitOfOne(a);
      EmptySegmentStays(cwd);
      NormalizeKeepsTheWay(cwd, b);
      if b == "" {
        SplitOfOne(".");
        DotStays(cwd);
      }
    } else if b == "" {
      NormalizeKeepsTheWay(cwd, a);
      EmptySegmentStays(WalkPath(cwd, a));
    } else {
      var joined := a + "/" + b;
      NormalizeKeepsTheWay(cwd, joined);
      SplitAtSlash(a, b);
      WalkConcat(if IsAbsolute(a) then [] else cwd, Split(a), Split(b));
    }
  }

  lemma DotStays(start: Place)
    ensures Walk(start, ["."]) == start
  {
    var segs := ["."];
    assert segs[..|segs| - 1] == [];
  }

  lemma {:induction false} WalkLength(start: Place, segs: seq<string>)
    ensures |start| - |segs| <= |Walk(start, segs)| <= |start| + |segs|
  {
    if segs != [] {
      WalkLength(start, segs[..|segs| - 1]);
    }
  }

  // With no first path an absolute second one walks from the root instead, which no deep
  // enough working directory can take for itself.
  lemma JoinFromTheRoot(cwd: Place, b: string)
    requires IsAbsolute(b) && |cwd| > 2 * |Split(b)|
    ensures !WalksOn(cwd, PosixJoin("", b), "", b)
  {
    SplitOfOne("");
    EmptySegmentStays(cwd);
    NormalizeKeepsTheWay(cwd, b);
    WalkLength([], Split(b));
    WalkLength(cwd, Split(b));
  }

  function Deep(n: nat): (place: Place)
    ensures |place| == n && IsPlace(place)
  {
    seq(n, _ => "d")
  }

  // From every working directory alike joining walks on, even when the second path starts
  // with a slash, if and only if there is a first path or the second does not.
  lemma JoinWalksOn(a: string, b: string)
    ensures (forall cwd :: IsPlace(cwd) ==> WalksOn(cwd, PosixJoin(a, b), a, b)) <==> a != "" || !IsAbsolute(b)
  {
    if a != "" || !IsAbsolute(b) {
      forall cwd | IsPlace(cwd)
        ensures WalksOn(cwd, PosixJoin(a, b), a, b)
      {
        JoinWalksFrom(cwd, a, b);
      }
    } else {
      var cwd := Deep(2 * |Split(b)| + 1);
      JoinFromTheRoot(cwd, b);
      assert !WalksOn(cwd, PosixJoin(a, b), a, b);
    }
  }

  // A tilde stands for the home directory, whatever follows it, if and only if that is not
  // an absolute path after an empty home.
  lemma ExpandHomeWalksFromHome(home: string, rest: string)
    ensures (forall cwd :: IsPlace(cwd) ==> WalksOn(cwd, ExpandHome("~" + rest, home), home, rest))
       <==> home != "" || !IsAbsolute(rest)
  {
    assert ("~" + rest)[1..] == rest;
    hide WalksOn, PosixJoin, IsAbsolute;
    JoinWalksOn(home, rest);
  }

  // The input at which it does not: from the directory `x`, no first path and `/y`.
  lemma EmptyJoin()
    ensures WalkPath(["x"], PosixJoin("", "/y")) == ["y"]
    ensures Walk(WalkPath(["x"], ""), Split("/y")) == ["x", "y"]
  {
    var x: Place := ["x"];
    SplitOfOne("");
    EmptySegmentStays(x);
    NormalizeKeepsTheWay(x, "/y");
    SplitOfOne("y");
    assert "" + "/" + "y" == "/y";
    SplitAtSlash("", "y");
    TwoSegments([], "y");
    TwoSegments(x, "y");
  }

  lemma TwoSegments(start: Place, name: string)
    requires IsName(name)
    ensures Walk(start, ["", name]) == start + [name]
  {
    var segs := ["", name];
    assert segs[..|segs| - 1] == [""];
    EmptySegmentStays(start);
  }

  method JsResolve1(p: string, cwd: string) returns (out: string)
    requires IsAbsolute(cwd)
    ensures out == PathOf(WalkPath(WalkPath([], cwd), p))
  {
    if IsAbsolute(p) {
      out := NormalizeAbs(p);
    } else {
      out := NormalizeAbs(cwd + "/" + p);
      SplitAtSlash(cwd, p);
      WalkConcat([], Split(cwd), Split(p));
    }
  }

  // Resolving walks the base from the working directory, and then the path.
  method JsResolve2(base: string, p: string, cwd: string) returns (out: string)
    requires IsAbsolute(cwd)
    ensures out == PathOf(WalkPath(WalkPath(WalkPath([], cwd), base), p))
  {
    if IsAbsolute(p) {
      out := NormalizeAbs(p);
    } else if IsAbsolute(base) {
      out := NormalizeAbs(base + "/" + p);
      SplitAtSlash(base, p);
      WalkConcat([], Split(base), Split(p));
    } else {
      out := NormalizeAbs(cwd + "/" + base + "/" + p);
      SplitAtSlash(cwd, base);
      SplitAtSlash(cwd + "/" + base, p);
      WalkConcat([], Split(cwd), Split(base));
      WalkConcat([], Split(cwd) + Split(base), Split(p));
    }
  }

  // ----- upwards ------------------------------------------------------------------------------------------

  function TrimSlashes(s: string): string {
    if EndsInSlash(s) then TrimSlashes(s[..|s| - 1]) else s
  }

  function LastSlash(s: string): (r: Option<nat>)
    ensures r.Some? ==> r.value < |s| && s[r.value] == '/' && forall k :: r.value < k < |s| ==> s[k] != '/'
    ensures r.None? ==> !HasSlash(s)
  {
    if s == "" then None else if EndsInSlash(s) then Some(|s| - 1) else LastSlash(s[..|s| - 1])
  }

  function JsDirname(p: string): string {
    var trimmed := TrimSlashes(p);
    if trimmed == "" then "/"
    else match LastSlash(trimmed)
      case Some(i) => if i == 0 then "/" else trimmed[..i]
      case None => "."
  }

  lemma LastSlashIs(s: string, i: nat)
    requires i < |s| && s[i] == '/' && forall k :: i < k < |s| ==> s[k] != '/'
    ensures LastSlash(s) == Some(i)
  {
  }

  lemma {:induction false} JoinLast(place: Place, name: string)
    requires IsPlace(place) && place != []
    ensures Join(place + [name]) == Join(place) + "/" + name
  {
    if |place| > 1 {
      assert (place + [name])[1..] == place[1..] + [name];
      JoinLast(place[1..], name);
    } else {
      assert (place + [name])[1..] == [name];
    }
  }

  lemma DirnameOf(above: string, name: string)
    requires name != "" && !HasSlash(name)
    ensures JsDirname(above + "/" + name) == if above == "" then "/" else above
  {
    var p, i := above + "/" + name, |above|;
    assert p[|p| - 1] == name[|name| - 1];
    assert TrimSlashes(p) == p;
    assert forall k :: i < k < |p| ==> p[k] == name[k - i - 1];
    LastSlashIs(p, i);
  }

  lemma DirnameOfRoot()
    ensures JsDirname("/") == "/"
  {
    var root := "/";
    assert root[..|root| - 1] == "";
    assert TrimSlashes(root) == "";
  }

  // The directory above a place is its parent's path, shorter until the root is reached.
  lemma DirnameIsParent(place: Place)
    requires IsPlace(place)
    ensures JsDirname(PathOf(place)) == PathOf(Parent(place))
    ensures place != [] ==> |PathOf(Parent(place))| < |PathOf(place)|
  {
    hide JsDirname, PathOf;
    if place == [] {
      NoWay(place);
      DirnameOfRoot();
    } else {
      var parent, name := Parent(place), place[|place| - 1];
      assert place == parent + [name];
      PathOfChild(parent, name);
      DirnameOf(if parent == [] then "" else PathOf(parent), name);
      NoWay(parent);
    }
  }

  lemma NoWay(place: Place)
    ensures PathOf(place) != "" && (place == [] ==> PathOf(place) == "/")
  {
  }

  lemma PathOfChild(parent: Place, name: string)
    requires IsPlace(parent)
    ensures PathOf(parent + [name]) == (if parent == [] then "" else PathOf(parent)) + "/" + name
  {
    if parent == [] {
      assert parent + [name] == [name];
      assert "" + "/" + name == "/" + name;
    } else {
      JoinLast(parent, name);
      hide Join;
      assert "/" + (Join(parent) + "/" + name) == "/" + Join(parent) + "/" + name;
    }
  }

  datatype Found = IsDirectory | IsOther | IsMissing

  // Where the search for a repository starts.
  function SearchFrom(place: Place, kind: Found): Place {
    if kind == IsOther then Parent(place) else place
  }

  ghost predicate NoGitBelow(from: Place, k: nat, holdsGit: string -> bool) {
    forall j :: k < j <= |from| ==> !holdsGit(PathOf(from[..j]))
  }

  // The answer is the nearest directory at or above `from` that holds a repository,
  // and none only if neither it nor any above it does.
  ghost predicate IsNearestGit(from: Place, root: Option<string>, holdsGit: string -> bool) {
    match root
    case Some(path) => exists k ::
      0 <= k <= |from| && path == PathOf(from[..k]) && holdsGit(path) && NoGitBelow(from, k, holdsGit)
    case None => NoGitBelow(from, 0, holdsGit) && !holdsGit(PathOf(from[..0]))
  }

  // `kind` and `holdsGit` are what the file system says: of the location, and of each
  // directory above it.
  method RepositoryRoot(location: string, kind: Found, cwd: string,
                        holdsGit: string -> bool) returns (root: Option<string>)
    requires IsAbsolute(cwd)
    ensures IsNearestGit(SearchFrom(WalkPath(WalkPath([], cwd), location), kind), root, holdsGit)
  {
    var current := JsResolve1(location, cwd);
    ghost var place := WalkPath(WalkPath([], cwd), location);
    ResolvedIsPlace(cwd, location);
    if kind == IsOther {
      current := JsDirname(current);
      DirnameIsParent(place);
    }
    root := ClimbToGit(current, SearchFrom(place, kind), holdsGit);
  }

  // Upwards until the parent is the directory itself; every step is strictly shorter.
  method ClimbToGit(start: string, ghost from: Place, holdsGit: string -> bool) returns (root: Option<string>)
    requires IsPlace(from) && start == PathOf(from)
    ensures IsNearestGit(from, root, holdsGit)
  {
    var current := start;
    ghost var k: nat := |from|;
    assert from[..k] == from;
    while true
      invariant k <= |from| && current == PathOf(from[..k]) && NoGitBelow(from, k, holdsGit)
      decreases |current|
    {
      Upwards(from, k);
      ClimbStep(from, k, holdsGit);
      if holdsGit(current) {
        return Some(current);
      }
      var parent := JsDirname(current);
      if parent == current {
        return None;
      }
      current := parent;
      k := k - 1;
    }
  }

  // Where the search stands: a repository here is the nearest; none here, and the
  // search goes on one up, or ends at the root.
  lemma ClimbStep(from: Place, k: nat, holdsGit: string -> bool)
    requires k <= |from| && NoGitBelow(from, k, holdsGit)
    ensures holdsGit(PathOf(from[..k])) ==> IsNearestGit(from, Some(PathOf(from[..k])), holdsGit)
    ensures !holdsGit(PathOf(from[..k])) ==>
      if k > 0 then NoGitBelow(from, k - 1, holdsGit) else IsNearestGit(from, None, holdsGit)
  {
    hide PathOf;
  }

  lemma Upwards(from: Place, k: nat)
    requires IsPlace(from) && k <= |from|
    ensures k == 0 ==> JsDirname(PathOf(from[..k])) == PathOf(from[..k])
    ensures k > 0 ==>
      JsDirname(PathOf(from[..k])) == PathOf(from[..k - 1]) && |PathOf(from[..k - 1])| < |PathOf(from[..k])|
  {
    DirnameIsParent(from[..k]);
    if k > 0 {
      assert Parent(from[..k]) == from[..k - 1];
    }
  }

  lemma ResolvedIsPlace(cwd: string, p: string)
    ensures IsPlace(WalkPath(WalkPath([], cwd), p))
  {
    SplitHasNoSlashes(cwd);
    SplitHasNoSlashes(p);
    WalkIsPlace([], Split(cwd));
    WalkIsPlace(if IsAbsolute(p) then [] else WalkPath([], cwd), Split(p));
  }
}
