// Two separately written lenient base64 decoders, and the encoding they undo.
module Base64 {
  import opened Arithmetic
  import opened Basics
  import opened Wrappers

  type Sextet = n: int | 0 <= n < 64

  // 32-bit words: a shift to the left loses what it pushes out.
  newtype word = w: int | 0 <= w < 0x1_0000_0000

  const PAD: char := '='

  function SextetOf(c: char): Option<Sextet> {
    if 'A' <= c <= 'Z' then Some((c - 'A') as int)
    else if 'a' <= c <= 'z' then Some((c - 'a') as int + 26)
    else if '0' <= c <= '9' then Some((c - '0') as int + 52)
    else if c == '+' || c == '-' then Some(62)
    else if c == '/' || c == '_' then Some(63)
    else None
  }

  // acc << 6 | sextet
  function Push(acc: word, sextet: Sextet): word {
    (acc as int * 64 % 0x1_0000_0000 + sextet as int) as word
  }

  // (acc >> bits) as u8, for the shifts by 2, 4, 6, 8, 10 and 16 that the decoders use
  function Octet(acc: word, bits: nat): byte {
    match bits
    case 0 => (acc % 0x100) as byte
    case 2 => (acc / 4 % 0x100) as byte
    case 4 => (acc / 16 % 0x100) as byte
    case 6 => (acc / 64 % 0x100) as byte
    case 8 => (acc / 0x100 % 0x100) as byte
    case 10 => (acc / 0x400 % 0x100) as byte
    case _ => (acc / 0x1_0000 % 0x100) as byte
  }

  // ----- what a text stands for ------------------------------------------------------

  // The sextets before any padding; other characters are skipped.
  function Payload(s: string): seq<Sextet> {
    if s == "" || s[0] == PAD then []
    else match SextetOf(s[0])
      case Some(v) => [v] + Payload(s[1..])
      case None => Payload(s[1..])
  }

  function Byte0(a: Sextet, b: Sextet): byte {
    (a as int * 4 + b as int / 16) as byte
  }

  function Byte1(b: Sextet, c: Sextet): byte {
    (b as int % 16 * 16 + c as int / 4) as byte
  }

  function Byte2(c: Sextet, d: Sextet): byte {
    (c as int % 4 * 64 + d as int) as byte
  }

  // Groups of four sextets make three bytes; three make two, two make one, one none.
  function BytesOf(v: seq<Sextet>): seq<byte> {
    if |v| < 2 then []
    else if |v| == 2 then [Byte0(v[0], v[1])]
    else if |v| == 3 then [Byte0(v[0], v[1]), Byte1(v[1], v[2])]
    else [Byte0(v[0], v[1]), Byte1(v[1], v[2]), Byte2(v[2], v[3])] + BytesOf(v[4..])
  }

  // The byte that one more sextet completes.
  function NextByte(v: seq<Sextet>, x: Sextet): seq<byte> {
    if |v| % 4 == 0 then []
    else
      var last := v[|v| - 1];
      if |v| % 4 == 1 then [Byte0(last, x)] else if |v| % 4 == 2 then [Byte1(last, x)] else [Byte2(last, x)]
  }

  lemma {:induction false} BytesGrow(v: seq<Sextet>, x: Sextet)
    ensures BytesOf(v + [x]) == BytesOf(v) + NextByte(v, x)
  {
    hide BytesOf, NextByte, FirstGroup;
    if |v| >= 4 {
      PeelGroup(v);
      PeelGroup(v + [x]);
      assert (v + [x])[4..] == v[4..] + [x];
      SameFirst(v, x);
      BytesGrow(v[4..], x);
      NextAfterPeel(v, x);
      Assoc(FirstGroup(v), BytesOf(v[4..]), NextByte(v, x));
    } else {
      GroupGrows(v, x);
    }
  }

  function FirstGroup(v: seq<Sextet>): seq<byte>
    requires |v| >= 4
  {
    [Byte0(v[0], v[1]), Byte1(v[1], v[2]), Byte2(v[2], v[3])]
  }

  lemma PeelGroup(v: seq<Sextet>)
    requires |v| >= 4
    ensures BytesOf(v) == FirstGroup(v) + BytesOf(v[4..])
  {
  }

  lemma SameFirst(v: seq<Sextet>, x: Sextet)
    requires |v| >= 4
    ensures FirstGroup(v + [x]) == FirstGroup(v)
  {
  }

  lemma NextAfterPeel(v: seq<Sextet>, x: Sextet)
    requires |v| >= 4
    ensures NextByte(v[4..], x) == NextByte(v, x)
  {
    assert |v[4..]| % 4 == |v| % 4;
    hide Byte0, Byte1, Byte2;
  }

  // Within one group.
  lemma GroupGrows(v: seq<Sextet>, x: Sextet)
    requires |v| < 4
    ensures BytesOf(v + [x]) == BytesOf(v) + NextByte(v, x)
  {
    hide BytesOf, FirstGroup, NextByte;
    var w := v + [x];
    ShortGroup(v);
    NextInGroup(v, x);
    if |v| == 3 {
      PeelGroup(w);
      ShortGroup(w[4..]);
    } else {
      ShortGroup(w);
    }
  }

  lemma NextInGroup(v: seq<Sextet>, x: Sextet)
    requires |v| < 4
    ensures |v| == 0 ==> NextByte(v, x) == []
    ensures |v| == 1 ==> NextByte(v, x) == [Byte0(v[0], x)]
    ensures |v| == 2 ==> NextByte(v, x) == [Byte1(v[1], x)]
    ensures |v| == 3 ==> [Byte0(v[0], v[1]), Byte1(v[1], v[2])] + NextByte(v, x) == FirstGroup(v + [x])
  {
    hide Byte0, Byte1, Byte2;
  }

  lemma ShortGroup(v: seq<Sextet>)
    requires |v| < 4
    ensures BytesOf(v) ==
      if |v| < 2 then []
      else if |v| == 2 then [Byte0(v[0], v[1])]
      else [Byte0(v[0], v[1]), Byte1(v[1], v[2])]
  {
  }

  lemma {:induction false} WholeGroups(v: seq<Sextet>, w: seq<Sextet>)
    requires |v| % 4 == 0
    ensures BytesOf(v + w) == BytesOf(v) + BytesOf(w)
  {
    if v == [] {
      assert v + w == w;
    } else {
      assert (v + w)[4..] == v[4..] + w;
      WholeGroups(v[4..], w);
    }
  }

  // ----- the two decoders ---------------------------------------------------------------

  // What has been read is whole groups, whose bytes are out, and what `acc` holds.
  ghost predicate Grouped(out: seq<byte>, acc: word, have: nat, groups: seq<Sextet>, held: seq<Sextet>) {
    |groups| % 4 == 0 && out == BytesOf(groups) && |held| == have < 4 && Holds(acc, held)
  }

  lemma TakeSextet(out: seq<byte>, acc: word, have: nat, groups: seq<Sextet>, held: seq<Sextet>, x: Sextet)
    requires Grouped(out, acc, have, groups, held)
    ensures
      var acc' := Push(acc, x);
      if have == 3
      then Grouped(out + [Octet(acc', 16), Octet(acc', 8), Octet(acc', 0)], 0, 0, groups + (held + [x]), [])
      else Grouped(out, acc', have + 1, groups, held + [x])
  {
    EmptyHolds();
    hide Octet, Push, Spelled, BytesOf, Holds;
    Hold(acc, held, x);
    if have == 3 {
      GroupOfFour(Push(acc, x), held + [x]);
      WholeGroups(groups, held + [x]);
    }
  }

  lemma EmptyHolds()
    ensures Holds(0, [])
  {
  }

  // Whole groups of 24 bits, and what is left over at the end.
  method LenientBase64Decode(s: string) returns (out: seq<byte>)
    ensures out == BytesOf(Payload(s))
  {
    out := [];
    var acc: word := 0;
    var have := 0;
    ghost var groups, held, read: seq<Sextet> := [], [], [];
    var i := 0;
    while i < |s|
      invariant i <= |s| && read == groups + held
      invariant Grouped(out, acc, have, groups, held)
      invariant read + Payload(s[i..]) == Payload(s)
      decreases |s| - i
    {
      PayloadStep(s, i);
      if s[i] == PAD {
        break;
      }
      var sextet := SextetOf(s[i]);
      i := i + 1;
      if sextet.None? {
        continue;
      }
      TakeSextet(out, acc, have, groups, held, sextet.value);
      Assoc(read, [sextet.value], Payload(s[i..]));
      Assoc(groups, held, [sextet.value]);
      read, held := read + [sextet.value], held + [sextet.value];
      acc := Push(acc, sextet.value);
      have := have + 1;
      if have == 4 {
        out := out + [Octet(acc, 16), Octet(acc, 8), Octet(acc, 0)];
        groups, held := groups + held, [];
        acc := 0;
        have := 0;
      }
    }
    PayloadEnds(s, i);
    assert read + [] == read;
    WholeGroups(groups, held);
    if have == 2 {
      LeftOverTwo(acc, held);
      out := out + [Octet(acc, 4)];
    } else if have == 3 {
      LeftOverThree(acc, held);
      out := out + [Octet(acc, 10)];
      out := out + [Octet(acc, 2)];
    }
  }

  // A rolling accumulator that is never masked: only its low bits are ever read.
  method DecodeBase64Lenient(input: string) returns (out: seq<byte>)
    ensures out == BytesOf(Payload(input))
  {
    out := [];
    var acc: word := 0;
    var bits := 0;
    ghost var read: seq<Sextet> := [];
    var i := 0;
    while i < |input|
      invariant i <= |input|
      invariant out == BytesOf(read) && Rolls(acc, bits, read)
      invariant read + Payload(input[i..]) == Payload(input)
      decreases |input| - i
    {
      PayloadStep(input, i);
      if input[i] == PAD {
        break;
      }
      var value := SextetOf(input[i]);
      i := i + 1;
      if value.None? {
        continue;
      }
      Roll(acc, bits, read, value.value);
      BytesGrow(read, value.value);
      Assoc(read, [value.value], Payload(input[i..]));
      read := read + [value.value];
      acc := Push(acc, value.value);
      bits := bits + 6;
      if bits >= 8 {
        bits := bits - 8;
        out := out + [Octet(acc, bits)];
      }
    }
    PayloadEnds(input, i);
    assert read + [] == read;
  }

  lemma PayloadStep(s: string, i: nat)
    requires i < |s|
    ensures s[i] == PAD ==> Payload(s[i..]) == []
    ensures s[i] != PAD && SextetOf(s[i]).None? ==> Payload(s[i..]) == Payload(s[i + 1..])
    ensures s[i] != PAD && SextetOf(s[i]).Some? ==> Payload(s[i..]) == [SextetOf(s[i]).value] + Payload(s[i + 1..])
  {
    assert s[i..][1..] == s[i + 1..];
  }

  lemma PayloadEnds(s: string, i: nat)
    requires i <= |s| && (i < |s| ==> s[i] == PAD)
    ensures Payload(s[i..]) == []
  {
  }

  // The number that some sextets spell.
  function Spelled(v: seq<Sextet>): nat {
    if v == [] then 0 else Spelled(v[..|v| - 1]) * 64 + v[|v| - 1] as int
  }

  predicate Holds(acc: word, held: seq<Sextet>) {
    acc as int == Spelled(held)
  }

  lemma SpelledParts(v: seq<Sextet>)
    requires |v| <= 4
    ensures |v| == 1 ==> Spelled(v) == v[0] as int
    ensures |v| == 2 ==> Spelled(v) == v[0] as int * 64 + v[1] as int
    ensures |v| == 3 ==> Spelled(v) == v[0] as int * 4096 + v[1] as int * 64 + v[2] as int
    ensures |v| == 4 ==> Spelled(v) == v[0] as int * 262144 + v[1] as int * 4096 + v[2] as int * 64 + v[3] as int
  {
    if |v| > 1 {
      SpelledParts(v[..|v| - 1]);
    } else if |v| == 1 {
      assert v[..0] == [];
    }
  }

  lemma Hold(acc: word, held: seq<Sextet>, x: Sextet)
    requires |held| < 4 && Holds(acc, held)
    ensures Holds(Push(acc, x), held + [x])
  {
    SpelledParts(held);
    assert (held + [x])[..|held|] == held;
  }

  // The bits of `high * n + low` above and below `n`.
  lemma Bits(w: int, n: int, high: int, low: int)
    requires n > 0 && w == high * n + low && 0 <= low < n
    ensures w / n == high && w % n == low
  {
    Quotient(w, n, high);
    Remainder(w, n, high, low);
  }

  // The byte that stands above `n` in a word.
  lemma ByteAbove(w: int, n: int, high: int, byte: int, low: int)
    requires n > 0 && w == (high * 0x100 + byte) * n + low && 0 <= byte < 0x100 && 0 <= low < n
    ensures w / n % 0x100 == byte
  {
    Bits(w, n, high * 0x100 + byte, low);
    Bits(high * 0x100 + byte, 0x100, high, byte);
  }

  lemma FourSextets(w: int, a: int, b: int, b': int, c: int, c': int, d: int)
    requires w == a * 262144 + (b * 16 + b') * 4096 + (c * 4 + c') * 64 + d
    requires 0 <= a < 64 && 0 <= b < 4 && 0 <= b' < 16 && 0 <= c < 16 && 0 <= c' < 4 && 0 <= d < 64
    ensures w / 0x1_0000 % 0x100 == a * 4 + b && w / 0x100 % 0x100 == b' * 16 + c && w % 0x100 == c' * 64 + d
  {
    ByteAbove(w, 0x1_0000, 0, a * 4 + b, (b' * 16 + c) * 0x100 + c' * 64 + d);
    ByteAbove(w, 0x100, a * 4 + b, b' * 16 + c, c' * 64 + d);
    ByteAbove(w, 1, (a * 4 + b) * 0x100 + b' * 16 + c, c' * 64 + d, 0);
  }

  lemma ThreeSextets(w: int, a: int, b: int, b': int, c: int, c': int)
    requires w == a * 4096 + (b * 16 + b') * 64 + c * 4 + c'
    requires 0 <= a < 64 && 0 <= b < 4 && 0 <= b' < 16 && 0 <= c < 16 && 0 <= c' < 4
    ensures w / 0x400 % 0x100 == a * 4 + b && w / 4 % 0x100 == b' * 16 + c
  {
    ByteAbove(w, 0x400, 0, a * 4 + b, b' * 64 + c * 4 + c');
    ByteAbove(w, 4, a * 4 + b, b' * 16 + c, c');
  }

  lemma OctetsOfFour(acc: word, a: Sextet, b: Sextet, c: Sextet, d: Sextet)
    requires acc as int == a as int * 262144 + b as int * 4096 + c as int * 64 + d as int
    ensures Octet(acc, 16) == Byte0(a, b) && Octet(acc, 8) == Byte1(b, c) && Octet(acc, 0) == Byte2(c, d)
  {
    FourSextets(acc as int, a as int, b as int / 16, b as int % 16, c as int / 4, c as int % 4, d as int);
  }

  lemma GroupOfFour(acc: word, held: seq<Sextet>)
    requires |held| == 4 && Holds(acc, held)
    ensures [Octet(acc, 16), Octet(acc, 8), Octet(acc, 0)] == BytesOf(held)
  {
    SpelledParts(held);
    OctetsOfFour(acc, held[0], held[1], held[2], held[3]);
    assert BytesOf(held[4..]) == [];
  }

  lemma LeftOverTwo(acc: word, held: seq<Sextet>)
    requires |held| == 2 && Holds(acc, held)
    ensures [Octet(acc, 4)] == BytesOf(held)
  {
    SpelledParts(held);
    var a, b := held[0] as int, held[1] as int;
    ByteAbove(acc as int, 16, 0, a * 4 + b / 16, b % 16);
  }

  lemma LeftOverThree(acc: word, held: seq<Sextet>)
    requires |held| == 3 && Holds(acc, held)
    ensures [Octet(acc, 10), Octet(acc, 2)] == BytesOf(held)
  {
    SpelledParts(held);
    OctetsOfThree(acc, held[0], held[1], held[2]);
  }

  lemma OctetsOfThree(acc: word, a: Sextet, b: Sextet, c: Sextet)
    requires acc as int == a as int * 4096 + b as int * 64 + c as int
    ensures Octet(acc, 10) == Byte0(a, b) && Octet(acc, 2) == Byte1(b, c)
  {
    ThreeSextets(acc as int, a as int, b as int / 16, b as int % 16, c as int / 4, c as int % 4);
  }

  // The low `bits` bits are those of the last sextet that no byte has taken yet.
  predicate Rolls(acc: word, bits: nat, read: seq<Sextet>) {
    match |read| % 4
    case 0 => bits == 0
    case 1 => bits == 6 && acc as int % 64 == read[|read| - 1] as int
    case 2 => bits == 4 && acc as int % 16 == read[|read| - 1] as int % 16
    case _ => bits == 2 && acc as int % 4 == read[|read| - 1] as int % 4
  }

  // The new word, as the number it would be but for what is shifted out at the top.
  lemma Pushed(acc: word, x: Sextet) returns (k: int)
    ensures Push(acc, x) as int == acc as int * 64 - k * 0x1_0000_0000 + x as int
  {
    k := acc as int * 64 / 0x1_0000_0000;
  }

  lemma PushedLow(acc: word, x: Sextet)
    ensures Push(acc, x) as int % 64 == x as int
    ensures Push(acc, x) as int % 16 == x as int % 16 && Push(acc, x) as int % 4 == x as int % 4
  {
    var k := Pushed(acc, x);
    var w, high := Push(acc, x) as int, acc as int - k * 0x400_0000;
    Bits(w, 64, high, x as int);
    Bits(w, 16, high * 4 + x as int / 16, x as int % 16);
    Bits(w, 4, high * 16 + x as int / 4, x as int % 4);
  }

  // The bytes that a second, third and fourth sextet complete: of the old word they
  // see only the low bits.
  lemma PushedBytes(acc: word, x: Sextet)
    ensures Push(acc, x) as int / 16 % 0x100 == acc as int % 64 * 4 + x as int / 16
    ensures Push(acc, x) as int / 4 % 0x100 == acc as int % 16 * 16 + x as int / 4
    ensures Push(acc, x) as int % 0x100 == acc as int % 4 * 64 + x as int
  {
    var k := Pushed(acc, x);
    var w, a, b := Push(acc, x) as int, acc as int, x as int;
    ByteAbove(w, 16, a / 64 - k * 0x10_0000, a % 64 * 4 + b / 16, b % 16);
    ByteAbove(w, 4, a / 16 - k * 0x40_0000, a % 16 * 16 + b / 4, b % 4);
    ByteAbove(w, 1, a / 4 - k * 0x100_0000, a % 4 * 64 + b, 0);
  }

  lemma Roll(acc: word, bits: nat, read: seq<Sextet>, x: Sextet)
    requires Rolls(acc, bits, read)
    ensures
      var acc', more := Push(acc, x), read + [x];
      if bits + 6 >= 8 then Rolls(acc', bits - 2, more) && NextByte(read, x) == [Octet(acc', bits - 2)]
      else Rolls(acc', bits + 6, more) && NextByte(read, x) == []
  {
    PushedLow(acc, x);
    PushedBytes(acc, x);
    Rotate(|read|);
  }

  lemma Rotate(n: nat)
    ensures (n + 1) % 4 == if n % 4 == 3 then 0 else n % 4 + 1
  {
  }

  // ----- encoding -------------------------------------------------------------------------

  // So many characters, one after the other.
  function From(first: char, n: nat): string
    requires first <= 'z' && n <= 26
  {
    seq(n, i requires 0 <= i < n => first + i as char)
  }

  const LETTERS_AND_DIGITS: string := From('A', 26) + From('a', 26) + From('0', 10)

  // Sections 4 and 5 of RFC 4648.
  const STANDARD: string := LETTERS_AND_DIGITS + "+/"
  const URL_SAFE: string := LETTERS_AND_DIGITS + "-_"

  function SextetsOf(bytes: seq<byte>): seq<Sextet> {
    if bytes == [] then []
    else
      var x := bytes[0] as int;
      if |bytes| == 1 then [x / 4, x % 4 * 16]
      else
        var y := bytes[1] as int;
        if |bytes| == 2 then [x / 4, x % 4 * 16 + y / 16, y % 16 * 4]
        else
          var z := bytes[2] as int;
          [x / 4, x % 4 * 16 + y / 16, y % 16 * 4 + z / 64, z % 64] + SextetsOf(bytes[3..])
  }

  // `s` spells the sextets, each in either alphabet.
  ghost predicate Spells(s: string, v: seq<Sextet>) {
    |s| == |v| && forall i :: 0 <= i < |v| ==> s[i] == STANDARD[v[i]] || s[i] == URL_SAFE[v[i]]
  }

  function Spell(v: seq<Sextet>): string {
    seq(|v|, i requires 0 <= i < |v| => URL_SAFE[v[i]])
  }

  // Unpadded base64url, section 5 of RFC 4648.
  function Encode(bytes: seq<byte>): string {
    Spell(SextetsOf(bytes))
  }

  // The characters of the alphabets, the rest dropped.
  function Alphabetic(s: string): string {
    if s == "" then ""
    else if s[0] in STANDARD || s[0] in URL_SAFE then [s[0]] + Alphabetic(s[1..]) else Alphabetic(s[1..])
  }

  lemma GroupReadsBack(x: byte, y: byte, z: byte)
    ensures Byte0(x as int / 4, x as int % 4 * 16 + y as int / 16) == x
    ensures Byte1(x as int % 4 * 16 + y as int / 16, y as int % 16 * 4 + z as int / 64) == y
    ensures Byte2(y as int % 16 * 4 + z as int / 64, z as int % 64) == z
  {
  }

  lemma {:induction false} SextetsReadBack(bytes: seq<byte>)
    ensures BytesOf(SextetsOf(bytes)) == bytes
  {
    if |bytes| == 1 {
      GroupReadsBack(bytes[0], 0, 0);
    } else if |bytes| == 2 {
      GroupReadsBack(bytes[0], bytes[1], 0);
    } else if |bytes| >= 3 {
      GroupReadsBack(bytes[0], bytes[1], bytes[2]);
      var v := SextetsOf(bytes);
      SextetsReadBack(bytes[3..]);
      assert v[4..] == SextetsOf(bytes[3..]);
      assert bytes == bytes[..3] + bytes[3..];
    }
  }

  lemma LetterAt(n: Sextet)
    requires n < 62
    ensures |LETTERS_AND_DIGITS| == 62 && SextetOf(LETTERS_AND_DIGITS[n]) == Some(n)
  {
  }

  lemma AlphabetAt(n: Sextet)
    ensures |STANDARD| == 64 && |URL_SAFE| == 64
    ensures SextetOf(STANDARD[n]) == Some(n) && SextetOf(URL_SAFE[n]) == Some(n)
    ensures STANDARD[n] != PAD && URL_SAFE[n] != PAD
  {
    LastTwo();
    if n < 62 {
      LetterAt(n);
    }
    assert SextetOf(PAD) == None;
  }

  lemma SameSextet(c: char, c': char)
    requires SextetOf(c).Some? && SextetOf(c) == SextetOf(c')
    ensures c == c' || (c in {'+', '-'} && SextetOf(c).value == 62) || (c in {'/', '_'} && SextetOf(c).value == 63)
  {
  }

  lemma LastTwo()
    ensures |STANDARD| == 64 && |URL_SAFE| == 64
    ensures STANDARD[62] == '+' && STANDARD[63] == '/' && URL_SAFE[62] == '-' && URL_SAFE[63] == '_'
  {
  }

  lemma SextetsPlace(c: char)
    requires SextetOf(c).Some?
    ensures |STANDARD| == 64 && |URL_SAFE| == 64
    ensures c == STANDARD[SextetOf(c).value] || c == URL_SAFE[SextetOf(c).value]
  {
    LastTwo();
    AlphabetAt(SextetOf(c).value);
    SameSextet(c, STANDARD[SextetOf(c).value]);
  }

  // A character stands for a sextet exactly if it is there in one of the alphabets.
  lemma SextetIsItsPlace(c: char, n: Sextet)
    ensures |STANDARD| == 64 && |URL_SAFE| == 64
    ensures SextetOf(c) == Some(n) <==> c == STANDARD[n] || c == URL_SAFE[n]
  {
    AlphabetAt(n);
    if SextetOf(c).Some? {
      SextetsPlace(c);
    }
    hide SextetOf, STANDARD, URL_SAFE, LETTERS_AND_DIGITS;
  }

  lemma InAlphabet(c: char)
    ensures c in STANDARD || c in URL_SAFE <==> SextetOf(c).Some?
  {
    AlphabetAt(0);
    hide SextetOf, STANDARD, URL_SAFE, LETTERS_AND_DIGITS;
    if SextetOf(c).Some? {
      SextetsPlace(c);
    } else {
      forall i | 0 <= i < 64
        ensures STANDARD[i] != c && URL_SAFE[i] != c
      {
        AlphabetAt(i);
      }
    }
  }

  // A text whose alphabetic characters spell some sextets stands for them, whatever
  // stands between them, and whatever follows a padding character.
  lemma {:induction false} SpelledIsPayload(s: string, rest: string, v: seq<Sextet>)
    requires PAD !in s && Spells(Alphabetic(s), v) && (rest != "" ==> rest[0] == PAD)
    ensures Payload(s + rest) == v
  {
    hide SextetOf, STANDARD, URL_SAFE, LETTERS_AND_DIGITS;
    LastTwo();
    if s == "" {
      assert s + rest == rest;
      assert v == [];
    } else {
      assert (s + rest)[1..] == s[1..] + rest;
      InAlphabet(s[0]);
      if SextetOf(s[0]).Some? {
        var t := Alphabetic(s);
        assert t[0] == s[0] && t[1..] == Alphabetic(s[1..]);
        SextetIsItsPlace(s[0], v[0]);
        assert forall i :: 0 <= i < |v[1..]| ==> t[1..][i] == t[i + 1] && v[1..][i] == v[i + 1];
        SpelledIsPayload(s[1..], rest, v[1..]);
      } else {
        SpelledIsPayload(s[1..], rest, v);
      }
    }
  }

  // Decoding inverts encoding for every byte string, spelled in either alphabet or in both,
  // with any other characters inserted anywhere, padded or not.
  lemma DecodeInvertsEncode(bytes: seq<byte>, s: string, rest: string)
    requires PAD !in s && Spells(Alphabetic(s), SextetsOf(bytes)) && (rest != "" ==> rest[0] == PAD)
    ensures BytesOf(Payload(s + rest)) == bytes
  {
    SpelledIsPayload(s, rest, SextetsOf(bytes));
    SextetsReadBack(bytes);
  }

  // Encoded text is such a text itself.
  lemma {:induction false} AlphabeticAlready(s: string)
    requires forall i :: 0 <= i < |s| ==> s[i] in STANDARD || s[i] in URL_SAFE
    ensures Alphabetic(s) == s
  {
    if s != "" {
      AlphabeticAlready(s[1..]);
      assert s == [s[0]] + s[1..];
    }
  }

  lemma EncodedIsAlphabetic(v: seq<Sextet>)
    ensures PAD !in Spell(v) && Alphabetic(Spell(v)) == Spell(v) && Spells(Spell(v), v)
  {
    forall i | 0 <= i < |v|
      ensures Spell(v)[i] in URL_SAFE && Spell(v)[i] != PAD
    {
      AlphabetAt(v[i]);
    }
    AlphabeticAlready(Spell(v));
  }

  // Run side by side, the decoders agree on every input; on encoded bytes they return
  // the bytes.
  method DecodeBoth(s: string) returns (grouped: seq<byte>, rolled: seq<byte>)
    ensures grouped == rolled
    ensures forall bytes :: s == Encode(bytes) ==> grouped == bytes
  {
    grouped := LenientBase64Decode(s);
    rolled := DecodeBase64Lenient(s);
    forall bytes | s == Encode(bytes)
      ensures grouped == bytes
    {
      EncodedIsAlphabetic(SextetsOf(bytes));
      assert s + "" == s;
      DecodeInvertsEncode(bytes, s, "");
    }
  }
}
