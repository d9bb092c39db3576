/**
 * Mapping PostgreSQL's error cursor, counted in characters, to a line of the
 * script: one pass over the bytes against a specification on characters and lines.
 * Characters are what Go's range over a string yields: well-formed UTF-8 (RFC 3629,
 * section 4), and one character for every other byte.
 */
module ErrorCursor {
  newtype Byte = x: int | 0 <= x < 256

  const NEWLINE: Byte := 10

  predicate Within(s: seq<Byte>, i: nat, low: Byte, high: Byte) {
    i < |s| && low <= s[i] <= high
  }

  // The n bytes at i are one well-formed character of n > 1 bytes.
  predicate Multibyte(s: seq<Byte>, i: nat, n: nat)
    requires i < |s|
  {
    var b := s[i];
    match n
    case 2 => 0xC2 <= b <= 0xDF && Within(s, i + 1, 0x80, 0xBF)
    case 3 =>
      && 0xE0 <= b <= 0xEF
      && Within(s, i + 1, if b == 0xE0 then 0xA0 else 0x80, if b == 0xED then 0x9F else 0xBF)
      && Within(s, i + 2, 0x80, 0xBF)
    case 4 =>
      && 0xF0 <= b <= 0xF4
      && Within(s, i + 1, if b == 0xF0 then 0x90 else 0x80, if b == 0xF4 then 0x8F else 0xBF)
      && Within(s, i + 2, 0x80, 0xBF) && Within(s, i + 3, 0x80, 0xBF)
    case _ => false
  }

  function Longest(s: seq<Byte>, i: nat, n: nat): (w: nat)
    requires 1 <= n && i + n <= |s|
    ensures 1 <= w <= n
    ensures forall k :: i < k < i + w ==> s[k] >= 0x80
    ensures s[i] < 0x80 ==> w == 1
  {
    if n == 1 || Multibyte(s, i, n) then n else Longest(s, i, n - 1)
  }

  // The number of bytes of the character at byte i.
  function Width(s: seq<Byte>, i: nat): (w: nat)
    requires i < |s|
    ensures 1 <= w && i + w <= |s|
    ensures forall k :: i < k < i + w ==> s[k] >= 0x80
    ensures s[i] < 0x80 ==> w == 1
  {
    Longest(s, i, if |s| - i < 4 then |s| - i else 4)
  }

  // The characters from byte i on.
  function Runes(s: seq<Byte>, i: nat): seq<seq<Byte>>
    requires i <= |s|
    decreases |s| - i
  {
    if i == |s| then [] else [s[i..i + Width(s, i)]] + Runes(s, i + Width(s, i))
  }

  // === Against an encoder ====================================================

  // A Unicode scalar value: a code point that is no surrogate.
  predicate Scalar(cp: nat) {
    cp < 0xD800 || 0xE000 <= cp < 0x11_0000
  }

  // Its UTF-8 encoding (RFC 3629, section 3).
  function Encode(cp: nat): (e: seq<Byte>)
    requires Scalar(cp)
    ensures 1 <= |e| <= 4
  {
    if cp < 0x80 then [cp as Byte]
    else if cp < 0x800 then [(0xC0 + cp / 0x40) as Byte, Tail(cp)]
    else if cp < 0x1_0000 then [(0xE0 + cp / 0x1000) as Byte, Tail(cp / 0x40), Tail(cp)]
    else [(0xF0 + cp / 0x4_0000) as Byte, Tail(cp / 0x1000), Tail(cp / 0x40), Tail(cp)]
  }

  // A continuation byte with the low six bits.
  function Tail(n: nat): Byte {
    (0x80 + n % 0x40) as Byte
  }

  function Encoded(cps: seq<nat>): seq<seq<Byte>>
    requires forall cp :: cp in cps ==> Scalar(cp)
  {
    if cps == [] then [] else [Encode(cps[0])] + Encoded(cps[1..])
  }

  ghost predicate EncodedAt(s: seq<Byte>, i: nat, cp: nat)
    requires Scalar(cp)
  {
    i + |Encode(cp)| <= |s| && s[i..i + |Encode(cp)|] == Encode(cp)
  }

  // A character of more than one byte is the encoding of a scalar value ...
  lemma Decoded(s: seq<Byte>, i: nat, n: nat) returns (cp: nat)
    requires i < |s| && n > 1 && Multibyte(s, i, n)
    ensures Scalar(cp) && |Encode(cp)| == n && EncodedAt(s, i, cp)
  {
    if n == 2 {
      cp := DecodeTwo(s[i], s[i + 1]);
    } else if n == 3 {
      cp := DecodeThree(s[i], s[i + 1], s[i + 2]);
    } else {
      cp := DecodeFour(s[i], s[i + 1], s[i + 2], s[i + 3]);
    }
  }

  lemma DecodeTwo(b: Byte, c: Byte) returns (cp: nat)
    requires Multibyte([b, c], 0, 2)
    ensures Scalar(cp) && Encode(cp) == [b, c]
  {
    cp := (b as nat - 0xC0) * 0x40 + (c as nat - 0x80);
    assert cp / 0x40 == b as nat - 0xC0;
  }

  lemma DecodeThree(b: Byte, c: Byte, d: Byte) returns (cp: nat)
    requires Multibyte([b, c, d], 0, 3)
    ensures Scalar(cp) && Encode(cp) == [b, c, d]
  {
    var high := (b as nat - 0xE0) * 0x40 + (c as nat - 0x80);
    cp := high * 0x40 + (d as nat - 0x80);
    assert cp / 0x40 == high && high / 0x40 == b as nat - 0xE0;
    assert cp / 0x1000 == b as nat - 0xE0;
  }

  lemma DecodeFour(b: Byte, c: Byte, d: Byte, e: Byte) returns (cp: nat)
    requires Multibyte([b, c, d, e], 0, 4)
    ensures Scalar(cp) && Encode(cp) == [b, c, d, e]
  {
    var top := (b as nat - 0xF0) * 0x40 + (c as nat - 0x80);
    var high := top * 0x40 + (d as nat - 0x80);
    cp := high * 0x40 + (e as nat - 0x80);
    assert cp / 0x40 == high && high / 0x40 == top && top / 0x40 == b as nat - 0xF0;
    assert cp / 0x1000 == top && cp / 0x4_0000 == b as nat - 0xF0;
  }

  // ... and every encoding of more than one byte is such a character.
  lemma EncodingIsMultibyte(cp: nat)
    requires Scalar(cp) && cp >= 0x80
    ensures Multibyte(Encode(cp), 0, |Encode(cp)|)
  {
  }

  // The first byte tells the length.
  lemma OneLength(s: seq<Byte>, i: nat, m: nat, n: nat)
    requires i < |s| && Multibyte(s, i, m) && Multibyte(s, i, n)
    ensures m == n
  {
  }

  lemma {:induction false} LongestIs(s: seq<Byte>, i: nat, n: nat)
    requires 1 <= n && i + n <= |s|
    ensures Longest(s, i, n) == 1 || Multibyte(s, i, Longest(s, i, n))
    ensures forall m :: Longest(s, i, n) < m <= n ==> !Multibyte(s, i, m)
  {
    if n > 1 && !Multibyte(s, i, n) {
      LongestIs(s, i, n - 1);
    }
  }

  lemma EncodedIsRune(s: seq<Byte>, i: nat, cp: nat)
    requires Scalar(cp) && EncodedAt(s, i, cp)
    ensures i < |s| && Width(s, i) == |Encode(cp)|
  {
    var e := Encode(cp);
    LongestIs(s, i, if |s| - i < 4 then |s| - i else 4);
    assert forall k :: 0 <= k < |e| ==> s[i + k] == s[i..i + |e|][k] == e[k];
    if cp >= 0x80 {
      EncodingIsMultibyte(cp);
      assert Multibyte(s, i, |e|);
      if Width(s, i) > 1 {
        OneLength(s, i, Width(s, i), |e|);
      }
    }
  }

  // Where a scalar value is encoded its encoding is the character, and any other byte
  // is a character of its own.
  lemma WidthExactly(s: seq<Byte>, i: nat)
    requires i < |s|
    ensures forall cp: nat :: Scalar(cp) && EncodedAt(s, i, cp) ==> Width(s, i) == |Encode(cp)|
    ensures Width(s, i) == 1 || exists cp: nat :: Scalar(cp) && EncodedAt(s, i, cp)
  {
    forall cp: nat | Scalar(cp) && EncodedAt(s, i, cp)
      ensures Width(s, i) == |Encode(cp)|
    {
      EncodedIsRune(s, i, cp);
    }
    LongestIs(s, i, if |s| - i < 4 then |s| - i else 4);
    if Width(s, i) > 1 {
      var cp := Decoded(s, i, Width(s, i));
    }
  }

  // So the characters of an encoded text are its scalar values.
  lemma {:induction false} RunesOfText(s: seq<Byte>, i: nat, cps: seq<nat>)
    requires forall cp :: cp in cps ==> Scalar(cp)
    requires i <= |s| && s[i..] == Flatten(Encoded(cps))
    ensures Runes(s, i) == Encoded(cps)
    decreases |cps|
  {
    if cps != [] {
      var e := Encode(cps[0]);
      assert s[i..] == e + Flatten(Encoded(cps[1..]));
      assert s[i..i + |e|] == s[i..][..|e|] == e;
      assert s[i + |e|..] == s[i..][|e|..];
      EncodedIsRune(s, i, cps[0]);
      RunesOfText(s, i + |e|, cps[1..]);
    }
  }

  // === Characters and lines ==================================================

  // The newlines among the first n characters.
  function Newlines(rs: seq<seq<Byte>>, n: nat): nat
    requires n <= |rs|
  {
    if n == 0 then 0 else Newlines(rs, n - 1) + if rs[n - 1] == [NEWLINE] then 1 else 0
  }

  // The first newline at or after byte i, or the length of the script.
  function LineEnd(s: seq<Byte>, i: nat): (e: nat)
    requires i <= |s|
    ensures i <= e <= |s| && (e < |s| ==> s[e] == NEWLINE)
    ensures forall j :: i <= j < e ==> s[j] != NEWLINE
    decreases |s| - i
  {
    if i == |s| || s[i] == NEWLINE then i else LineEnd(s, i + 1)
  }

  // The lines from byte i on.
  function Lines(s: seq<Byte>, i: nat): (ls: seq<seq<Byte>>)
    requires i <= |s|
    ensures |ls| > 0
    decreases |s| - i
  {
    var e := LineEnd(s, i);
    if e == |s| then [s[i..]] else [s[i..e]] + Lines(s, e + 1)
  }

  function Flatten(rs: seq<seq<Byte>>): seq<Byte> {
    if rs == [] then [] else rs[0] + Flatten(rs[1..])
  }

  function Joined(ls: seq<seq<Byte>>): seq<Byte>
    requires |ls| > 0
  {
    if |ls| == 1 then ls[0] else ls[0] + [NEWLINE] + Joined(ls[1..])
  }

  // Characters partition the script.
  lemma {:induction false} RunesPartition(s: seq<Byte>, i: nat)
    requires i <= |s|
    ensures Flatten(Runes(s, i)) == s[i..]
    ensures forall r :: r in Runes(s, i) ==> r != [] && (NEWLINE in r ==> r == [NEWLINE])
    decreases |s| - i
  {
    if i < |s| {
      var j := i + Width(s, i);
      RunesPartition(s, j);
      assert s[i..] == s[i..j] + s[j..];
      FirstRune(s, i);
    }
  }

  lemma FirstRune(s: seq<Byte>, i: nat)
    requires i < |s|
    ensures s[i..i + Width(s, i)] == [NEWLINE] <==> s[i] == NEWLINE
    ensures NEWLINE in s[i..i + Width(s, i)] ==> s[i] == NEWLINE
  {
    assert s[i..i + Width(s, i)][0] == s[i];
  }

  // Lines are the newline-free parts of the script.
  lemma {:induction false} LinesPartition(s: seq<Byte>, i: nat)
    requires i <= |s|
    ensures Joined(Lines(s, i)) == s[i..]
    ensures forall l :: l in Lines(s, i) ==> NEWLINE !in l
    decreases |s| - i
  {
    var e := LineEnd(s, i);
    if e < |s| {
      LinesPartition(s, e + 1);
      assert s[i..] == s[i..e] + [NEWLINE] + s[e + 1..];
    }
  }

  // The number of the line that holds character `pos` (1-based), or of the last
  // line when there is no such character.
  function LineOf(s: seq<Byte>, pos: int): nat {
    var rs := Runes(s, 0);
    1 + Newlines(rs, if 1 <= pos <= |rs| then pos - 1 else |rs|)
  }

  // Where the n-th character and the n-th line begin, in bytes.
  function RuneOffset(rs: seq<seq<Byte>>, n: nat): nat
    requires n <= |rs|
  {
    if n == 0 then 0 else RuneOffset(rs, n - 1) + |rs[n - 1]|
  }

  function LineOffset(ls: seq<seq<Byte>>, n: nat): nat
    requires n <= |ls|
  {
    if n == 0 then 0 else LineOffset(ls, n - 1) + |ls[n - 1]| + 1
  }

  // What one pass knows at byte i: the characters and the lines behind it.
  ghost predicate Scanned(s: seq<Byte>, line: nat, lineStart: nat, chars: nat, i: nat) {
    && lineStart <= i <= |s| && chars <= |Runes(s, 0)|
    && Runes(s, 0)[chars..] == Runes(s, i)
    && line == 1 + Newlines(Runes(s, 0), chars)
    && (forall j :: lineStart <= j < i ==> s[j] != NEWLINE)
    && line <= |Lines(s, 0)| && Lines(s, 0)[line - 1..] == Lines(s, lineStart)
    && i == RuneOffset(Runes(s, 0), chars) && lineStart == LineOffset(Lines(s, 0), line - 1)
  }

  // The right answer: the line that holds character `pos`, or the last one, with
  // its number; the character begins inside it or is the newline that ends it.
  ghost predicate Located(s: seq<Byte>, pos: int, line: nat, text: seq<Byte>) {
    && 1 <= line <= |Lines(s, 0)| && line == LineOf(s, pos) && text == Lines(s, 0)[line - 1]
    && (!(1 <= pos <= |Runes(s, 0)|) ==> line == |Lines(s, 0)|)
    && (1 <= pos <= |Runes(s, 0)| ==>
          var start := LineOffset(Lines(s, 0), line - 1);
          start <= RuneOffset(Runes(s, 0), pos - 1) <= start + |text|)
  }

  // locateInScript up to the final trimming of the line.
  method LocateInScript(sqlText: seq<Byte>, pos: int) returns (line: nat, text: seq<Byte>)
    ensures Located(sqlText, pos, line, text)
  {
    line := 1;
    var lineStart, chars, i := 0, 0, 0;
    Begin(sqlText);
    while i < |sqlText|
      invariant i <= |sqlText| && Scanned(sqlText, line, lineStart, chars, i)
      invariant !(1 <= pos <= chars)
    {
      if chars + 1 == pos {
        text := CurrentLine(sqlText, line, lineStart, chars, i);
        return;
      }
      line, lineStart, i := PassRune(sqlText, line, lineStart, chars, i);
      chars := chars + 1;
    }
    text := LastLine(sqlText, pos, line, lineStart, chars);
  }

  // The character at i is not the one: on to the next one.
  method PassRune(s: seq<Byte>, line: nat, lineStart: nat, chars: nat, i: nat)
    returns (nextLine: nat, nextStart: nat, next: nat)
    requires i < |s| && Scanned(s, line, lineStart, chars, i)
    ensures i < next <= |s| && Scanned(s, nextLine, nextStart, chars + 1, next)
  {
    Advance(s, line, lineStart, chars, i);
    next := i + Width(s, i);
    nextLine, nextStart := line, lineStart;
    if s[i] == NEWLINE {
      nextLine, nextStart := line + 1, i + 1;
    }
  }

  // The character at i is the one: the text of its line, up to the next newline.
  method CurrentLine(s: seq<Byte>, ghost line: nat, lineStart: nat, ghost chars: nat, i: nat) returns (text: seq<Byte>)
    requires i < |s| && Scanned(s, line, lineStart, chars, i)
    ensures Located(s, chars + 1, line, text)
  {
    Advance(s, line, lineStart, chars, i);
    LineFrom(s, line, lineStart, chars, i);
    text := s[lineStart..LineEnd(s, i)];
  }

  // There is no such character: the last line.
  method LastLine(s: seq<Byte>, ghost pos: int, ghost line: nat, lineStart: nat, ghost chars: nat)
      returns (text: seq<Byte>)
    requires Scanned(s, line, lineStart, chars, |s|) && !(1 <= pos <= chars)
    ensures Located(s, pos, line, text)
  {
    LineFrom(s, line, lineStart, chars, |s|);
    text := s[lineStart..];
  }

  lemma Begin(s: seq<Byte>)
    ensures Scanned(s, 1, 0, 0, 0)
  {
  }

  lemma Advance(s: seq<Byte>, line: nat, lineStart: nat, chars: nat, i: nat)
    requires i < |s| && Scanned(s, line, lineStart, chars, i)
    ensures chars < |Runes(s, 0)|
    ensures s[i] == NEWLINE ==> Scanned(s, line + 1, i + 1, chars + 1, i + Width(s, i))
    ensures s[i] != NEWLINE ==> Scanned(s, line, lineStart, chars + 1, i + Width(s, i))
  {
    AdvanceRune(s, Runes(s, 0), chars, i);
    if s[i] == NEWLINE {
      NextLine(s, Lines(s, 0), line, lineStart, i);
    }
  }

  lemma AdvanceRune(s: seq<Byte>, rs: seq<seq<Byte>>, chars: nat, i: nat)
    requires i < |s| && chars <= |rs| && rs[chars..] == Runes(s, i)
    ensures chars < |rs| && rs[chars + 1..] == Runes(s, i + Width(s, i))
    ensures Newlines(rs, chars + 1) == Newlines(rs, chars) + if s[i] == NEWLINE then 1 else 0
    ensures |rs[chars]| == Width(s, i)
  {
    var r := s[i..i + Width(s, i)];
    var rest := Runes(s, i + Width(s, i));
    assert rs[chars..] == [r] + rest;
    assert rs[chars..][0] == rs[chars] && rs[chars..][1..] == rs[chars + 1..];
    FirstRune(s, i);
  }

  lemma LineEndIs(s: seq<Byte>, from: nat, i: nat)
    requires from <= i <= |s| && forall j :: from <= j < i ==> s[j] != NEWLINE
    ensures LineEnd(s, from) == LineEnd(s, i)
  {
    var e, f := LineEnd(s, from), LineEnd(s, i);
    assert e < |s| ==> s[e] == NEWLINE;
  }

  lemma NextLine(s: seq<Byte>, ls: seq<seq<Byte>>, line: nat, lineStart: nat, i: nat)
    requires lineStart <= i < |s| && s[i] == NEWLINE && forall j :: lineStart <= j < i ==> s[j] != NEWLINE
    requires 1 <= line <= |ls| && ls[line - 1..] == Lines(s, lineStart)
    ensures line < |ls| && ls[line..] == Lines(s, i + 1) && |ls[line - 1]| == i - lineStart
  {
    LineEndIs(s, lineStart, i);
    assert LineEnd(s, i) == i;
    assert ls[line - 1..][1..] == ls[line..] && ls[line - 1..][0] == ls[line - 1];
  }

  // The text of the current line: it starts at lineStart and reaches past i.
  lemma LineFrom(s: seq<Byte>, line: nat, lineStart: nat, chars: nat, i: nat)
    requires Scanned(s, line, lineStart, chars, i)
    ensures Lines(s, 0)[line - 1] == s[lineStart..LineEnd(s, i)]
    ensures lineStart == LineOffset(Lines(s, 0), line - 1) && i == RuneOffset(Runes(s, 0), chars)
    ensures line == 1 + Newlines(Runes(s, 0), chars)
    ensures i == |s| ==> chars == |Runes(s, 0)| && line == |Lines(s, 0)|
    ensures i == |s| ==> s[lineStart..] == s[lineStart..LineEnd(s, i)]
  {
    LineEndIs(s, lineStart, i);
    assert Lines(s, 0)[line - 1..][0] == Lines(s, 0)[line - 1];
  }
}
