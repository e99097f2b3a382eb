/** The encodings of RFC 4648 as the standard defines them: two tables, and groups of 24 bits. What
    `Base64` computes letter by letter is that. */
module Rfc4648 {
  import opened Basics
  import opened Base64

  const UPPER := "ABCDEFGHIJKLMNOPQRSTUVWXYZ"
  const LOWER := "abcdefghijklmnopqrstuvwxyz"
  const FIGURES := "0123456789"

  /** Tables 1 and 2 of RFC 4648. */
  function Letters(a: Alphabet): (s: string)
    ensures |s| == 64
  {
    UPPER + LOWER + FIGURES + (if a.Url? then "-_" else "+/")
  }

  /** `c` is letter number `v` of the table. */
  predicate IsLetter(a: Alphabet, c: byte, v: int) {
    0 <= v < 64 && c == Letters(a)[v] as int
  }

  lemma LetterRanges(v: int)
    ensures 0 <= v < 26 ==> UPPER[v] as int == 65 + v && LOWER[v] as int == 97 + v
    ensures 0 <= v < 10 ==> FIGURES[v] as int == 48 + v
  {
  }

  lemma CharIsLetter(a: Alphabet, v: int)
    requires 0 <= v < 64
    ensures IsLetter(a, CharOf(a, v), v)
  {
    if v < 26 {
      LetterRanges(v);
    } else if v < 52 {
      LetterRanges(v - 26);
    } else if v < 62 {
      LetterRanges(v - 52);
    }
  }

  /** `CharOf` writes the tables of the standard, and `ValueOf` reads them and nothing else. */
  lemma LettersAreTheTables(a: Alphabet, c: byte, v: int)
    ensures 0 <= v < 64 ==> IsLetter(a, CharOf(a, v), v)
    ensures ValueOf(a, c) == Some(v) <==> IsLetter(a, c, v)
  {
    if 0 <= v < 64 {
      CharIsLetter(a, v);
      CharValue(a, v);
    }
    if ValueOf(a, c) == Some(v) {
      assert c == CharOf(a, v);
    }
  }

  /** The byte at `i`; one that is missing counts 0. */
  function At(b: Bytes, i: nat): int {
    if i < |b| then b[i] else 0
  }

  /** The first 24 bits, most significant first. */
  function Group(b: Bytes): int {
    At(b, 0) * 65536 + At(b, 1) * 256 + At(b, 2)
  }

  /** The sign `=` */
  const FILL: byte := 61

  /** The value of a letter; the padding sign counts 0. */
  function Rank(a: Alphabet, c: byte): (v: int)
    ensures 0 <= v < 64
  {
    if ValueOf(a, c).Some? then ValueOf(a, c).value else 0
  }

  /** The first four letters as one number of 24 bits. */
  function Quad(a: Alphabet, s: Bytes): int
    requires |s| >= 4
  {
    Rank(a, s[0]) * 262144 + Rank(a, s[1]) * 4096 + Rank(a, s[2]) * 64 + Rank(a, s[3])
  }

  /** Four characters that hold `n` bytes: letters, and one padding sign for each byte that is
      missing. */
  predicate Holds(a: Alphabet, s: Bytes, n: int)
    requires |s| >= 4
  {
    && ValueOf(a, s[0]).Some? && ValueOf(a, s[1]).Some?
    && (if n > 1 then ValueOf(a, s[2]).Some? else s[2] == FILL)
    && (if n > 2 then ValueOf(a, s[3]).Some? else s[3] == FILL)
  }

  /** Section 4 of RFC 4648: 24 bits are four letters, and bits that are missing at the end are 0. */
  predicate IsEncoding(a: Alphabet, s: Bytes, b: Bytes) {
    if b == [] then s == []
    else
      && |s| >= 4 && Holds(a, s, |b|) && Quad(a, s) == Group(b)
      && IsEncoding(a, s[4..], if |b| > 3 then b[3..] else [])
  }

  /** How a text reads: the same, but the bits that no byte uses may have any value. */
  predicate IsReading(a: Alphabet, s: Bytes, b: Bytes) {
    if b == [] then s == []
    else
      && |s| >= 4 && Holds(a, s, |b|)
      && Group(b) <= Quad(a, s) < Group(b) + (if |b| == 1 then 65536 else if |b| == 2 then 256 else 1)
      && IsReading(a, s[4..], if |b| > 3 then b[3..] else [])
  }

  lemma PadIsNoLetter(a: Alphabet)
    ensures ValueOf(a, PAD).None?
  {
  }

  lemma BitsAddUp(b0: byte, b1: byte, b2: byte)
    ensures b0 / 4 * 262144 + (b0 % 4 * 16 + b1 / 16) * 4096 + (b1 % 16 * 4 + b2 / 64) * 64 + b2 % 64
         == b0 * 65536 + b1 * 256 + b2
  {
  }

  lemma EncodeStep(a: Alphabet, b: Bytes)
    requires b != []
    ensures |Encode(a, b)| >= 4 && Holds(a, Encode(a, b), |b|) && Quad(a, Encode(a, b)) == Group(b)
    ensures Encode(a, b)[4..] == Encode(a, if |b| > 3 then b[3..] else [])
  {
    var b1, b2 := if |b| > 1 then b[1] else 0, if |b| > 2 then b[2] else 0;
    BitsAddUp(b[0], b1, b2);
    SixBits(b[0], b1, b2);
    PadIsNoLetter(a);
    CharValue(a, b[0] / 4);
    CharValue(a, b[0] % 4 * 16 + b1 / 16);
    CharValue(a, b1 % 16 * 4 + b2 / 64);
    CharValue(a, b2 % 64);
    if |b| > 2 {
      EncodeFront(a, b);
      assert |b| == 3 ==> b[3..] == [];
    }
  }

  lemma {:induction false} EncodeEncodes(a: Alphabet, b: Bytes)
    ensures IsEncoding(a, Encode(a, b), b)
    decreases |b|
  {
    if b != [] {
      EncodeStep(a, b);
      EncodeEncodes(a, if |b| > 3 then b[3..] else []);
    }
  }

  /** Four characters are told apart by what they hold. */
  lemma SameQuad(a: Alphabet, s: Bytes, u: Bytes, n: int)
    requires |s| >= 4 && |u| >= 4 && Holds(a, s, n) && Holds(a, u, n) && Quad(a, s) == Quad(a, u)
    ensures s[..4] == u[..4]
  {
    PadIsNoLetter(a);
    SameRank(a, s[0], u[0]);
    SameRank(a, s[1], u[1]);
    SameRank(a, s[2], u[2]);
    SameRank(a, s[3], u[3]);
  }

  lemma SameRank(a: Alphabet, c: byte, d: byte)
    ensures ValueOf(a, c).Some? && ValueOf(a, d).Some? && Rank(a, c) == Rank(a, d) ==> c == d
  {
  }

  lemma {:induction false} EncodingIsUnique(a: Alphabet, s: Bytes, u: Bytes, b: Bytes)
    requires IsEncoding(a, s, b) && IsEncoding(a, u, b)
    ensures s == u
    decreases |b|
  {
    if b != [] {
      SameQuad(a, s, u, |b|);
      EncodingIsUnique(a, s[4..], u[4..], if |b| > 3 then b[3..] else []);
      assert s == s[..4] + s[4..] && u == u[..4] + u[4..];
    }
  }

  /** The encoder is the one of the standard, and there is no other. */
  lemma EncodeIsTheStandard(a: Alphabet, s: Bytes, b: Bytes)
    ensures s == Encode(a, b) <==> IsEncoding(a, s, b)
  {
    EncodeEncodes(a, b);
    if IsEncoding(a, s, b) {
      EncodingIsUnique(a, s, Encode(a, b), b);
    }
  }

  lemma OctetsAddUp(v0: int, v1: int, v2: int, v3: int)
    requires 0 <= v0 < 64 && 0 <= v1 < 64 && 0 <= v2 < 64 && 0 <= v3 < 64
    ensures Group(Octets(v0, v1, v2, v3)) == v0 * 262144 + v1 * 4096 + v2 * 64 + v3
  {
  }

  /** Three bytes, or the first one or two of them, against the four letters. */
  lemma OctetsRead(a: Alphabet, s: Bytes, n: nat)
    requires |s| >= 4 && 1 <= n <= 3 && Holds(a, s, n)
    ensures var b := Octets(Rank(a, s[0]), Rank(a, s[1]), Rank(a, s[2]), Rank(a, s[3]))[..n];
      Group(b) <= Quad(a, s) < Group(b) + (if n == 1 then 65536 else if n == 2 then 256 else 1)
  {
    PadIsNoLetter(a);
    OctetsAddUp(Rank(a, s[0]), Rank(a, s[1]), Rank(a, s[2]), Rank(a, s[3]));
  }

  /** How many bytes the first four characters hold. */
  function Held(s: Bytes): nat
    requires |s| >= 4
  {
    if s[3] != PAD then 3 else if s[2] != PAD then 2 else 1
  }

  lemma QuantaStep(a: Alphabet, s: Bytes)
    requires s != [] && Quanta(a, s).Some?
    ensures |s| >= 4 && Holds(a, s, Held(s)) && (Held(s) < 3 ==> |s| == 4)
    ensures Held(s) == 3 ==> Quanta(a, s[4..]).Some?
    ensures var b := Octets(Rank(a, s[0]), Rank(a, s[1]), Rank(a, s[2]), Rank(a, s[3]));
      Quanta(a, s).value == b[..Held(s)] + if Held(s) == 3 then Quanta(a, s[4..]).value else []
  {
    PadIsNoLetter(a);
  }

  lemma {:induction false} QuantaReads(a: Alphabet, s: Bytes)
    requires Quanta(a, s).Some?
    ensures IsReading(a, s, Quanta(a, s).value)
  {
    if s != [] {
      QuantaStep(a, s);
      OctetsRead(a, s, Held(s));
      var r := Quanta(a, s).value;
      var b := Octets(Rank(a, s[0]), Rank(a, s[1]), Rank(a, s[2]), Rank(a, s[3]))[..Held(s)];
      assert Group(r) == Group(b);
      if Held(s) == 3 {
        QuantaReads(a, s[4..]);
        assert r[3..] == Quanta(a, s[4..]).value;
      }
    }
  }

  lemma ReadingStep(a: Alphabet, s: Bytes, b: Bytes, c: Bytes)
    requires b != [] && c != [] && IsReading(a, s, b) && IsReading(a, s, c)
    ensures b[0] == c[0] && (|b| > 1 <==> |c| > 1) && (|b| > 2 <==> |c| > 2)
    ensures |b| > 1 ==> b[1] == c[1]
    ensures |b| > 2 ==> b[2] == c[2]
  {
    PadIsNoLetter(a);
  }

  lemma {:induction false} ReadingIsUnique(a: Alphabet, s: Bytes, b: Bytes, c: Bytes)
    requires IsReading(a, s, b) && IsReading(a, s, c)
    ensures b == c
    decreases |b|
  {
    if b != [] && c != [] {
      ReadingStep(a, s, b, c);
      var b', c' := if |b| > 3 then b[3..] else [], if |c| > 3 then c[3..] else [];
      ReadingIsUnique(a, s[4..], b', c');
      assert |b| > 2 ==> b == [b[0], b[1], b[2]] + b' && c == [c[0], c[1], c[2]] + c';
    }
  }

  lemma {:induction false} ReadingIsAccepted(a: Alphabet, s: Bytes, b: Bytes)
    requires IsReading(a, s, b)
    ensures Quanta(a, s).Some?
    decreases |b|
  {
    if b != [] {
      PadIsNoLetter(a);
      ReadingIsAccepted(a, s[4..], if |b| > 3 then b[3..] else []);
    }
  }

  /** The decoder is the reading of the standard, and accepts nothing else. */
  lemma DecodeIsTheStandard(a: Alphabet, s: Bytes, b: Bytes)
    requires forall i :: 0 <= i < |s| ==> s[i] != 10 && s[i] != 13
    ensures Decode(a, s) == Some(b) <==> IsReading(a, s, b)
  {
    NoLinesToSkip(s);
    if Quanta(a, s).Some? {
      QuantaReads(a, s);
    }
    if IsReading(a, s, b) {
      ReadingIsAccepted(a, s, b);
      ReadingIsUnique(a, s, b, Quanta(a, s).value);
    }
  }

  lemma {:induction false} SkipLinesConcat(s: Bytes, u: Bytes)
    ensures SkipLines(s + u) == SkipLines(s) + SkipLines(u)
  {
    if s == [] {
      assert s + u == u;
    } else {
      SkipLinesConcat(s[1..], u);
      assert (s + u)[0] == s[0] && (s + u)[1..] == s[1..] + u;
      var r, v := SkipLines(s[1..]), SkipLines(u);
      assert ([s[0]] + r) + v == [s[0]] + (r + v);
    }
  }

  /** A line end changes nothing, wherever it stands. */
  lemma LineEndsDoNotMatter(a: Alphabet, s: Bytes, i: nat, c: byte)
    requires i <= |s| && (c == 10 || c == 13)
    ensures Decode(a, s[..i] + [c] + s[i..]) == Decode(a, s)
  {
    SkipLinesConcat(s[..i] + [c], s[i..]);
    SkipLinesConcat(s[..i], [c]);
    SkipLinesConcat(s[..i], s[i..]);
    assert [c][1..] == [] && SkipLines([c]) == [];
    assert s[..i] + s[i..] == s && SkipLines(s[..i]) + [] == SkipLines(s[..i]);
  }
}
