/** The two padded encodings of sections 4 and 5 of RFC 4648, as Go's
    `encoding/base64` writes and reads them, and the reader of two alphabets
    that the x402 headers go through. */
module Base64 {
  import opened Basics

  datatype Alphabet = Url | Standard

  const PAD: byte := 61

  /** The byte of a six bit value. The two alphabets differ at 62 and 63 only. */
  function CharOf(a: Alphabet, v: int): byte
    requires 0 <= v < 64
  {
    if v < 26 then 65 + v
    else if v < 52 then 71 + v
    else if v < 62 then v - 4
    else if v == 62 then (if a.Url? then 45 else 43)
    else (if a.Url? then 95 else 47)
  }

  function ValueOf(a: Alphabet, c: byte): (v: Option<int>)
    ensures v.Some? ==> 0 <= v.value < 64
  {
    if 65 <= c <= 90 then Some(c - 65)
    else if 97 <= c <= 122 then Some(c - 71)
    else if 48 <= c <= 57 then Some(c + 4)
    else if c == CharOf(a, 62) then Some(62)
    else if c == CharOf(a, 63) then Some(63)
    else None
  }

  function Encode(a: Alphabet, b: Bytes): Bytes {
    if |b| == 0 then []
    else if |b| == 1 then
      [CharOf(a, b[0] / 4), CharOf(a, b[0] % 4 * 16), PAD, PAD]
    else if |b| == 2 then
      [CharOf(a, b[0] / 4), CharOf(a, b[0] % 4 * 16 + b[1] / 16), CharOf(a, b[1] % 16 * 4), PAD]
    else
      [CharOf(a, b[0] / 4), CharOf(a, b[0] % 4 * 16 + b[1] / 16),
       CharOf(a, b[1] % 16 * 4 + b[2] / 64), CharOf(a, b[2] % 64)] + Encode(a, b[3..])
  }

  /** Go's decoder skips a carriage return and a line feed wherever they stand. */
  function SkipLines(s: Bytes): Bytes {
    if s == [] then []
    else if s[0] == 10 || s[0] == 13 then SkipLines(s[1..])
    else [s[0]] + SkipLines(s[1..])
  }

  /** The three bytes of four six bit values. */
  function Octets(v0: int, v1: int, v2: int, v3: int): (b: Bytes)
    requires 0 <= v0 < 64 && 0 <= v1 < 64 && 0 <= v2 < 64 && 0 <= v3 < 64
    ensures |b| == 3
  {
    [v0 * 4 + v1 / 16, v1 % 16 * 16 + v2 / 4, v2 % 4 * 64 + v3]
  }

  /** Go's decoder is not strict: it ignores the bits of the last value that no byte uses. */
  function Quanta(a: Alphabet, s: Bytes): Option<Bytes> {
    if s == [] then Some([])
    else if |s| < 4 then None
    else
      var v0, v1, v2, v3 := ValueOf(a, s[0]), ValueOf(a, s[1]), ValueOf(a, s[2]), ValueOf(a, s[3]);
      if v0.None? || v1.None? then None
      else if s[2] == PAD then
        if s[3] == PAD && |s| == 4 then Some(Octets(v0.value, v1.value, 0, 0)[..1]) else None
      else if v2.None? then None
      else if s[3] == PAD then
        if |s| == 4 then Some(Octets(v0.value, v1.value, v2.value, 0)[..2]) else None
      else if v3.None? then None
      else
        var rest := Quanta(a, s[4..]);
        if rest.None? then None
        else Some(Octets(v0.value, v1.value, v2.value, v3.value) + rest.value)
  }

  /** `Encoding.DecodeString` */
  function Decode(a: Alphabet, s: Bytes): Option<Bytes> {
    Quanta(a, SkipLines(s))
  }

  /** `decodeBase64`: base64url first, then standard base64. */
  function DecodeBase64(s: Bytes): Option<Bytes> {
    var url := Decode(Url, s);
    if url.Some? then url else Decode(Standard, s)
  }

  /** A byte that may stand in a text that `Decode(a, _)` accepts. */
  predicate Allowed(a: Alphabet, c: byte) {
    ValueOf(a, c).Some? || c == PAD || c == 10 || c == 13
  }

  lemma CharValue(a: Alphabet, v: int)
    requires 0 <= v < 64
    ensures ValueOf(a, CharOf(a, v)) == Some(v)
    ensures CharOf(a, v) != PAD && CharOf(a, v) != 10 && CharOf(a, v) != 13
  {
  }

  lemma {:induction false} EncodeHasNoLines(a: Alphabet, b: Bytes)
    ensures forall i :: 0 <= i < |Encode(a, b)| ==> Encode(a, b)[i] != 10 && Encode(a, b)[i] != 13
  {
    if |b| > 2 {
      EncodeHasNoLines(a, b[3..]);
    }
  }

  lemma {:induction false} NoLinesToSkip(s: Bytes)
    requires forall i :: 0 <= i < |s| ==> s[i] != 10 && s[i] != 13
    ensures SkipLines(s) == s
  {
    if s != [] {
      NoLinesToSkip(s[1..]);
    }
  }

  /** The three bytes of a quantum come back out of its four six bit values. */
  lemma SixBits(b0: byte, b1: byte, b2: byte)
    ensures 0 <= b0 % 4 * 16 + b1 / 16 < 64 && 0 <= b1 % 16 * 4 + b2 / 64 < 64
    ensures Octets(b0 / 4, b0 % 4 * 16 + b1 / 16, b1 % 16 * 4 + b2 / 64, b2 % 64) == [b0, b1, b2]
  {
    assert (b0 % 4 * 16 + b1 / 16) / 16 == b0 % 4;
    assert (b1 % 16 * 4 + b2 / 64) / 4 == b1 % 16;
  }

  /** A padded quantum reads as the first bytes of its values. */
  lemma ReadPadded(a: Alphabet, s: Bytes, v0: int, v1: int, v2: int)
    requires 0 <= v0 < 64 && 0 <= v1 < 64 && 0 <= v2 < 64
    requires |s| == 4 && s[0] == CharOf(a, v0) && s[1] == CharOf(a, v1) && s[3] == PAD
    ensures s[2] == PAD ==> Quanta(a, s) == Some([Octets(v0, v1, 0, 0)[0]])
    ensures s[2] == CharOf(a, v2) ==>
      Quanta(a, s) == Some([Octets(v0, v1, v2, 0)[0], Octets(v0, v1, v2, 0)[1]])
  {
    CharValue(a, v0); CharValue(a, v1); CharValue(a, v2);
    assert Octets(v0, v1, 0, 0)[..1] == [Octets(v0, v1, 0, 0)[0]];
    assert Octets(v0, v1, v2, 0)[..2] == [Octets(v0, v1, v2, 0)[0], Octets(v0, v1, v2, 0)[1]];
  }

  lemma OneByte(a: Alphabet, b0: byte)
    ensures Quanta(a, Encode(a, [b0])) == Some([b0])
  {
    SixBits(b0, 0, 0);
    ReadPadded(a, Encode(a, [b0]), b0 / 4, b0 % 4 * 16, 0);
  }

  lemma TwoBytes(a: Alphabet, b0: byte, b1: byte)
    ensures Quanta(a, Encode(a, [b0, b1])) == Some([b0, b1])
  {
    SixBits(b0, b1, 0);
    ReadPadded(a, Encode(a, [b0, b1]), b0 / 4, b0 % 4 * 16 + b1 / 16, b1 % 16 * 4);
  }

  lemma EncodeFront(a: Alphabet, b: Bytes)
    requires |b| > 2
    ensures 0 <= b[0] % 4 * 16 + b[1] / 16 < 64 && 0 <= b[1] % 16 * 4 + b[2] / 64 < 64
    ensures |Encode(a, b)| >= 4 && Encode(a, b)[4..] == Encode(a, b[3..])
    ensures Encode(a, b)[0] == CharOf(a, b[0] / 4)
    ensures Encode(a, b)[1] == CharOf(a, b[0] % 4 * 16 + b[1] / 16)
    ensures Encode(a, b)[2] == CharOf(a, b[1] % 16 * 4 + b[2] / 64)
    ensures Encode(a, b)[3] == CharOf(a, b[2] % 64)
  {
  }

  /** How a full quantum reads, in terms of the values of its four characters. */
  lemma ReadQuantum(a: Alphabet, s: Bytes, v0: int, v1: int, v2: int, v3: int)
    requires 0 <= v0 < 64 && 0 <= v1 < 64 && 0 <= v2 < 64 && 0 <= v3 < 64
    requires |s| >= 4 && s[0] == CharOf(a, v0) && s[1] == CharOf(a, v1)
    requires s[2] == CharOf(a, v2) && s[3] == CharOf(a, v3)
    requires Quanta(a, s[4..]).Some?
    ensures Quanta(a, s) == Some(Octets(v0, v1, v2, v3) + Quanta(a, s[4..]).value)
  {
    CharValue(a, v0); CharValue(a, v1); CharValue(a, v2); CharValue(a, v3);
  }

  lemma {:induction false} QuantaEncode(a: Alphabet, b: Bytes)
    ensures Quanta(a, Encode(a, b)) == Some(b)
  {
    if |b| == 0 {
      assert b == [];
    } else if |b| == 1 {
      OneByte(a, b[0]);
      assert b == [b[0]];
    } else if |b| == 2 {
      TwoBytes(a, b[0], b[1]);
      assert b == [b[0], b[1]];
    } else {
      QuantaEncode(a, b[3..]);
      EncodeFront(a, b);
      SixBits(b[0], b[1], b[2]);
      ReadQuantum(a, Encode(a, b), b[0] / 4, b[0] % 4 * 16 + b[1] / 16,
                  b[1] % 16 * 4 + b[2] / 64, b[2] % 64);
      assert b == [b[0], b[1], b[2]] + b[3..];
    }
  }

  /** Each alphabet reads back what it wrote, for every byte sequence. */
  lemma DecodeEncode(a: Alphabet, b: Bytes)
    ensures Decode(a, Encode(a, b)) == Some(b)
  {
    EncodeHasNoLines(a, b);
    NoLinesToSkip(Encode(a, b));
    QuantaEncode(a, b);
  }

  lemma {:induction false} QuantaAgree(s: Bytes)
    requires Quanta(Url, s).Some? && Quanta(Standard, s).Some?
    ensures Quanta(Url, s) == Quanta(Standard, s)
  {
    if |s| > 4 {
      QuantaAgree(s[4..]);
    }
  }

  /** The fallback is unambiguous: a text that both alphabets accept means the same bytes in
      both, so it does not matter which one the reader tries first. */
  lemma AlphabetsAgree(s: Bytes)
    requires Decode(Url, s).Some? && Decode(Standard, s).Some?
    ensures Decode(Url, s) == Decode(Standard, s)
  {
    QuantaAgree(SkipLines(s));
  }

  /** Hence the order of the two attempts never shows. */
  lemma TriesInEitherOrder(s: Bytes)
    ensures DecodeBase64(s)
         == if Decode(Standard, s).Some? then Decode(Standard, s) else Decode(Url, s)
  {
    if Decode(Url, s).Some? && Decode(Standard, s).Some? {
      AlphabetsAgree(s);
    }
  }

  /** A header of either encoding comes back as the bytes that went in. */
  lemma DecodeBase64Inverts(a: Alphabet, b: Bytes)
    ensures DecodeBase64(Encode(a, b)) == Some(b)
  {
    DecodeEncode(a, b);
    TriesInEitherOrder(Encode(a, b));
  }

  /** The characters of the standard alphabet that base64url shares stand for values below 62. */
  lemma SharedChar(v: int)
    requires 0 <= v < 64
    ensures ValueOf(Url, CharOf(Standard, v)).Some? <==> v < 62
    ensures CharOf(Url, v) == CharOf(Standard, v) <==> v < 62
  {
  }

  lemma UrlReadsQuantum(b: Bytes)
    requires |b| <= 2
    ensures Quanta(Url, Encode(Standard, b)).Some? <==> Encode(Standard, b) == Encode(Url, b)
  {
    if |b| > 0 {
      SharedChar(b[0] / 4);
      if |b| == 1 {
        SharedChar(b[0] % 4 * 16);
      } else {
        SharedChar(b[0] % 4 * 16 + b[1] / 16);
        SharedChar(b[1] % 16 * 4);
        CharValue(Standard, b[1] % 16 * 4);
      }
    }
  }

  lemma {:induction false} UrlReadsStandard(b: Bytes)
    ensures Quanta(Url, Encode(Standard, b)).Some? <==> Encode(Standard, b) == Encode(Url, b)
  {
    if |b| <= 2 {
      UrlReadsQuantum(b);
    } else {
      var v0, v1 := b[0] / 4, b[0] % 4 * 16 + b[1] / 16;
      var v2, v3 := b[1] % 16 * 4 + b[2] / 64, b[2] % 64;
      SharedChar(v0); SharedChar(v1); SharedChar(v2); SharedChar(v3);
      CharValue(Standard, v2); CharValue(Standard, v3);
      UrlReadsStandard(b[3..]);
      var s, u := Encode(Standard, b), Encode(Url, b);
      assert s[4..] == Encode(Standard, b[3..]) && u[4..] == Encode(Url, b[3..]);
      assert s == s[..4] + s[4..] && u == u[..4] + u[4..];
    }
  }

  /** The first attempt takes a standard text exactly when that text is its own base64url. */
  lemma FirstAttemptTakesStandard(b: Bytes)
    ensures Decode(Url, Encode(Standard, b)).Some? <==> Encode(Standard, b) == Encode(Url, b)
  {
    EncodeHasNoLines(Standard, b);
    NoLinesToSkip(Encode(Standard, b));
    UrlReadsStandard(b);
  }

  lemma {:induction false} QuantaAllowed(a: Alphabet, s: Bytes)
    requires Quanta(a, s).Some?
    ensures forall i :: 0 <= i < |s| ==> Allowed(a, s[i])
  {
    if |s| > 4 {
      QuantaAllowed(a, s[4..]);
      assert forall i :: 4 <= i < |s| ==> s[i] == s[4..][i - 4];
    }
  }

  lemma {:induction false} SkipLinesKeeps(s: Bytes, i: nat)
    requires i < |s| && s[i] != 10 && s[i] != 13
    ensures s[i] in SkipLines(s)
  {
    if i > 0 {
      SkipLinesKeeps(s[1..], i - 1);
    }
  }

  /** One byte outside the alphabet is enough to refuse a text. */
  lemma ForeignByteIsRefused(a: Alphabet, s: Bytes, i: nat)
    requires i < |s| && !Allowed(a, s[i])
    ensures Decode(a, s) == None
  {
    SkipLinesKeeps(s, i);
    if Decode(a, s).Some? {
      QuantaAllowed(a, SkipLines(s));
    }
  }

  /** A text that mixes the two alphabets is refused by both attempts. */
  lemma MixedTextIsRefused(s: Bytes, i: nat, j: nat)
    requires i < |s| && (s[i] == 45 || s[i] == 95)
    requires j < |s| && (s[j] == 43 || s[j] == 47)
    ensures DecodeBase64(s) == None
  {
    ForeignByteIsRefused(Standard, s, i);
    ForeignByteIsRefused(Url, s, j);
  }
}
