/** Whole numbers as text: `big.Int.SetString(s, 10)`, `big.Int.String`, and the
    white space rules of `strings.TrimSpace` and `strings.Fields`. */
module Decimal {
  import opened Basics

  /** `unicode.IsSpace` */
  predicate IsSpace(c: char) {
    || '\t' <= c <= '\r' || c == ' ' || c == '\U{0085}' || c == '\U{00A0}' || c == '\U{1680}'
    || '\U{2000}' <= c <= '\U{200A}' || c == '\U{2028}' || c == '\U{2029}' || c == '\U{202F}'
    || c == '\U{205F}' || c == '\U{3000}'
  }

  function TrimLeft(s: string): string {
    if s != [] && IsSpace(s[0]) then TrimLeft(s[1..]) else s
  }

  function TrimRight(s: string): string {
    if s != [] && IsSpace(s[|s| - 1]) then TrimRight(s[..|s| - 1]) else s
  }

  /** `strings.TrimSpace` */
  function TrimSpace(s: string): string {
    TrimRight(TrimLeft(s))
  }

  function UntilSpace(s: string): string {
    if s == [] || IsSpace(s[0]) then [] else [s[0]] + UntilSpace(s[1..])
  }

  /** `strings.Fields(s)[0]`, or the empty string when there are no fields. */
  function FirstField(s: string): string {
    UntilSpace(TrimLeft(s))
  }

  predicate IsDigit(c: char) {
    '0' <= c <= '9'
  }

  predicate AllDigits(s: string) {
    forall i :: 0 <= i < |s| ==> IsDigit(s[i])
  }

  function Digit(d: int): char
    requires 0 <= d < 10
  {
    ('0' as int + d) as char
  }

  function DigitsValue(s: string): nat
    requires AllDigits(s)
  {
    if s == [] then 0 else 10 * DigitsValue(s[..|s| - 1]) + (s[|s| - 1] as int - '0' as int)
  }

  /** An optional sign and at least one digit; anything else is not a number. */
  function ParseInt(s: string): Option<int> {
    var signed := s != [] && (s[0] == '-' || s[0] == '+');
    var digits := if signed then s[1..] else s;
    if digits == [] || !AllDigits(digits) then None
    else
      var n: int := DigitsValue(digits);
      Some(if signed && s[0] == '-' then -n else n)
  }

  function PrintNat(n: nat): string {
    if n < 10 then [Digit(n)] else PrintNat(n / 10) + [Digit(n % 10)]
  }

  /** `big.Int.String` */
  function Print(n: int): string {
    if n < 0 then "-" + PrintNat(-n) else PrintNat(n)
  }

  /** No plus sign, no superfluous zero, no negative zero. */
  predicate Canonical(s: string) {
    var digits := if s != [] && s[0] == '-' then s[1..] else s;
    && digits != [] && AllDigits(digits)
    && (digits[0] == '0' ==> |digits| == 1 && digits == s)
  }

  lemma {:induction false} PrintNatValue(n: nat)
    ensures AllDigits(PrintNat(n)) && PrintNat(n) != [] && DigitsValue(PrintNat(n)) == n
    ensures PrintNat(n)[0] == '0' <==> n == 0
  {
    if n < 10 {
      assert DigitsValue([Digit(n)]) == 10 * DigitsValue([]) + n;
    } else {
      PrintNatValue(n / 10);
      var s := PrintNat(n);
      assert s[..|s| - 1] == PrintNat(n / 10);
    }
  }

  lemma {:induction false} DigitsPrint(s: string)
    requires AllDigits(s) && s != [] && (s[0] == '0' ==> |s| == 1)
    ensures PrintNat(DigitsValue(s)) == s
    ensures s[0] != '0' ==> DigitsValue(s) > 0
  {
    var p := s[..|s| - 1];
    var d := s[|s| - 1] as int - '0' as int;
    if p == [] {
      assert DigitsValue(s) == d;
      assert PrintNat(d) == [Digit(d)] == s;
    } else {
      DigitsPrint(p);
      assert p[0] == s[0];
      var v := DigitsValue(s);
      assert v / 10 == DigitsValue(p) && v % 10 == d;
      assert s == p + [Digit(d)];
    }
  }

  /** What the payer prints, every reader of whole numbers reads back. */
  lemma ParsePrint(n: int)
    ensures ParseInt(Print(n)) == Some(n)
    ensures Canonical(Print(n))
  {
    PrintNatValue(if n < 0 then -n else n);
  }

  /** Printing a parsed text gives the text back exactly when the text was canonical. */
  lemma PrintParse(s: string)
    requires ParseInt(s).Some?
    ensures Print(ParseInt(s).value) == s <==> Canonical(s)
  {
    ParsePrint(ParseInt(s).value);
    if Canonical(s) {
      DigitsPrint(if s[0] == '-' then s[1..] else s);
    }
  }

  lemma TenTimes(n: nat)
    requires n > 0
    ensures PrintNat(10 * n) == PrintNat(n) + "0"
  {
  }

  /** The numbers that the configuration file gets by default. */
  lemma PrintDefaults()
    ensures Print(0) == "0" && Print(2000) == "2000" && Print(20000) == "20000"
  {
    assert PrintNat(2) == "2";
    TenTimes(2); TenTimes(20); TenTimes(200); TenTimes(2000);
    assert "2" + "0" + "0" + "0" == "2000";
  }

  /** A text with no white space at its ends is its own trim, and a line feed after it goes. */
  lemma TrimSpaceLine(s: string)
    requires s != [] && !IsSpace(s[0]) && !IsSpace(s[|s| - 1])
    ensures TrimSpace(s) == s && TrimSpace(s + "\n") == s
  {
    var t := s + "\n";
    assert t[0] == s[0] && t[..|t| - 1] == s;
    assert TrimRight(t) == TrimRight(s);
  }

  lemma {:induction false} TrimRightShorter(s: string)
    ensures |TrimRight(s)| <= |s| && TrimRight(s) <= s
  {
    if s != [] && IsSpace(s[|s| - 1]) {
      TrimRightShorter(s[..|s| - 1]);
    }
  }

  lemma {:induction false} TrimLeftShorter(s: string)
    ensures |TrimLeft(s)| <= |s|
  {
    if s != [] && IsSpace(s[0]) {
      TrimLeftShorter(s[1..]);
    }
  }

  lemma TrimSpaceShorter(s: string)
    ensures |TrimSpace(s)| <= |s|
  {
    TrimLeftShorter(s);
    TrimRightShorter(TrimLeft(s));
  }

  lemma {:induction false} UntilSpaceHasNone(s: string)
    ensures forall i :: 0 <= i < |UntilSpace(s)| ==> !IsSpace(UntilSpace(s)[i])
  {
    if s != [] && !IsSpace(s[0]) {
      UntilSpaceHasNone(s[1..]);
    }
  }

  /** A field has no white space around it. */
  lemma FirstFieldIsTrimmed(s: string)
    ensures TrimSpace(FirstField(s)) == FirstField(s)
  {
    UntilSpaceHasNone(TrimLeft(s));
    if FirstField(s) != "" {
      TrimSpaceLine(FirstField(s));
    }
  }

  /** A text that reads as a number has no white space around it. */
  lemma NumberIsTrimmed(s: string)
    requires ParseInt(s).Some?
    ensures TrimSpace(s) == s
  {
    var signed := s[0] == '-' || s[0] == '+';
    assert signed ==> s[|s| - 1] == s[1..][|s| - 2];
    TrimSpaceLine(s);
  }

  lemma PrintHasNoSpace(n: int)
    ensures TrimSpace(Print(n)) == Print(n)
    ensures ParseInt(TrimSpace(Print(n))) == Some(n)
  {
    ParsePrint(n);
    PrintNatValue(if n < 0 then -n else n);
    var s := Print(n);
    assert forall i :: 0 <= i < |s| ==> IsDigit(s[i]) || s[i] == '-';
    TrimSpaceLine(s);
  }

  // What the definitions mean, against tables and shapes.

  const CONTROLS := "\t\n\U{000B}\U{000C}\r"
  const RULES := " \U{0085}\U{00A0}\U{1680}\U{2028}\U{2029}\U{202F}\U{205F}\U{3000}"
  const WIDTHS := "\U{2000}\U{2001}\U{2002}\U{2003}\U{2004}\U{2005}\U{2006}\U{2007}\U{2008}\U{2009}\U{200A}"

  /** The characters that Unicode calls white space. */
  lemma SpacesAreTheTable(c: char)
    ensures IsSpace(c) <==> c in CONTROLS || c in RULES || c in WIDTHS
  {
  }

  predicate Blank(s: string) {
    forall i :: 0 <= i < |s| ==> IsSpace(s[i])
  }

  /** A text without white space. */
  predicate Word(s: string) {
    s != "" && forall i :: 0 <= i < |s| ==> !IsSpace(s[i])
  }

  lemma {:induction false} TrimLeftBlank(l: string, s: string)
    requires Blank(l) && (s == "" || !IsSpace(s[0]))
    ensures TrimLeft(l + s) == s
  {
    if l == "" {
      assert l + s == s;
    } else {
      TrimLeftBlank(l[1..], s);
      assert (l + s)[1..] == l[1..] + s;
    }
  }

  lemma {:induction false} TrimRightBlank(s: string, r: string)
    requires Blank(r) && (s == "" || !IsSpace(s[|s| - 1]))
    ensures TrimRight(s + r) == s
  {
    if r == "" {
      assert s + r == s;
    } else {
      var n := |r| - 1;
      TrimRightBlank(s, r[..n]);
      assert (s + r)[|s + r| - 1] == r[n] && (s + r)[..|s + r| - 1] == s + r[..n];
    }
  }

  /** Trimming takes the white space on both sides, and nothing else. */
  lemma TrimIsExact(l: string, s: string, r: string)
    requires Blank(l) && Blank(r) && s != "" && !IsSpace(s[0]) && !IsSpace(s[|s| - 1])
    ensures TrimSpace(l + s + r) == s
  {
    TrimLeftBlank(l, s + r);
    assert l + s + r == l + (s + r);
    TrimRightBlank(s, r);
  }

  lemma {:induction false} TrimLeftAllBlank(s: string)
    requires Blank(s)
    ensures TrimLeft(s) == ""
  {
    if s != "" {
      TrimLeftAllBlank(s[1..]);
    }
  }

  lemma {:induction false} UntilSpaceStops(w: string, rest: string)
    requires (forall i :: 0 <= i < |w| ==> !IsSpace(w[i])) && (rest == "" || IsSpace(rest[0]))
    ensures UntilSpace(w + rest) == w
  {
    if w == "" {
      assert w + rest == rest;
    } else {
      UntilSpaceStops(w[1..], rest);
      assert (w + rest)[1..] == w[1..] + rest;
    }
  }

  /** The first field is the first word; a blank text has none. */
  lemma FirstFieldIsExact(l: string, w: string, rest: string)
    requires Blank(l) && Word(w) && (rest == "" || IsSpace(rest[0]))
    ensures FirstField(l + w + rest) == w && FirstField(l) == ""
  {
    TrimLeftBlank(l, w + rest);
    assert l + w + rest == l + (w + rest);
    UntilSpaceStops(w, rest);
    TrimLeftAllBlank(l);
  }

  lemma PrintIsAWord(n: int)
    ensures Word(Print(n))
  {
    PrintNatValue(if n < 0 then -n else n);
    var s := Print(n);
    assert forall i :: 0 <= i < |s| ==> IsDigit(s[i]) || s[i] == '-';
  }

  /** The figures, place by place. */
  lemma PlaceByPlace(n: nat, d: nat)
    requires d < 10
    ensures PrintNat(d) == ["0123456789"[d]]
    ensures n > 0 ==> PrintNat(10 * n + d) == PrintNat(n) + ["0123456789"[d]]
    ensures Print(n) == PrintNat(n) && (n > 0 ==> Print(0 - n) == "-" + PrintNat(n))
  {
    assert "0123456789"[d] as int == '0' as int + d;
    assert Digit(d) == "0123456789"[d];
  }

  /** What reads as a whole number: figures, and a sign in front if one likes. */
  lemma NumberShapes(s: string)
    ensures ParseInt(s).Some?
       <==> (s != "" && AllDigits(s)) || (|s| > 1 && s[0] in {'+', '-'} && AllDigits(s[1..]))
  {
    if s != "" && AllDigits(s) {
      assert IsDigit(s[0]);
    }
  }

  /** And what it reads as. */
  lemma NumberValues(s: string)
    requires s != "" && AllDigits(s)
    ensures ParseInt(s) == Some(DigitsValue(s)) && ParseInt(['+'] + s) == Some(DigitsValue(s))
    ensures ParseInt(['-'] + s) == Some(0 - DigitsValue(s))
  {
    assert IsDigit(s[0]);
    assert (['+'] + s)[1..] == s && (['-'] + s)[1..] == s;
  }

  /** Zeros in front count nothing. */
  lemma {:induction false} LeadingZero(s: string)
    requires AllDigits(s)
    ensures AllDigits("0" + s) && DigitsValue("0" + s) == DigitsValue(s)
  {
    var z := "0" + s;
    if s == "" {
      assert z[..0] == "" && DigitsValue(z) == 10 * DigitsValue("") + 0;
    } else {
      LeadingZero(s[..|s| - 1]);
      assert z[..|z| - 1] == "0" + s[..|s| - 1];
    }
  }
}
