/** What the \u escapes and their UTF-8 mean: RFC 2781 for the 16-bit units, RFC 3629 for the bytes. */
module JsonUnicode {
  import opened Wrappers
  import opened JsonString

  predicate IsLowSurrogate(u: nat) { 0xDC00 <= u <= 0xDFFF }

  // A code point that is no surrogate.
  predicate IsScalar(cp: nat) { cp <= 0x10_FFFF && !IsHighSurrogate(cp) && !IsLowSurrogate(cp) }

  // ---- UTF-16 ----

  // The units that stand for a scalar value (section 2.1 of RFC 2781); nothing stands for a surrogate.
  function Units(cp: nat): seq<nat> {
    if !IsScalar(cp) then []
    else if cp < 0x1_0000 then [cp]
    else [0xD800 + (cp - 0x1_0000) / 0x400, 0xDC00 + (cp - 0x1_0000) % 0x400]
  }

  // The text behind a first "\u" gives these units, each in four hexadecimal digits of either case.
  predicate Spells(s: string, units: seq<nat>) {
    if |units| == 1 then Hex4(s) == Some(units[0])
    else
      && |units| == 2 && |s| >= 10 && s[4] == '\\' && s[5] == 'u'
      && Hex4(s) == Some(units[0]) && Hex4(s[6..]) == Some(units[1])
  }

  /** Every scalar value is decoded from its escape, or its pair of escapes, in whatever digits. */
  lemma ScalarDecodes(s: string, cp: nat)
    requires IsScalar(cp) && Spells(s, Units(cp))
    ensures CodePoint(s) == Some((cp, if |Units(cp)| == 1 then 4 else 10))
  {
    hide Hex4;
    if cp >= 0x1_0000 {
      PairJoins(cp - 0x1_0000);
    }
  }

  lemma PairJoins(v: nat)
    requires v < 0x10_0000
    ensures IsHighSurrogate(0xD800 + v / 0x400) && IsLowSurrogate(0xDC00 + v % 0x400)
    ensures (0xD800 + v / 0x400) % 0x400 * 0x400 + (0xDC00 + v % 0x400) % 0x400 == v
  {
    assert 0xD800 == 54 * 0x400 && 0xDC00 == 55 * 0x400;
    assert v == v / 0x400 * 0x400 + v % 0x400;
  }

  // The units that were read for a code point of that length.
  function UnitsRead(s: string, count: nat): seq<nat>
    requires Hex4(s).Some? && (count == 4 || (|s| >= 10 && Hex4(s[6..]).Some?))
  {
    if count == 4 then [Hex4(s).value] else [Hex4(s).value, Hex4(s[6..]).value]
  }

  /** What is decoded is the scalar value that the units stand for exactly when the first of them is no low
      surrogate and the one behind a high surrogate is. */
  lemma DecodesUnitsExactly(s: string)
    requires CodePoint(s).Some?
    ensures var (cp, count) := CodePoint(s).value;
            && (count == 4 || (|s| >= 10 && Hex4(s[6..]).Some?))
            && (UnitsRead(s, count) == Units(cp)
                <==> !IsLowSurrogate(Hex4(s).value)
                     && (IsHighSurrogate(Hex4(s).value) ==> IsLowSurrogate(Hex4(s[6..]).value)))
  {
    hide Hex4;
    var u := Hex4(s).value;
    if IsHighSurrogate(u) {
      var low := Hex4(s[6..]).value;
      var v := u % 0x400 * 0x400 + low % 0x400;
      HighOf(u, low % 0x400);
      assert CodePoint(s) == Some((0x1_0000 + v, 10));
      if IsLowSurrogate(low) {
        assert low == 0xDC00 + low % 0x400;
      }
    }
  }

  lemma HighOf(u: nat, r: nat)
    requires IsHighSurrogate(u) && r < 0x400
    ensures var v := u % 0x400 * 0x400 + r; v < 0x10_0000 && 0xD800 + v / 0x400 == u && v % 0x400 == r
  {
    assert u % 0x400 == u - 54 * 0x400;
  }

  // A high surrogate and a letter make a code point that they do not stand for.
  lemma UnpairedIsJoined()
    ensures CodePoint("D800\\u0041") == Some((0x1_0041, 10)) && Units(0x1_0041) == [0xD800, 0xDC41]
  {
    assert Hex4("D800\\u0041") == Some(0xD800);
    assert "D800\\u0041"[6..] == "0041";
    assert Hex4("0041") == Some(0x41);
  }

  // ---- UTF-8 ----

  predicate IsTrail(c: char) { 0x80 <= c as int < 0xC0 }

  function Trail(c: char): int { c as int - 0x80 }

  // The number in the bytes at the front of a text and how many bytes it takes, in the shortest form only.
  function ReadBytes(s: string): Option<(nat, nat)> {
    if s == "" then None
    else
      var b := s[0] as int;
      if b < 0x80 then Some((b, 1))
      else if 0xC0 <= b < 0xE0 && |s| >= 2 && IsTrail(s[1]) then
        Shortest((b - 0xC0) * 0x40 + Trail(s[1]), 2, 0x80)
      else if 0xE0 <= b < 0xF0 && |s| >= 3 && IsTrail(s[1]) && IsTrail(s[2]) then
        Shortest((b - 0xE0) * 0x1000 + Trail(s[1]) * 0x40 + Trail(s[2]), 3, 0x800)
      else if 0xF0 <= b < 0xF8 && |s| >= 4 && IsTrail(s[1]) && IsTrail(s[2]) && IsTrail(s[3]) then
        Shortest((b - 0xF0) * 0x4_0000 + Trail(s[1]) * 0x1000 + Trail(s[2]) * 0x40 + Trail(s[3]), 4, 0x1_0000)
      else None
  }

  function Shortest(n: nat, count: nat, least: nat): Option<(nat, nat)> {
    if n >= least then Some((n, count)) else None
  }

  // UTF-8 as section 4 of RFC 3629 has it: a scalar value, and nothing else.
  function ReadUtf8(s: string): Option<(nat, nat)> {
    match ReadBytes(s)
    case None => None
    case Some((n, count)) => if IsScalar(n) then Some((n, count)) else None
  }

  /** What codePointToUTF8 writes is read back as the code point it was, and it is UTF-8 exactly when that is no
      surrogate. */
  lemma Utf8ReadsBack(cp: nat, rest: string)
    requires cp <= 0x10_FFFF
    ensures ReadBytes(Utf8(cp) + rest) == Some((cp, |Utf8(cp)|))
    ensures ReadUtf8(Utf8(cp) + rest) == Some((cp, |Utf8(cp)|)) <==> IsScalar(cp)
  {
    hide ReadBytes, Utf8;
    if cp <= 0x7F {
      OneByte(cp, rest);
    } else if cp <= 0x7FF {
      TwoBytes(cp, rest);
    } else if cp <= 0xFFFF {
      ThreeBytes(cp, rest);
    } else {
      FourBytes(cp, rest);
    }
  }

  lemma OneByte(cp: nat, rest: string)
    requires cp <= 0x7F
    ensures ReadBytes(Utf8(cp) + rest) == Some((cp, 1)) && |Utf8(cp)| == 1
  {
  }

  lemma TwoBytes(cp: nat, rest: string)
    requires 0x7F < cp <= 0x7FF
    ensures ReadBytes(Utf8(cp) + rest) == Some((cp, 2)) && |Utf8(cp)| == 2
  {
    var a, b := cp / 0x40, cp % 0x40;
    assert cp == a * 0x40 + b && a < 0x20;
    var s := Utf8(cp) + rest;
    assert s[0] == (0xC0 + a) as char && s[1] == (0x80 + b) as char;
    assert Trail(s[1]) == b;
  }

  lemma ThreeBytes(cp: nat, rest: string)
    requires 0x7FF < cp <= 0xFFFF
    ensures ReadBytes(Utf8(cp) + rest) == Some((cp, 3)) && |Utf8(cp)| == 3
  {
    ThreeParts(cp);
    var a, b, c := cp / 0x1000, cp / 0x40 % 0x40, cp % 0x40;
    assert a < 0x10;
    var s := Utf8(cp) + rest;
    assert s[0] == (0xE0 + a) as char && s[1] == (0x80 + b) as char && s[2] == (0x80 + c) as char;
    assert Trail(s[1]) == b && Trail(s[2]) == c;
  }

  lemma FourBytes(cp: nat, rest: string)
    requires 0xFFFF < cp <= 0x10_FFFF
    ensures ReadBytes(Utf8(cp) + rest) == Some((cp, 4)) && |Utf8(cp)| == 4
  {
    FourParts(cp);
    var a, b, c, d := cp / 0x4_0000, cp / 0x1000 % 0x40, cp / 0x40 % 0x40, cp % 0x40;
    assert a < 0x8;
    var s := Utf8(cp) + rest;
    assert s[0] == (0xF0 + a) as char && s[1] == (0x80 + b) as char;
    assert s[2] == (0x80 + c) as char && s[3] == (0x80 + d) as char;
    assert Trail(s[1]) == b && Trail(s[2]) == c && Trail(s[3]) == d;
  }

  lemma ThreeParts(cp: nat)
    ensures cp == cp / 0x1000 * 0x1000 + cp / 0x40 % 0x40 * 0x40 + cp % 0x40
  {
    assert cp == cp / 0x40 * 0x40 + cp % 0x40;
    assert cp / 0x40 == cp / 0x40 / 0x40 * 0x40 + cp / 0x40 % 0x40;
    assert cp / 0x40 / 0x40 == cp / 0x1000;
  }

  lemma FourParts(cp: nat)
    ensures cp == cp / 0x4_0000 * 0x4_0000 + cp / 0x1000 % 0x40 * 0x1000 + cp / 0x40 % 0x40 * 0x40 + cp % 0x40
  {
    ThreeParts(cp);
    assert cp / 0x1000 == cp / 0x1000 / 0x40 * 0x40 + cp / 0x1000 % 0x40;
    assert cp / 0x1000 / 0x40 == cp / 0x4_0000;
  }

  // ---- A whole escape ----

  function LowerHexDigit(n: nat): char
    requires n < 16
  {
    if n < 10 then (n + '0' as int) as char else (n - 10 + 'a' as int) as char
  }

  function HexText(u: nat): (s: string)
    requires u < 0x1_0000
    ensures |s| == 4
  {
    [LowerHexDigit(u / 0x1000), LowerHexDigit(u / 0x100 % 0x10),
     LowerHexDigit(u / 0x10 % 0x10), LowerHexDigit(u % 0x10)]
  }

  function EscapeText(cp: nat): string
    requires IsScalar(cp)
  {
    var units := Units(cp);
    if |units| == 1 then "\\u" + HexText(units[0])
    else "\\u" + HexText(units[0]) + "\\u" + HexText(units[1])
  }

  lemma HexReadsBack(u: nat, rest: string)
    requires u < 0x1_0000
    ensures Hex4(HexText(u) + rest) == Some(u)
  {
    assert u == u / 0x10 * 0x10 + u % 0x10;
    assert u / 0x10 == u / 0x10 / 0x10 * 0x10 + u / 0x10 % 0x10 && u / 0x10 / 0x10 == u / 0x100;
    assert u / 0x100 == u / 0x100 / 0x10 * 0x10 + u / 0x100 % 0x10 && u / 0x100 / 0x10 == u / 0x1000;
    DigitReadsBack(u / 0x1000);
    DigitReadsBack(u / 0x100 % 0x10);
    DigitReadsBack(u / 0x10 % 0x10);
    DigitReadsBack(u % 0x10);
  }

  lemma DigitReadsBack(n: nat)
    requires n < 16
    ensures HexValue(LowerHexDigit(n)) == Some(n)
  {
  }

  /** A string that is the escape of a scalar value decodes to bytes which read back to that value. */
  lemma EscapeMeansScalar(cp: nat)
    requires IsScalar(cp)
    ensures Decode(EscapeText(cp)).Some?
    ensures var bytes := Decode(EscapeText(cp)).value; ReadUtf8(bytes) == Some((cp, |bytes|))
  {
    hide Hex4, HexText, CodePoint, Utf8, ReadUtf8;
    var units, e := Units(cp), EscapeText(cp);
    var s := e[2..];
    if |units| == 1 {
      HexReadsBack(cp, "");
      assert s == HexText(cp) + "";
    } else {
      PairJoins(cp - 0x1_0000);
      var second := "\\u" + HexText(units[1]);
      HexReadsBack(units[0], second);
      HexReadsBack(units[1], "");
      assert s == HexText(units[0]) + second;
      assert s[6..] == HexText(units[1]) + "";
    }
    ScalarDecodes(s, cp);
    assert Unit(e) == Some((Utf8(cp), |e|));
    assert e[|e|..] == "" && Decode("") == Some("");
    assert Utf8(cp) + "" == Utf8(cp);
    Utf8ReadsBack(cp, "");
  }

  /** Nothing else is read: the bytes of what is read are those that the code point is written with. */
  lemma OnlyWrittenIsRead(s: string)
    requires ReadUtf8(s).Some?
    ensures var (cp, count) := ReadUtf8(s).value; count <= |s| && s[..count] == Utf8(cp)
  {
    if s != "" {
      AnyWritten(s);
    }
  }

  lemma AnyWritten(s: string)
    requires s != ""
    ensures Written(s)
  {
    hide ReadBytes, Utf8;
    var b := s[0] as int;
    if b < 0x80 {
      OneWritten(s);
    } else if b < 0xE0 {
      TwoWritten(s);
    } else if b < 0xF0 {
      ThreeWritten(s);
    } else {
      FourWritten(s);
    }
  }

  // The bytes at the front are those that the code point is written with.
  predicate Written(s: string) {
    ReadBytes(s).Some? ==>
      var (cp, count) := ReadBytes(s).value;
      count <= |s| && (cp <= 0x10_FFFF ==> s[..count] == Utf8(cp))
  }

  lemma OneWritten(s: string)
    requires s != "" && s[0] as int < 0x80
    ensures Written(s)
  {
  }

  lemma TwoWritten(s: string)
    requires s != "" && 0x80 <= s[0] as int < 0xE0
    ensures Written(s)
  {
    if ReadBytes(s).Some? {
      TwoRead(s[0] as int - 0xC0, Trail(s[1]));
    }
  }

  lemma ThreeWritten(s: string)
    requires s != "" && 0xE0 <= s[0] as int < 0xF0
    ensures Written(s)
  {
    if ReadBytes(s).Some? {
      ThreeRead(s[0] as int - 0xE0, Trail(s[1]), Trail(s[2]));
    }
  }

  lemma FourWritten(s: string)
    requires s != "" && 0xF0 <= s[0] as int
    ensures Written(s)
  {
    if ReadBytes(s).Some? {
      FourRead(s[0] as int - 0xF0, Trail(s[1]), Trail(s[2]), Trail(s[3]));
    }
  }

  lemma TwoRead(a: int, b: int)
    requires 0 <= a && 0 <= b < 0x40
    ensures var cp := a * 0x40 + b; cp / 0x40 == a && cp % 0x40 == b
  {
  }

  lemma ThreeRead(a: int, b: int, c: int)
    requires 0 <= a && 0 <= b < 0x40 && 0 <= c < 0x40
    ensures var cp := a * 0x1000 + b * 0x40 + c; cp / 0x1000 == a && cp / 0x40 % 0x40 == b && cp % 0x40 == c
  {
    var cp := a * 0x1000 + b * 0x40 + c;
    TwoRead(a * 0x40 + b, c);
    TwoRead(a, b);
    assert cp / 0x1000 == cp / 0x40 / 0x40;
  }

  lemma FourRead(a: int, b: int, c: int, d: int)
    requires 0 <= a < 0x8 && 0 <= b < 0x40 && 0 <= c < 0x40 && 0 <= d < 0x40
    ensures var cp := a * 0x4_0000 + b * 0x1000 + c * 0x40 + d;
            cp / 0x4_0000 == a && cp / 0x1000 % 0x40 == b && cp / 0x40 % 0x40 == c && cp % 0x40 == d
  {
    var cp := a * 0x4_0000 + b * 0x1000 + c * 0x40 + d;
    TwoRead(a * 0x1000 + b * 0x40 + c, d);
    ThreeRead(a, b, c);
    assert cp / 0x4_0000 == cp / 0x40 / 0x1000 && cp / 0x1000 == cp / 0x40 / 0x40;
  }
}
