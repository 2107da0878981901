/** Strings in JSON text: quoting, the scanner's view of a quoted string, and decoding its escapes.
    A byte is a char here; no proof needs it to be below 256. */
module JsonString {
  import opened Wrappers

  // ---- Quoting ----

  predicate IsControl(c: char) { c <= '\U{1F}' }  // with NUL, which the source asks for beside it

  function HexDigit(n: nat): char
    requires n < 16
  {
    if n < 10 then (n + '0' as int) as char else (n - 10 + 'A' as int) as char
  }

  function Escaped(c: char): (s: string)
    ensures s != ""
  {
    if c == '\"' then "\\\""
    else if c == '\\' then "\\\\"
    else if c == '\U{08}' then "\\b"
    else if c == '\U{0C}' then "\\f"
    else if c == '\n' then "\\n"
    else if c == '\r' then "\\r"
    else if c == '\t' then "\\t"
    else if IsControl(c) then "\\u00" + [HexDigit(c as int / 16), HexDigit(c as int % 16)]
    else [c]
  }

  function EscapedAll(s: string): string {
    if s == "" then "" else EscapedAll(s[..|s| - 1]) + Escaped(s[|s| - 1])
  }

  function Quote(s: string): (q: string)
    ensures |q| >= 2 && q[0] == '\"'
  {
    "\"" + EscapedAll(s) + "\""
  }

  predicate IsPlain(c: char) { c != '\"' && c != '\\' && !IsControl(c) }

  lemma {:induction false} PlainUnchanged(s: string)
    requires forall k :: 0 <= k < |s| ==> IsPlain(s[k])
    ensures EscapedAll(s) == s
  {
    hide Escaped;
    if s != "" {
      PlainUnchanged(s[..|s| - 1]);
      EscapedShape(s[|s| - 1]);
    }
  }

  /** valueToQuotedStringN: a string with nothing to escape is copied whole, any other character by character. */
  method ValueToQuotedString(value: string) returns (result: string)
    ensures result == Quote(value)
  {
    if forall k :: 0 <= k < |value| ==> IsPlain(value[k]) {
      PlainUnchanged(value);
      return "\"" + value + "\"";
    }
    result := "\"";
    for i := 0 to |value|
      invariant result == "\"" + EscapedAll(value[..i])
    {
      assert value[..i + 1][..i] == value[..i];
      result := result + Escaped(value[i]);
    }
    assert value[..|value|] == value;
    result := result + "\"";
  }

  // ---- The scanner: how far a string token reaches after its opening quote ----

  datatype Scan = Scan(count: nat, ok: bool)

  // readString: a backslash takes the next character with it, a quote ends the token.
  function ScanString(s: string): (r: Scan)
    ensures r.count <= |s|
    ensures r.ok ==> 0 < r.count && s[r.count - 1] == '\"'
  {
    if s == "" then Scan(0, false)
    else if s[0] == '\"' then Scan(1, true)
    else
      var n := if s[0] == '\\' && |s| > 1 then 2 else 1;
      var rest := ScanString(s[n..]);
      Scan(n + rest.count, rest.ok)
  }

  // ---- Decoding ----

  function HexValue(c: char): (r: Option<nat>)
    ensures r.Some? ==> r.value < 16
  {
    if '0' <= c <= '9' then Some(c as int - '0' as int)
    else if 'a' <= c <= 'f' then Some(c as int - 'a' as int + 10)
    else if 'A' <= c <= 'F' then Some(c as int - 'A' as int + 10)
    else None
  }

  // decodeUnicodeEscapeSequence: the four hexadecimal digits at the front.
  function Hex4(s: string): (r: Option<nat>)
    ensures r.Some? ==> |s| >= 4 && r.value < 0x1_0000
  {
    if |s| < 4 then None
    else
      var a, b, c, d := HexValue(s[0]), HexValue(s[1]), HexValue(s[2]), HexValue(s[3]);
      if a.None? || b.None? || c.None? || d.None? then None
      else Some(a.value * 0x1000 + b.value * 0x100 + c.value * 0x10 + d.value)
  }

  predicate IsHighSurrogate(u: nat) { 0xD800 <= u <= 0xDBFF }

  // decodeUnicodeCodePoint: the code point and how many characters it takes. The second half of a pair is not
  // checked to be a low surrogate.
  function CodePoint(s: string): (r: Option<(nat, nat)>)
    ensures r.Some? ==> 4 <= r.value.1 <= |s| && r.value.0 <= 0x10_FFFF
  {
    var u := Hex4(s);
    if u.None? then None
    else if !IsHighSurrogate(u.value) then Some((u.value, 4))
    else if |s| - 4 < 6 || s[4] != '\\' || s[5] != 'u' then None
    else
      var low := Hex4(s[6..]);
      if low.None? then None
      else Some((0x1_0000 + u.value % 0x400 * 0x400 + low.value % 0x400, 10))
  }

  function Utf8(cp: nat): string {
    if cp <= 0x7F then [cp as char]
    else if cp <= 0x7FF then [(0xC0 + cp / 0x40 % 0x20) as char, (0x80 + cp % 0x40) as char]
    else if cp <= 0xFFFF then
      [(0xE0 + cp / 0x1000 % 0x10) as char, (0x80 + cp / 0x40 % 0x40) as char, (0x80 + cp % 0x40) as char]
    else if cp <= 0x10_FFFF then
      [(0xF0 + cp / 0x4_0000 % 0x8) as char, (0x80 + cp / 0x1000 % 0x40) as char,
       (0x80 + cp / 0x40 % 0x40) as char, (0x80 + cp % 0x40) as char]
    else ""
  }

  function SimpleEscape(c: char): Option<char> {
    if c == '\"' || c == '/' || c == '\\' then Some(c)
    else if c == 'b' then Some('\U{08}')
    else if c == 'f' then Some('\U{0C}')
    else if c == 'n' then Some('\n')
    else if c == 'r' then Some('\r')
    else if c == 't' then Some('\t')
    else None
  }

  // How one unit at the front of a string's inside decodes: its characters and its length.
  function Unit(s: string): (r: Option<(string, nat)>)
    requires s != ""
    ensures r.Some? ==> 0 < r.value.1 <= |s|
  {
    if s[0] != '\\' then Some(([s[0]], 1))
    else if |s| == 1 then None
    else if s[1] == 'u' then
      var cp := CodePoint(s[2..]);
      if cp.None? then None else Some((Utf8(cp.value.0), 2 + cp.value.1))
    else if SimpleEscape(s[1]).Some? then Some(([SimpleEscape(s[1]).value], 2))
    else None
  }

  // decodeString on the text between the quotes; an inner quote would end it.
  function Decode(s: string): Option<string> {
    if s == "" || s[0] == '\"' then Some("")
    else
      var u := Unit(s);
      if u.None? then None
      else
        var rest := Decode(s[u.value.1..]);
        if rest.None? then None else Some(u.value.0 + rest.value)
  }

  /** decodeUnicodeEscapeSequence, at current and before end. */
  method DecodeUnicodeEscapeSequence(doc: string, current: nat, end: nat) returns (ok: bool, next: nat, unicode: nat)
    requires current <= end <= |doc|
    ensures var u := Hex4(doc[current..end]);
            ok == u.Some? && (ok ==> unicode == u.value && next == current + 4)
  {
    next, unicode := current, 0;
    if end - current < 4 {
      return false, next, 0;
    }
    ghost var s := doc[current..end];
    for index := 0 to 4
      invariant next == current + index
      invariant index > 0 ==> HexValue(s[0]).Some?
      invariant index > 1 ==> HexValue(s[1]).Some?
      invariant index > 2 ==> HexValue(s[2]).Some?
      invariant index > 3 ==> HexValue(s[3]).Some?
      invariant unicode == (if index == 0 then 0
                            else if index == 1 then HexValue(s[0]).value
                            else if index == 2 then HexValue(s[0]).value * 0x10 + HexValue(s[1]).value
                            else if index == 3 then HexValue(s[0]).value * 0x100 + HexValue(s[1]).value * 0x10
                                                    + HexValue(s[2]).value
                            else Hex4(s).value)
    {
      var c := doc[next];
      assert c == s[index];
      next := next + 1;
      unicode := unicode * 16;
      if '0' <= c <= '9' {
        unicode := unicode + (c as int - '0' as int);
      } else if 'a' <= c <= 'f' {
        unicode := unicode + (c as int - 'a' as int + 10);
      } else if 'A' <= c <= 'F' {
        unicode := unicode + (c as int - 'A' as int + 10);
      } else {
        return false, next, 0;
      }
    }
    return true, next, unicode;
  }

  /** decodeUnicodeCodePoint. */
  method DecodeUnicodeCodePoint(doc: string, current: nat, end: nat) returns (ok: bool, next: nat, unicode: nat)
    requires current <= end <= |doc|
    ensures var cp := CodePoint(doc[current..end]);
            ok == cp.Some? && (ok ==> unicode == cp.value.0 && next == current + cp.value.1)
  {
    hide Hex4;
    ok, next, unicode := DecodeUnicodeEscapeSequence(doc, current, end);
    if !ok {
      return;
    }
    if 0xD800 <= unicode <= 0xDBFF {
      if end - next < 6 {
        return false, next, unicode;
      }
      if doc[next] == '\\' && doc[next + 1] == 'u' {
        var surrogatePair;
        assert doc[current..end][6..] == doc[next + 2..end];
        ok, next, surrogatePair := DecodeUnicodeEscapeSequence(doc, next + 2, end);
        if ok {
          unicode := 0x1_0000 + unicode % 0x400 * 0x400 + surrogatePair % 0x400;
        }
      } else {
        return false, next, unicode;
      }
    }
  }

  // One turn of decodeString's loop, for a character that is not a quote.
  method DecodeUnit(doc: string, start: nat, end: nat) returns (ok: bool, next: nat, added: string)
    requires start < end <= |doc| && doc[start] != '\"'
    ensures var u := Unit(doc[start..end]);
            && ok == u.Some? && (ok ==> added == u.value.0 && next == start + u.value.1)
  {
    hide CodePoint, Utf8, SimpleEscape;
    ghost var s := doc[start..end];
    var c := doc[start];
    var current := start + 1;
    if c != '\\' {
      return true, current, [c];
    }
    if current == end {
      return false, current, "";
    }
    var escape := doc[current];
    current := current + 1;
    assert s[1] == escape && s[2..] == doc[current..end];
    if escape == 'u' {
      var unicode;
      ok, next, unicode := DecodeUnicodeCodePoint(doc, current, end);
      added := Utf8(unicode);
    } else {
      var simple := SimpleEscape(escape);
      if simple.None? {
        return false, current, "";
      }
      return true, current, [simple.value];
    }
  }

  /** decodeString on the token doc[start..tokenEnd], quotes included; every read is inside the token. */
  method DecodeString(doc: string, start: nat, tokenEnd: nat) returns (r: Option<string>)
    requires start + 2 <= tokenEnd <= |doc|
    ensures r == Decode(doc[start + 1..tokenEnd - 1])
  {
    hide Unit;
    var current, end := start + 1, tokenEnd - 1;
    var decoded := "";
    ghost var whole := Decode(doc[current..end]);
    PrefixedNothing(whole);
    while current != end
      invariant start + 1 <= current <= end
      invariant whole == Prefixed(decoded, Decode(doc[current..end]))
      decreases end - current
    {
      ghost var s := doc[current..end];
      if doc[current] == '\"' {
        break;
      }
      var ok, next, added := DecodeUnit(doc, current, end);
      if !ok {
        return None;
      }
      assert s[next - current..] == doc[next..end];
      PrefixedUnit(decoded, added, Decode(doc[next..end]));
      decoded := decoded + added;
      current := next;
    }
    assert decoded + "" == decoded;
    return Some(decoded);
  }

  function Prefixed(p: string, r: Option<string>): Option<string> {
    if r.None? then None else Some(p + r.value)
  }

  lemma PrefixedNothing(r: Option<string>)
    ensures Prefixed("", r) == r
  {
    if r.Some? {
      assert "" + r.value == r.value;
    }
  }

  lemma PrefixedUnit(p: string, u: string, r: Option<string>)
    ensures Prefixed(p, Prefixed(u, r)) == Prefixed(p + u, r)
  {
    if r.Some? {
      assert p + (u + r.value) == (p + u) + r.value;
    }
  }

  // ---- Reading back what was quoted ----

  lemma EscapedShape(c: char)
    ensures !IsPlain(c) ==> Escaped(c)[0] == '\\' && |Escaped(c)| >= 2
    ensures IsPlain(c) ==> Escaped(c) == [c]
    ensures forall k :: 2 <= k < |Escaped(c)| ==> Escaped(c)[k] != '\"' && Escaped(c)[k] != '\\'
  {
  }

  // One escaped character, with whatever follows it, is one unit that decodes to it.
  lemma UnitOfEscaped(c: char, rest: string)
    ensures Unit(Escaped(c) + rest) == Some(([c], |Escaped(c)|))
    ensures Escaped(c)[0] != '\"'
  {
  }

  lemma {:induction false} EscapedConcat(s: string, t: string)
    ensures EscapedAll(s + t) == EscapedAll(s) + EscapedAll(t)
  {
    hide Escaped;
    if t == "" {
      assert s + t == s;
    } else {
      assert (s + t)[..|s + t| - 1] == s + t[..|t| - 1];
      EscapedConcat(s, t[..|t| - 1]);
    }
  }

  lemma EscapedFirst(s: string)
    requires s != ""
    ensures EscapedAll(s) == Escaped(s[0]) + EscapedAll(s[1..])
  {
    hide Escaped;
    EscapedConcat([s[0]], s[1..]);
    assert [s[0]] + s[1..] == s;
    assert [s[0]][..0] == "";
    assert "" + Escaped(s[0]) == Escaped(s[0]);
    assert EscapedAll([s[0]]) == Escaped(s[0]);
  }

  /** Decoding the inside of a quoted string gives the string back, whatever characters it has. */
  lemma {:induction false} DecodeEscaped(s: string)
    ensures Decode(EscapedAll(s)) == Some(s)
  {
    hide Escaped, Unit;
    if s != "" {
      EscapedFirst(s);
      var rest := EscapedAll(s[1..]);
      DecodeEscaped(s[1..]);
      UnitOfEscaped(s[0], rest);
      assert (Escaped(s[0]) + rest)[|Escaped(s[0])|..] == rest;
      assert [s[0]] + s[1..] == s;
    }
  }

  // The scanner steps over one escaped character.
  lemma ScanEscaped(c: char, rest: string)
    ensures ScanString(Escaped(c) + rest)
         == var r := ScanString(rest); Scan(|Escaped(c)| + r.count, r.ok)
  {
    EscapedShape(c);
    ScanPlain(Escaped(c) + rest, if IsPlain(c) then 1 else 2, |Escaped(c)|);
    assert (Escaped(c) + rest)[|Escaped(c)|..] == rest;
  }

  // From i on, and up to n, only characters that the scanner takes one by one.
  lemma {:induction false} ScanPlain(s: string, i: nat, n: nat)
    requires i <= n <= |s|
    requires forall k :: i <= k < n ==> s[k] != '\"' && s[k] != '\\'
    ensures ScanString(s[i..]) == var r := ScanString(s[n..]); Scan(n - i + r.count, r.ok)
    decreases n - i
  {
    if i < n {
      ScanPlain(s, i + 1, n);
      assert s[i..][1..] == s[i + 1..];
    }
  }

  /** The scanner takes exactly the quoted text, whatever follows. */
  lemma {:induction false} ScanQuoted(s: string, tail: string)
    ensures ScanString(EscapedAll(s) + "\"" + tail) == Scan(|EscapedAll(s)| + 1, true)
  {
    hide Escaped;
    if s == "" {
      assert EscapedAll(s) + "\"" + tail == "\"" + tail;
    } else {
      EscapedFirst(s);
      ScanQuoted(s[1..], tail);
      ScanEscaped(s[0], EscapedAll(s[1..]) + "\"" + tail);
      assert EscapedAll(s) + "\"" + tail == Escaped(s[0]) + (EscapedAll(s[1..]) + "\"" + tail);
    }
  }
}
