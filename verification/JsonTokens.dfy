/** The tokens of JSON text, written out: how far each reaches, and what is none. */
module JsonTokens {
  import opened Wrappers
  import opened JsonNumber
  import opened JsonString
  import opened JsonSyntax
  import opened JsonRoundTrip
  import opened JsonCharacters

  // ---- Numbers ----

  predicate Fraction(f: string) { f == "" || (f[0] == '.' && AllDigits(f[1..])) }

  // An e of either case, a sign or none, and digits or none.
  predicate Exponent(e: string) {
    e == "" || (e[0] in "eE" && (AllDigits(e[1..]) || (|e| > 1 && e[1] in "+-" && AllDigits(e[2..]))))
  }

  // The text s does not go on a number of these parts.
  predicate StopsNumber(fraction: string, exponent: string, s: string) {
    s == "" || (s[0] !in "0123456789"
                && (fraction + exponent == "" ==> s[0] != '.')
                && (exponent == "" ==> s[0] !in "eE")
                && (|exponent| == 1 ==> s[0] !in "+-"))
  }

  /** A number is a digit or a minus with digits, a fraction and an exponent, as far as they go. */
  lemma NumberScanned(c: char, digits: string, fraction: string, exponent: string, s: string)
    requires c in "-0123456789" && AllDigits(digits) && Fraction(fraction) && Exponent(exponent)
    requires StopsNumber(fraction, exponent, s)
    ensures ReadToken([c] + digits + fraction + exponent + s)
         == Token(NumberText, 0, 1 + |digits| + |fraction| + |exponent|)
  {
    hide NumberCount, Fraction, Exponent;
    var text := [c] + digits + fraction + exponent + s;
    assert text[1..] == digits + (fraction + exponent + s);
    NoMoreDigits(fraction, exponent, s);
    DigitsTaken(digits, fraction + exponent + s);
    assert (digits + (fraction + exponent + s))[|digits|..] == fraction + exponent + s;
    FractionTaken(fraction, exponent, s);
    NumberStarts(text, |digits| + |fraction| + |exponent|);
  }

  lemma NumberStarts(text: string, n: nat)
    requires text != "" && text[0] in "-0123456789"
    requires var i := DigitCount(text[1..]); i + FractionCount(text[1..][i..]) == n
    ensures ReadToken(text) == Token(NumberText, 0, 1 + n)
  {
    hide DigitCount, FractionCount, ScanString, CommentText, Keyword;
    assert SpaceCount(text) == 0;
  }

  lemma NoMoreDigits(fraction: string, exponent: string, s: string)
    requires Fraction(fraction) && Exponent(exponent) && StopsNumber(fraction, exponent, s)
    ensures var rest := fraction + exponent + s; rest == "" || !IsDigit(rest[0])
    ensures var rest := exponent + s; rest == "" || !IsDigit(rest[0])
  {
  }

  lemma FractionTaken(fraction: string, exponent: string, s: string)
    requires Fraction(fraction) && Exponent(exponent) && StopsNumber(fraction, exponent, s)
    ensures FractionCount(fraction + exponent + s) == |fraction| + |exponent|
  {
    hide Exponent, ExponentCount;
    var text := fraction + exponent + s;
    NoMoreDigits(fraction, exponent, s);
    ExponentTaken(exponent, s);
    if fraction == "" {
      assert text == exponent + s;
      FirstOfExponent(exponent, s);
    } else {
      assert text[1..] == fraction[1..] + (exponent + s);
      DigitsTaken(fraction[1..], exponent + s);
      assert text[|fraction|..] == exponent + s;
    }
  }

  lemma FirstOfExponent(exponent: string, s: string)
    requires Exponent(exponent) && (s == "" || exponent != "" || s[0] != '.')
    ensures var rest := exponent + s; rest == "" || rest[0] != '.'
  {
  }

  lemma ExponentTaken(exponent: string, s: string)
    requires Exponent(exponent)
    requires s == "" || (s[0] !in "0123456789" && (exponent == "" ==> s[0] !in "eE")
                         && (|exponent| == 1 ==> s[0] !in "+-"))
    ensures ExponentCount(exponent + s) == |exponent|
  {
    hide DigitCount;
    var text := exponent + s;
    if exponent != "" {
      var i := if |exponent| > 1 && exponent[1] in "+-" then 2 else 1;
      assert text[i..] == exponent[i..] + s;
      DigitsTaken(exponent[i..], s);
    }
  }

  // ---- Strings ----

  // No quote stands here but behind a backslash, and no backslash is left over at the end.
  predicate Inside(body: string) {
    body == ""
    || (body[0] == '\\' && |body| > 1 && Inside(body[2..]))
    || (body[0] != '\\' && body[0] != '\"' && Inside(body[1..]))
  }

  /** A string ends with the first quote that no backslash takes. */
  lemma {:induction false} StringScanned(body: string, s: string)
    requires Inside(body)
    ensures ScanString(body + "\"" + s) == Scan(|body| + 1, true)
    ensures ReadToken("\"" + body + "\"" + s) == Token(StringText, 0, |body| + 2)
  {
    hide ReadToken;
    var text := body + "\"" + s;
    if body != "" {
      var n := if body[0] == '\\' then 2 else 1;
      StringScanned(body[n..], s);
      assert text[n..] == body[n..] + "\"" + s;
    }
    assert ("\"" + body + "\"" + s)[1..] == text;
    StringStarts("\"" + body + "\"" + s);
  }

  lemma StringStarts(text: string)
    requires text != "" && text[0] == '\"'
    ensures var r := ScanString(text[1..]); ReadToken(text) == Token(if r.ok then StringText else Bad, 0, 1 + r.count)
  {
    hide ScanString, CommentText, Keyword, NumberCount;
    assert SpaceCount(text) == 0;
  }

  /** A string with no such quote is an error that takes all the text. */
  lemma {:induction false} StringUnfinished(body: string)
    requires Inside(body)
    ensures ScanString(body) == Scan(|body|, false) && ReadToken("\"" + body) == Token(Bad, 0, |body| + 1)
    ensures ScanString(body + "\\") == Scan(|body| + 1, false)
    ensures ReadToken("\"" + body + "\\") == Token(Bad, 0, |body| + 2)
  {
    hide ReadToken;
    if body != "" {
      var n := if body[0] == '\\' then 2 else 1;
      StringUnfinished(body[n..]);
      assert (body + "\\")[n..] == body[n..] + "\\";
    } else {
      assert "\\"[1..] == "" && body + "\\" == "\\";
    }
    assert ("\"" + body)[1..] == body && ("\"" + body + "\\")[1..] == body + "\\";
    StringStarts("\"" + body);
    StringStarts("\"" + body + "\\");
  }

  // ---- What the inside of a string decodes to ----

  /** The parts of a string decode one after the other, and it decodes to nothing if one of them does. */
  lemma {:induction false} DecodeJoins(a: string, b: string)
    requires Inside(a) && Decode(a).Some?
    ensures Decode(a + b)
         == if Decode(b).None? then None else Some(Decode(a).value + Decode(b).value)
    decreases |a|
  {
    hide Unit, Inside;
    if a == "" {
      assert a + b == b && Decode(a) == Some("");
      assert Decode(b).Some? ==> "" + Decode(b).value == Decode(b).value;
    } else {
      InsideStarts(a);
      UnitKept(a, b);
      var n := Unit(a).value.1;
      UnitInside(a);
      assert (a + b)[n..] == a[n..] + b;
      DecodeJoins(a[n..], b);
      assert (a + b)[0] == a[0];
      Joined(Unit(a).value.0, Decode(a[n..]).value, b);
    }
  }

  lemma Joined(a: string, b: string, c: string)
    ensures Decode(c).Some? ==> a + (b + Decode(c).value) == a + b + Decode(c).value
  {
    hide Decode;
  }

  lemma InsideStarts(a: string)
    requires a != "" && Inside(a)
    ensures a[0] != '\"'
  {
  }

  // What is behind a unit does not change it.
  lemma UnitKept(a: string, b: string)
    requires a != "" && Unit(a).Some?
    ensures Unit(a + b) == Unit(a)
  {
    hide Hex4, Utf8, SimpleEscape;
    if a[0] == '\\' && a[1] == 'u' {
      var s := a[2..];
      assert (a + b)[2..] == s + b;
      HexKept(s, b);
      if CodePoint(s).value.1 == 10 {
        PairHex(s);
        assert (s + b)[6..] == s[6..] + b;
        HexKept(s[6..], b);
      }
    }
  }

  lemma HexKept(s: string, b: string)
    requires Hex4(s).Some?
    ensures Hex4(s + b) == Hex4(s)
  {
  }

  lemma UnitInside(a: string)
    requires a != "" && Inside(a) && Unit(a).Some?
    ensures Inside(a[Unit(a).value.1..])
  {
    hide Hex4, Utf8, SimpleEscape;
    if a[0] == '\\' && a[1] == 'u' {
      var s := a[2..];
      HexInside(s);
      assert a[6..] == s[4..];
      if CodePoint(s).value.1 == 10 {
        PairHex(s);
        assert s[4..][0] == '\\' && s[4..][2..] == s[6..] && s[6..][4..] == a[12..];
        HexInside(s[6..]);
      }
    }
  }

  lemma PairHex(s: string)
    requires CodePoint(s).Some? && CodePoint(s).value.1 == 10
    ensures s[4] == '\\' && Hex4(s[6..]).Some?
  {
    hide Hex4;
  }

  lemma HexInside(s: string)
    requires Hex4(s).Some? && Inside(s)
    ensures Inside(s[4..])
  {
    assert s[1..][1..] == s[2..] && s[2..][1..] == s[3..] && s[3..][1..] == s[4..];
    PlainInside(s);
    PlainInside(s[1..]);
    PlainInside(s[2..]);
    PlainInside(s[3..]);
  }

  lemma PlainInside(s: string)
    requires s != "" && s[0] != '\\' && Inside(s)
    ensures Inside(s[1..])
  {
  }

  /** A backslash that no letter follows, or another letter than those of the escapes, is an error. */
  lemma BadEscape(c: char, b: string)
    requires c !in "\"\\/bfnrtu"
    ensures Decode(['\\', c] + b) == None && Decode("\\") == None
  {
  }

  /** A short escape decodes to its character, and any character but a backslash and a quote to itself. */
  lemma OneDecodes(c: char, k: nat)
    requires k < 8
    ensures Decode(['\\', "\"\\/bfnrt"[k]]) == Some(["\"\\/\U{08}\U{0C}\n\r\t"[k]])
    ensures c != '\\' && c != '\"' ==> Decode([c]) == Some([c])
  {
    var s := ['\\', "\"\\/bfnrt"[k]];
    assert s[2..] == "" && [c][1..] == "" && Decode("") == Some("");
    SimpleEscapeIs(c);
    var x := "\"\\/\U{08}\U{0C}\n\r\t"[k];
    assert Unit(s) == Some(([x], 2)) && [x] + "" == [x] && [c] + "" == [c];
  }

  // ---- Comments, words and marks ----

  /** A comment that is not ended is an error that takes all the text, and so is a slash with any other character. */
  lemma {:induction false} CommentUnfinished(body: string, c: char, s: string)
    requires NoEnd(body)
    ensures CStyleComment(body) == Scan(|body|, false) && ReadToken("/*" + body) == Token(Bad, 0, |body| + 2)
    ensures ReadToken("/") == Token(Bad, 0, 1)
    ensures c !in "*/" ==> ReadToken(['/', c] + s) == Token(Bad, 0, 2)
  {
    if body != "" {
      assert forall k | 0 <= k < |body| - 1 :: body[1..][k] == body[k + 1];
      CommentUnfinished(body[1..], c, s);
    }
    assert "/"[1..] == "";
    CommentStarts("/");
    assert ("/*" + body)[1..][1..] == body;
    CommentStarts("/*" + body);
    CommentStarts(['/', c] + s);
  }

  lemma CommentStarts(text: string)
    requires text != "" && text[0] == '/'
    ensures var r := CommentText(text[1..]); ReadToken(text) == Token(if r.ok then Comment else Bad, 0, 1 + r.count)
  {
    hide ScanString, CommentText, Keyword, NumberCount;
    assert SpaceCount(text) == 0;
  }

  /** A small letter begins a token only as one of the three words; the word is taken whole, and nothing of what
      is behind it. */
  lemma WordScanned(c: char, s: string)
    requires 'a' <= c <= 'z'
    ensures var text := [c] + s;
            ReadToken(text) == if "true" <= text then Token(TrueText, 0, 4)
                               else if "false" <= text then Token(FalseText, 0, 5)
                               else if "null" <= text then Token(NullText, 0, 4)
                               else Token(Bad, 0, 1)
  {
    var text := [c] + s;
    assert text[1..] == s && SpaceCount(text) == 0;
    StartsWith(c, s, "true");
    StartsWith(c, s, "false");
    StartsWith(c, s, "null");
  }

  lemma StartsWith(c: char, s: string, word: string)
    requires word != ""
    ensures word <= [c] + s <==> word[0] == c && word[1..] <= s
  {
    assert word == [word[0]] + word[1..];
  }

  /** Each mark is a token of its own. */
  lemma MarkScanned(k: nat, s: string)
    requires k < 6
    ensures ReadToken(["{}[],:"[k]] + s)
         == Token([ObjectBegin, ObjectEnd, ArrayBegin, ArrayEnd, ArraySeparator, MemberSeparator][k], 0, 1)
  {
    hide ScanString, CommentText, Keyword, NumberCount;
    var c := "{}[],:"[k];
    assert !IsSpace(c) && SpaceCount([c] + s) == 0;
  }

  /** A NUL ends the stream, and any other character that begins no token is an error by itself. */
  lemma OtherScanned(c: char, s: string)
    ensures c !in "{}[],:\"/-0123456789tfn\0 \t\r\n" ==> ReadToken([c] + s) == Token(Bad, 0, 1)
    ensures ReadToken("\0" + s) == Token(EndOfStream, 0, 1) && ReadToken("") == Token(EndOfStream, 0, 0)
  {
    hide ScanString, CommentText, Keyword, NumberCount;
    assert !IsSpace(c) ==> SpaceCount([c] + s) == 0;
  }
}
