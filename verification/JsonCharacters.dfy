/** Which characters the JSON reader and writer mean, written out. */
module JsonCharacters {
  import opened Wrappers
  import opened Slices
  import opened JsonNumber
  import opened JsonString
  import opened JsonSyntax
  import opened JsonStrict
  import opened JsonSpacing

  // ---- Digits and numbers ----

  /** The digits are 0 to 9 in this order. */
  lemma DigitIs(n: nat)
    requires n < 10
    ensures Digit(n) == "0123456789"[n]
  {
  }

  /** A number is written without leading zeros, and zero as one. */
  lemma {:induction false} NoLeadingZero(n: nat)
    ensures UIntText(n)[0] == '0' <==> n == 0
    ensures n < 10 ==> |UIntText(n)| == 1
  {
    if n >= 10 {
      NoLeadingZero(n / 10);
    }
  }

  /** What stands before a group of digits counts ten times for each of them. */
  lemma {:induction false} PlaceValue(a: string, b: string)
    requires AllDigits(a + b)
    ensures AllDigits(a) && AllDigits(b) && ValueOf(a + b) == ValueOf(a) * Power10(|b|) + ValueOf(b)
  {
    assert forall k | 0 <= k < |a| :: a[k] == (a + b)[k];
    assert forall k | 0 <= k < |b| :: b[k] == (a + b)[|a| + k];
    if b == "" {
      assert a + b == a;
    } else {
      var n := |b| - 1;
      assert (a + b)[..|a + b| - 1] == a + b[..n];
      PlaceValue(a, b[..n]);
      assert ValueOf(a + b) == ValueOf(a + b[..n]) * 10 + DigitValue(b[n]);
      TenMore(ValueOf(a), Power10(n), ValueOf(b[..n]), DigitValue(b[n]));
    }
  }

  lemma TenMore(a: nat, p: nat, b: nat, d: nat)
    ensures (a * p + b) * 10 + d == a * (10 * p) + (b * 10 + d)
  {
  }

  // ---- Escapes ----

  /** What is written for each character: a short escape for seven of them, a long one for the other control
      characters, and any other as it is. */
  lemma EscapedIs(c: char)
    ensures forall k | 0 <= k < 7 :: Escaped("\"\\\U{08}\U{0C}\n\r\t"[k]) == ['\\', "\"\\bfnrt"[k]]
    ensures c < ' ' && c !in "\U{08}\U{0C}\n\r\t" ==>
              Escaped(c) == "\\u00" + ["0123456789ABCDEF"[c as int / 16], "0123456789ABCDEF"[c as int % 16]]
    ensures c >= ' ' && c !in "\"\\" ==> Escaped(c) == [c]
  {
  }

  /** What each short escape is read as; every other letter behind a backslash, but the u, is an error. */
  lemma SimpleEscapeIs(c: char)
    ensures forall k | 0 <= k < 8 :: SimpleEscape("\"\\/bfnrt"[k]) == Some("\"\\/\U{08}\U{0C}\n\r\t"[k])
    ensures c !in "\"\\/bfnrt" ==> SimpleEscape(c) == None
  {
  }

  /** Hexadecimal digits, of either case. */
  lemma HexValueIs(k: nat)
    requires k < 16
    ensures HexValue("0123456789abcdef"[k]) == HexValue("0123456789ABCDEF"[k]) == Some(k)
  {
  }

  lemma OnlyHexHasValue(c: char)
    ensures HexValue(c).Some? ==> c in "0123456789" || c in "abcdef" || c in "ABCDEF"
  {
    if '0' <= c <= '9' {
      assert "0123456789"[c as int - '0' as int] == c;
    } else if 'a' <= c <= 'f' {
      assert "abcdef"[c as int - 'a' as int] == c;
    } else if 'A' <= c <= 'F' {
      assert "ABCDEF"[c as int - 'A' as int] == c;
    }
  }

  // ---- White space and comments ----

  /** Blank, tab, carriage return and line feed are skipped before a token; no other character is. */
  lemma SpaceIs(c: char, s: string)
    ensures c in " \t\r\n" ==> NextToken([c] + s) == Moved(NextToken(s), 1)
    ensures c !in " \t\r\n" ==> ReadToken([c] + s).start == 0
  {
    hide NextToken, TokenBody;
    assert ([c] + s)[1..] == s;
    if IsSpace(c) {
      OneSpace([c] + s);
    }
  }

  // The two characters that end a comment do not stand in the text.
  predicate NoEnd(body: string) { forall k | 0 <= k < |body| - 1 :: !(body[k] == '*' && body[k + 1] == '/') }

  /** A comment between slash-star and star-slash is skipped. */
  lemma BlockCommentSkipped(body: string, s: string)
    requires NoEnd(body)
    ensures NextToken("/*" + body + "*/" + s) == Moved(NextToken(s), |body| + 4)
  {
    hide NextToken, ReadToken;
    var text := "/*" + body + "*/" + s;
    assert text[2..] == body + "*/" + s && text[|body| + 4..] == s;
    BlockEnds(body, s);
    BlockToken(text, |body| + 2);
    CommentStep(text);
  }

  lemma {:induction false} BlockEnds(body: string, s: string)
    requires NoEnd(body)
    ensures CStyleComment(body + "*/" + s) == Scan(|body| + 2, true)
  {
    var t := body + "*/" + s;
    if body == "" {
      assert t[0] == '*' && t[1] == '/';
    } else {
      assert t[0] == body[0] && t[1] == if |body| > 1 then body[1] else '*';
      assert t[1..] == body[1..] + "*/" + s;
      BlockEnds(body[1..], s);
    }
  }

  lemma BlockToken(text: string, n: nat)
    requires |text| >= 2 && text[0] == '/' && text[1] == '*' && CStyleComment(text[2..]) == Scan(n, true)
    ensures ReadToken(text) == Token(Comment, 0, n + 2)
  {
    hide CStyleComment, CppStyleCount, ScanString, NumberCount, Keyword;
    assert SpaceCount(text) == 0 && text[1..][1..] == text[2..];
  }

  lemma CommentStep(text: string)
    requires ReadToken(text).kind == Comment
    ensures NextToken(text) == Moved(NextToken(text[ReadToken(text).end..]), ReadToken(text).end)
  {
    hide ReadToken;
  }

  // A line feed, with a carriage return before it or not, a carriage return alone, or the end of the text.
  predicate EndsLine(end: string, s: string) {
    end == "\n" || end == "\r\n" || (end == "\r" && (s == "" || s[0] != '\n')) || (end == "" && s == "")
  }

  /** A comment behind two slashes is skipped with its line. */
  lemma LineCommentSkipped(body: string, end: string, s: string)
    requires '\n' !in body && '\r' !in body && EndsLine(end, s)
    ensures NextToken("//" + (body + end + s)) == Moved(NextToken(s), |body| + |end| + 2)
  {
    hide NextToken, EndsLine, CppStyleCount;
    var line := body + end + s;
    LineEnds(body, end, s);
    LineSkipped(line, |body| + |end|);
    assert line[|body| + |end|..] == s;
  }

  lemma LineSkipped(line: string, n: nat)
    requires CppStyleCount(line) == n <= |line|
    ensures NextToken("//" + line) == Moved(NextToken(line[n..]), n + 2)
  {
    hide NextToken, ReadToken, CppStyleCount;
    var text := "//" + line;
    assert text[2..] == line;
    LineToken(text, n);
    CommentStep(text);
    Drop(text, 2, n);
  }

  lemma {:induction false} LineEnds(body: string, end: string, s: string)
    requires '\n' !in body && '\r' !in body && EndsLine(end, s)
    ensures CppStyleCount(body + end + s) == |body| + |end|
  {
    var t := body + end + s;
    if body != "" {
      assert t[0] == body[0] && t[1..] == body[1..] + end + s;
      LineEnds(body[1..], end, s);
    } else if end != "" {
      assert t[0] == end[0] && (|t| > 1 ==> t[1] == if |end| > 1 then end[1] else s[0]);
    }
  }

  lemma LineToken(text: string, n: nat)
    requires |text| >= 2 && text[0] == '/' && text[1] == '/' && CppStyleCount(text[2..]) == n
    ensures ReadToken(text) == Token(Comment, 0, n + 2)
  {
    hide CStyleComment, CppStyleCount, ScanString, NumberCount, Keyword;
    assert SpaceCount(text) == 0 && text[1..][1..] == text[2..];
  }

  // ---- Recovery and long names ----

  // No token of the kind stands among the tokens of the first n characters.
  predicate NoneOf(s: string, n: nat, kind: Kind)
    decreases |s|
  {
    var t := ReadToken(s);
    t.kind == EndOfStream || t.end > n || (t.kind != kind && NoneOf(s[t.end..], n - t.end, kind))
  }

  /** Recovery goes to the end of the first token of the kind wanted, or to the end of the stream. */
  lemma {:induction false} RecoveryStops(s: string, until: Kind)
    ensures var n := RecoverCount(s, until);
            exists m: nat | m <= n :: NoneOf(s, m, until) && LastToken(s[m..], n - m, until)
    decreases |s|
  {
    hide ReadToken;
    var t := ReadToken(s);
    if t.kind == until || t.kind == EndOfStream {
      assert s[0..] == s;
      assert NoneOf(s, 0, until) && LastToken(s[0..], t.end, until);
    } else {
      var rest := s[t.end..];
      RecoveryStops(rest, until);
      var n := RecoverCount(rest, until);
      var m: nat :| m <= n && NoneOf(rest, m, until) && LastToken(rest[m..], n - m, until);
      Drop(s, t.end, m);
      assert NoneOf(s, t.end + m, until);
    }
  }

  predicate LastToken(s: string, n: nat, kind: Kind) {
    var t := ReadToken(s);
    t.end == n && (t.kind == kind || t.kind == EndOfStream)
  }

  /** A key keeps its characters as far as thirty bits count them. */
  lemma KeyKept(name: string)
    ensures KeyOf(name) <= name && |KeyOf(name)| == |name| % 0x4000_0000
  {
  }
}
