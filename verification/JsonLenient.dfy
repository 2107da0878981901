/** One text for each lapse that the reader lets pass and a strict one does not. */
module JsonLenient {
  import opened Wrappers
  import opened Slices
  import opened JsonNumber
  import opened JsonString
  import opened JsonValue
  import opened JsonSyntax
  import opened JsonStrict

  lemma MinusToken()
    ensures NextToken("-") == Token(NumberText, 0, 1) && DecodeNumber("-") == Integer(0)
  {
    assert "-"[1..] == "" && NumberCount("") == 0;
    NotComment("-");
  }

  /** A minus alone is read as zero. */
  lemma LoneMinus(root: Value, reals: string -> bool)
    ensures Parse("-", root, reals) == Done(true, 1, Int(0), []) && StrictParse("-", reals) == Rejected
  {
    MinusToken();
    assert "-"[0..1] == "-";
  }

  // A mark at the front of a text.
  lemma Mark(s: string)
    requires s != "" && (s[0] == '{' || s[0] == '}' || s[0] == ',' || s[0] == ':')
    ensures ReadToken(s) == NextToken(s)
         == Token(if s[0] == '{' then ObjectBegin else if s[0] == '}' then ObjectEnd
                  else if s[0] == ',' then ArraySeparator else MemberSeparator, 0, 1)
  {
    hide NextToken, ScanString, CommentText, NumberCount, Keyword;
    NotComment(s);
  }

  // A digit, with no more of a number behind it.
  lemma OneDigit(s: string, depth: nat, cur: Value, reals: string -> bool)
    requires depth < STACK_LIMIT && |s| >= 2 && IsDigit(s[0]) && (s[1] == ',' || s[1] == '/' || s[1] == '}')
    ensures ReadValue(s, depth, cur, reals) == Done(true, 1, Int(DigitValue(s[0])), [])
  {
    hide NextToken, ReadMembers, JsonSyntax.ReadArray;
    assert NumberCount(s[1..]) == 0;
    NotComment(s);
    var text := s[0..1];
    assert text == [s[0]] && text[..0] == "";
    assert ValueOf(text) == DigitValue(s[0]);
  }

  // A name of no letter, or of one.
  lemma ShortName(s: string, n: nat)
    requires 2 <= n <= 3 && n <= |s| && s[0] == '\"' && s[n - 1] == '\"' && (n == 3 ==> IsPlain(s[1]))
    ensures NextToken(s) == Token(StringText, 0, n) && Decode(s[1..n - 1]) == Some(s[1..n - 1])
  {
    hide NextToken;
    assert s[1..][n - 2] == '\"';
    assert ScanString(s[1..]) == Scan(n - 1, true) by {
      if n == 3 {
        assert s[1..][1..] == s[2..] && ScanString(s[2..]) == Scan(1, true);
      }
    }
    NotComment(s);
    if n == 3 {
      assert s[1..2] == [s[1]] && s[1..2][1..] == "" && [s[1]] + "" == [s[1]];
    }
  }

  // A member with such a name and such a value, in an object that is not too deep.
  lemma ShortMember(s: string, n: nat, members: seq<Member>, first: bool, last: string, reals: string -> bool)
    requires 2 <= n <= 3 && n + 2 < |s| && s[0] == '\"' && s[n - 1] == '\"' && (n == 3 ==> IsPlain(s[1]))
    requires s[n] == ':' && IsDigit(s[n + 1]) && (s[n + 2] == ',' || s[n + 2] == '/' || s[n + 2] == '}')
    ensures var name, here := s[1..n - 1], Put(members, s[1..n - 1], Int(DigitValue(s[n + 1])));
            && ReadMembers(s, 1, members, last, reals) == Later(AfterMember(s[n + 2..], 1, here, name, reals), n + 2)
            && StrictMembers(s, 1, members, first, reals) == Onward(StrictBehind(s[n + 2..], 1, here, reals), n + 2)
  {
    hide NextToken, ReadToken, ReadValue, StrictValue, AfterMember, StrictBehind, Decode, Put, Lookup;
    var name := s[1..n - 1];
    ShortName(s, n);
    Mark(s[n..]);
    Drop(s, n, 1);
    Drop(s, n + 1, 1);
    OneDigit(s[n + 1..], 1, Lookup(members, name), reals);
    OneDigitStrict(s[n + 1..], 1, reals);
  }

  lemma OneDigitStrict(s: string, depth: nat, reals: string -> bool)
    requires depth < STACK_LIMIT && |s| >= 2 && IsDigit(s[0]) && (s[1] == ',' || s[1] == '/' || s[1] == '}')
    ensures StrictValue(s, depth, reals) == Accepted(1, Int(DigitValue(s[0])))
  {
    hide NextToken, StrictMembers, StrictArray;
    assert NumberCount(s[1..]) == 0;
    NotComment(s);
    var text := s[0..1];
    assert text == [s[0]] && text[..0] == "";
    assert ValueOf(text) == DigitValue(s[0]);
  }

  lemma BraceOpens(s: string, root: Value, reals: string -> bool)
    requires s != "" && s[0] == '{'
    ensures Parse(s, root, reals) == Later(ReadMembers(s[1..], 1, [], "", reals), 1)
    ensures StrictParse(s, reals) == Onward(StrictMembers(s[1..], 1, [], true, reals), 1)
  {
    hide NextToken, ReadMembers, StrictMembers;
    Mark(s);
  }

  // The brace that ends an object, as the next token inside it and behind a member.
  lemma BraceCloses(members: seq<Member>, name: string, reals: string -> bool)
    ensures ReadMembers("}", 1, members, "", reals) == Done(true, 1, Object(members), [])
    ensures StrictMembers("}", 1, members, false, reals) == Rejected
    ensures AfterMember("}", 1, members, name, reals) == Done(true, 1, Object(members), [])
  {
    hide NextToken, ReadToken;
    Mark("}");
  }

  /** A comma may end an object behind a member whose name is empty. */
  lemma CommaEndsObject(root: Value, reals: string -> bool)
    ensures var s := "{\"\":1,}";
            && Parse(s, root, reals) == Done(true, 7, Object([Member("", Int(1))]), [])
            && StrictParse(s, reals) == Rejected
  {
    hide NextToken, ReadToken, ReadMembers, StrictMembers;
    var s := "{\"\":1,}";
    var inner := "\"\":1,}";
    var members := [Member("", Int(1))];
    assert s[1..] == inner && inner[4..] == ",}" && ",}"[1..] == "}" && inner[1..1] == "";
    BraceOpens(s, root, reals);
    ShortMember(inner, 2, [], true, "", reals);
    Mark(",}");
    BraceCloses(members, "", reals);
  }

  const ONE := [Member("a", Int(1))]
  const TWO := [Member("a", Int(1)), Member("b", Int(2))]

  lemma BehindComment(reals: string -> bool)
    ensures var s := "/**/:\"b\":2}";
            && AfterMember(s, 1, ONE, "a", reals) == Done(true, 11, Object(TWO), [])
            && StrictBehind(s, 1, ONE, reals) == Rejected
  {
    hide NextToken, ReadToken, ReadMembers, StrictMembers, Put;
    var behind, more := "/**/:\"b\":2}", "\"b\":2}";
    assert behind[5..] == more && more[5..] == "}" && more[1..2] == "b";
    CommentThenColon(behind);
    ShortMember(more, 3, ONE, false, "a", reals);
    PutBehind();
    BraceCloses(TWO, "b", reals);
  }

  lemma PutBehind()
    ensures Put(ONE, "b", Int(2)) == TWO && Put([], "a", Int(1)) == ONE
  {
  }

  /** Behind a comment, any token may stand for the comma between two members. */
  lemma ColonForComma(root: Value, reals: string -> bool)
    ensures var s := "{\"a\":1/**/:\"b\":2}";
            Parse(s, root, reals) == Done(true, 17, Object(TWO), []) && StrictParse(s, reals) == Rejected
  {
    hide ReadMembers, StrictMembers, AfterMember, StrictBehind, Put, Parse, StrictParse;
    var s, inner := "{\"a\":1/**/:\"b\":2}", "\"a\":1/**/:\"b\":2}";
    assert s[1..] == inner && inner[5..] == "/**/:\"b\":2}" && inner[1..2] == "a";
    BraceOpens(s, root, reals);
    ShortMember(inner, 3, [], true, "", reals);
    PutBehind();
    BehindComment(reals);
  }

  lemma CommentThenColon(s: string)
    requires |s| >= 5 && s[..5] == "/**/:"
    ensures ReadToken(s).kind == Comment && NextToken(s) == Token(MemberSeparator, 4, 5)
  {
    hide NextToken, ReadToken;
    assert s[0] == '/' && s[1] == '*' && s[2] == '*' && s[3] == '/' && s[4] == ':';
    ShortComment(s);
    Mark(s[4..]);
    CommentSkipped(s);
  }

  lemma ShortComment(s: string)
    requires |s| >= 4 && s[0] == '/' && s[1] == '*' && s[2] == '*' && s[3] == '/'
    ensures ReadToken(s) == Token(Comment, 0, 4)
  {
    hide ScanString, NumberCount, Keyword, CStyleComment, CppStyleCount;
    Drop(s, 1, 1);
    EndsAtOnce(s[2..]);
    assert SpaceCount(s) == 0;
    assert CommentText(s[1..]) == Scan(3, true);
  }

  lemma EndsAtOnce(s: string)
    requires |s| >= 2 && s[0] == '*' && s[1] == '/'
    ensures CStyleComment(s) == Scan(2, true)
  {
  }

  lemma CommentSkipped(s: string)
    requires ReadToken(s).kind == Comment
    ensures NextToken(s) == Moved(NextToken(s[ReadToken(s).end..]), ReadToken(s).end)
  {
    hide ReadToken;
  }
}
