/** The writer puts nothing between the tokens of its text. */
module JsonCompact {
  import opened JsonNumber
  import opened JsonString
  import opened JsonValue
  import opened JsonSyntax
  import opened JsonWriter
  import opened JsonRoundTrip

  // Every token stands right behind the one before it, and none is a comment.
  predicate Packed(s: string)
    decreases |s|
  {
    var t := ReadToken(s);
    s == "" || (t.start == 0 && t.end > 0 && t.kind != Comment && Packed(s[t.end..]))
  }

  lemma PackedStep(s: string, n: nat)
    requires s != "" && !IsSpace(s[0]) && s[0] != '/'
    requires 0 < n <= |s| && NextToken(s).end == n && Packed(s[n..])
    ensures Packed(s)
  {
    hide NextToken, ReadToken;
    FirstToken(s);
  }

  lemma MarkPacked(c: char, tail: string)
    requires c == '[' || c == ']' || c == '{' || c == '}' || c == ',' || c == ':'
    requires Packed(tail)
    ensures Packed([c] + tail) && Delimited([c] + tail)
  {
    hide NextToken, ReadToken, Packed;
    MarkToken(c, tail);
    PackedStep([c] + tail, 1);
  }

  lemma QuotePacked(q: string, tail: string)
    requires Packed(tail)
    ensures Packed(Quote(q) + tail)
  {
    hide NextToken, ReadToken, Packed, EscapedAll;
    StringToken(q, tail);
    assert (Quote(q) + tail)[|Quote(q)|..] == tail;
    PackedStep(Quote(q) + tail, |Quote(q)|);
  }

  lemma LeafPacked(v: Value, tail: string)
    requires Printable(v) && !v.Array? && !v.Object? && Packed(tail) && Delimited(tail)
    ensures Packed(Text(v) + tail)
  {
    hide NextToken, ReadToken, Packed, IntText, Quote;
    var t := Text(v);
    TextStarts(v);
    assert (t + tail)[0] == t[0] && (t + tail)[|t|..] == tail;
    match v {
      case Null => KeywordToken("null", tail);
      case Bool(b) => KeywordToken(t, tail);
      case Int(i) => NumberToken(i, tail);
      case UInt(u) => NumberToken(u, tail);
      case Str(q) => StringToken(q, tail);
    }
    PackedStep(t + tail, |t|);
  }

  lemma BracketsPacked(open: char, inside: string, close: char, tail: string)
    requires (open == '[' || open == '{') && Packed(inside + ([close] + tail))
    ensures Packed([open] + inside + [close] + tail)
  {
    hide Packed;
    MarkPacked(open, inside + ([close] + tail));
    assert [open] + inside + [close] + tail == [open] + (inside + ([close] + tail));
  }

  lemma {:induction false} TextPacked(v: Value, tail: string)
    requires Printable(v) && Packed(tail) && Delimited(tail)
    ensures Packed(Text(v) + tail)
    decreases v, 1
  {
    hide Packed;
    match v
    case Array(elems) =>
      MarkPacked(']', tail);
      ElemsPacked(elems, [']'] + tail);
      BracketsPacked('[', ElemsText(elems), ']', tail);
    case Object(members) =>
      MarkPacked('}', tail);
      MembersPacked(members, ['}'] + tail);
      BracketsPacked('{', MembersText(members), '}', tail);
    case _ =>
      LeafPacked(v, tail);
  }

  lemma {:induction false} ElemsPacked(vs: seq<Value>, tail: string)
    requires AllPrintable(vs) && Packed(tail) && Delimited(tail)
    ensures Packed(ElemsText(vs) + tail)
    decreases vs, 0
  {
    hide Packed, Text, Printable, ElemsText;
    ElemsStart(vs, tail);
    if vs != [] {
      if |vs| == 1 {
        TextPacked(vs[0], tail);
      } else {
        var rest := ElemsText(vs[1..]) + tail;
        ElemsPacked(vs[1..], tail);
        MarkPacked(',', rest);
        TextPacked(vs[0], [','] + rest);
      }
    }
  }

  lemma ElemsStart(vs: seq<Value>, tail: string)
    ensures ElemsText(vs) + tail
         == if vs == [] then tail else if |vs| == 1 then Text(vs[0]) + tail
            else Text(vs[0]) + ([','] + (ElemsText(vs[1..]) + tail))
  {
    hide Text;
    if |vs| > 1 {
      Commas(Text(vs[0]), ElemsText(vs[1..]), tail);
    }
  }

  lemma {:induction false} MembersPacked(ms: seq<Member>, tail: string)
    requires (forall m <- ms :: Printable(m.value)) && Packed(tail) && Delimited(tail)
    ensures Packed(MembersText(ms) + tail)
    decreases ms, 0
  {
    hide Packed, Printable, MemberText, MembersText;
    MembersStart(ms, tail);
    if ms != [] {
      if |ms| == 1 {
        MemberPacked(ms[0], tail);
      } else {
        var rest := MembersText(ms[1..]) + tail;
        MembersPacked(ms[1..], tail);
        MarkPacked(',', rest);
        MemberPacked(ms[0], [','] + rest);
      }
    }
  }

  lemma MembersStart(ms: seq<Member>, tail: string)
    ensures MembersText(ms) + tail
         == if ms == [] then tail else if |ms| == 1 then MemberText(ms[0]) + tail
            else MemberText(ms[0]) + ([','] + (MembersText(ms[1..]) + tail))
  {
    hide MemberText;
    if |ms| > 1 {
      Commas(MemberText(ms[0]), MembersText(ms[1..]), tail);
    }
  }

  lemma {:induction false} MemberPacked(m: Member, tail: string)
    requires Printable(m.value) && Packed(tail) && Delimited(tail)
    ensures Packed(MemberText(m) + tail)
    decreases m
  {
    hide Packed, Text, Printable;
    var value := Text(m.value) + tail;
    TextPacked(m.value, tail);
    MarkPacked(':', value);
    QuotePacked(m.key, [':'] + value);
    assert MemberText(m) + tail == Quote(m.key) + ([':'] + value);
  }

  /** In written text every token stands right behind the one before it. */
  lemma WrittenPacked(v: Value)
    requires Printable(v)
    ensures Packed(Text(v))
  {
    hide Text, Printable;
    TextPacked(v, "");
    assert Text(v) + "" == Text(v);
  }
}
