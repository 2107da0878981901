/** The reader undoes the writer, up to the tag of integers, exactly while the nesting stays within the limit. */
module JsonRoundTrip {
  import opened Wrappers
  import opened JsonNumber
  import opened JsonString
  import opened JsonKeys
  import opened JsonValue
  import opened JsonSyntax
  import opened JsonWriter
  import opened JsonStrict

  // ---- What comes back: the same tree, with the tag that fits the number ----

  function Normal(v: Value): Value
    decreases v
  {
    match v
    case Int(i) => Tagged(i)
    case UInt(u) => Tagged(u)
    case Array(elems) => Array(NormalAll(elems))
    case Object(members) => Object(NormalMembers(members))
    case _ => v
  }

  function NormalAll(vs: seq<Value>): (r: seq<Value>)
    ensures |r| == |vs|
    decreases vs
  {
    if vs == [] then [] else [Normal(vs[0])] + NormalAll(vs[1..])
  }

  function NormalMembers(ms: seq<Member>): (r: seq<Member>)
    ensures |r| == |ms|
    ensures forall k :: 0 <= k < |ms| ==> r[k].key == ms[k].key
    decreases ms
  {
    if ms == [] then [] else [Member(ms[0].key, Normal(ms[0].value))] + NormalMembers(ms[1..])
  }

  // What comes back of a tree whose members were written in any order, and under one name more than once: the last
  // one counts.
  function Gathered(v: Value): Value
    decreases v
  {
    match v
    case Int(i) => Tagged(i)
    case UInt(u) => Tagged(u)
    case Array(elems) => Array(GatheredAll(elems))
    case Object(members) => Object(Collected([], members))
    case _ => v
  }

  function GatheredAll(vs: seq<Value>): (r: seq<Value>)
    ensures |r| == |vs|
    decreases vs
  {
    if vs == [] then [] else [Gathered(vs[0])] + GatheredAll(vs[1..])
  }

  function Collected(done: seq<Member>, ms: seq<Member>): seq<Member>
    decreases ms
  {
    if ms == [] then done else Collected(Put(done, ms[0].key, Gathered(ms[0].value)), ms[1..])
  }

  // How many calls of readValue are open at the deepest place.
  function Depth(v: Value): (d: nat)
    ensures d > 0
    decreases v
  {
    match v
    case Array(elems) => 1 + ElemsDepth(elems)
    case Object(members) => 1 + MembersDepth(members)
    case _ => 1
  }

  function Max(a: nat, b: nat): nat { if a < b then b else a }

  function ElemsDepth(vs: seq<Value>): nat
    decreases vs
  {
    if vs == [] then 0 else Max(Depth(vs[0]), ElemsDepth(vs[1..]))
  }

  function MembersDepth(ms: seq<Member>): nat
    decreases ms
  {
    if ms == [] then 0 else Max(Depth(ms[0].value), MembersDepth(ms[1..]))
  }

  // ---- Tokens at the front of written text ----

  // A character that cannot go on a number.
  predicate Delimited(tail: string) {
    tail == "" || (!IsDigit(tail[0]) && tail[0] != '.' && tail[0] != 'e' && tail[0] != 'E')
  }

  lemma {:induction false} DigitsTaken(digits: string, tail: string)
    requires AllDigits(digits) && (tail == "" || !IsDigit(tail[0]))
    ensures DigitCount(digits + tail) == |digits|
  {
    if digits == "" {
      assert digits + tail == tail;
    } else {
      assert (digits + tail)[1..] == digits[1..] + tail;
      DigitsTaken(digits[1..], tail);
    }
  }

  lemma NumberTaken(digits: string, tail: string)
    requires AllDigits(digits) && Delimited(tail)
    ensures NumberCount(digits + tail) == |digits|
  {
    DigitsTaken(digits, tail);
    assert (digits + tail)[|digits|..] == tail;
  }

  lemma NumberToken(i: int, tail: string)
    requires Delimited(tail)
    ensures NextToken(IntText(i) + tail) == Token(NumberText, 0, |IntText(i)|)
  {
    hide NumberCount, UIntText;
    var t := IntText(i);
    var s := t + tail;
    var rest := t[1..];
    assert AllDigits(rest) && (IsDigit(t[0]) || t[0] == '-');
    NumberTaken(rest, tail);
    assert s[1..] == rest + tail;
    FirstToken(s);
  }

  lemma OnlySlashesComment(c: char, s: string)
    requires c != '/'
    ensures TokenBody(c, s).0 != Comment
  {
    hide NumberCount, ScanString, Keyword;
  }

  // The token of a text that does not begin with white space or a comment.
  lemma FirstToken(s: string)
    requires s != "" && !IsSpace(s[0]) && s[0] != '/'
    ensures SpaceCount(s) == 0
    ensures var b := TokenBody(s[0], s[1..]);
            ReadToken(s) == Token(b.0, 0, 1 + b.1) && NextToken(s) == ReadToken(s)
  {
    hide TokenBody;
    OnlySlashesComment(s[0], s[1..]);
  }

  // The token of a single mark.
  lemma MarkToken(c: char, rest: string)
    requires c == '[' || c == ']' || c == '{' || c == '}' || c == ',' || c == ':'
    ensures SpaceCount([c] + rest) == 0 && ([c] + rest)[1..] == rest
    ensures ReadToken([c] + rest) == NextToken([c] + rest)
         == Token(if c == '[' then ArrayBegin else if c == ']' then ArrayEnd else if c == '{' then ObjectBegin
                  else if c == '}' then ObjectEnd else if c == ',' then ArraySeparator else MemberSeparator, 0, 1)
  {
    hide NumberCount, ScanString, NextToken, ReadToken;
    FirstToken([c] + rest);
  }

  lemma StringToken(q: string, tail: string)
    ensures ReadToken(Quote(q) + tail) == NextToken(Quote(q) + tail) == Token(StringText, 0, |Quote(q)|)
    ensures Decode((Quote(q) + tail)[1..|Quote(q)| - 1]) == Some(q)
  {
    hide EscapedAll, ScanString, Decode;
    var s := Quote(q) + tail;
    assert s[1..] == EscapedAll(q) + "\"" + tail;
    ScanQuoted(q, tail);
    FirstToken(s);
    assert s[1..|Quote(q)| - 1] == EscapedAll(q);
    DecodeEscaped(q);
  }

  // ---- Values ----

  // What reading the text of v at this depth gives.
  function Expected(count: nat, depth: nat, deep: nat, value: Value): Strict {
    if depth + deep <= STACK_LIMIT then Accepted(count, value) else TooDeep
  }

  // A value of one token.
  lemma ReadLeaf(s: string, depth: nat, reals: string -> bool, kind: Kind, n: nat, value: Value)
    requires n <= |s| && NextToken(s) == Token(kind, 0, n)
    requires match kind
             case NullText => value == Null
             case TrueText => value == Bool(true)
             case FalseText => value == Bool(false)
             case StringText => value.Str? && Decode(s[1..n - 1]) == Some(value.s)
             case _ => false
    ensures StrictValue(s, depth, reals) == Expected(n, depth, 1, value)
  {
    hide NextToken, Decode;
    if kind == StringText {
      assert s[0..n][1..|s[0..n]| - 1] == s[1..n - 1];
    }
  }

  lemma ReadBracket(s: string, depth: nat, reals: string -> bool)
    requires s != "" && (NextToken(s) == Token(ArrayBegin, 0, 1) || NextToken(s) == Token(ObjectBegin, 0, 1))
    ensures StrictValue(s, depth, reals)
         == if depth >= STACK_LIMIT then TooDeep
            else if NextToken(s).kind == ArrayBegin then Onward(StrictArray(s[1..], depth + 1, reals), 1)
            else Onward(StrictMembers(s[1..], depth + 1, [], true, reals), 1)
  {
    hide NextToken, StrictArray, StrictMembers;
  }

  /** The text of a value, followed by anything that cannot go on a number, is read back in full, by the strict reader
      too; or, exactly when the value is nested too deeply for the depth it is read at, it is found too deep. */
  lemma {:induction false} ReadsBack(v: Value, tail: string, depth: nat, reals: string -> bool)
    requires Printable(v) && Delimited(tail)
    ensures StrictValue(Text(v) + tail, depth, reals) == Expected(|Text(v)|, depth, Depth(v), Gathered(v))
    decreases v, 1
  {
    hide StrictValue, StrictArray, StrictMembers, NextToken, ReadToken, Decode, Quote, IntText;
    var s := Text(v) + tail;
    match v
    case Null =>
      KeywordToken("null", tail);
      ReadLeaf(s, depth, reals, NullText, 4, v);
    case Bool(b) =>
      BoolReadsBack(b, tail, depth, reals);
    case Int(i) =>
      NumberReadsBack(i, tail, depth, reals);
    case UInt(u) =>
      NumberReadsBack(u, tail, depth, reals);
    case Str(q) =>
      StringReadsBack(q, tail, depth, reals);
    case Array(elems) =>
      ArrayReadsBack(elems, tail, depth + 1, reals);
      InBrackets('[', ElemsText(elems), ']', tail, depth, reals);
    case Object(members) =>
      ObjectReadsBack(members, tail, depth + 1, reals);
      InBrackets('{', MembersText(members), '}', tail, depth, reals);
  }

  lemma BoolReadsBack(b: bool, tail: string, depth: nat, reals: string -> bool)
    ensures var word := if b then "true" else "false";
            StrictValue(word + tail, depth, reals) == Expected(|word|, depth, 1, Bool(b))
  {
    hide StrictValue, NextToken;
    var word := if b then "true" else "false";
    KeywordToken(word, tail);
    ReadLeaf(word + tail, depth, reals, if b then TrueText else FalseText, |word|, Bool(b));
  }

  lemma StringReadsBack(q: string, tail: string, depth: nat, reals: string -> bool)
    ensures StrictValue(Quote(q) + tail, depth, reals) == Expected(|Quote(q)|, depth, 1, Str(q))
  {
    hide StrictValue, NextToken, ReadToken, Decode, Quote;
    StringToken(q, tail);
    ReadLeaf(Quote(q) + tail, depth, reals, StringText, |Quote(q)|, Str(q));
  }

  lemma InBrackets(
    open: char, inside: string, close: char, tail: string, depth: nat, reals: string -> bool)
    requires open == '[' || open == '{'
    ensures StrictValue([open] + inside + [close] + tail, depth, reals)
         == if depth >= STACK_LIMIT then TooDeep
            else if open == '[' then Onward(StrictArray(inside + ([close] + tail), depth + 1, reals), 1)
            else Onward(StrictMembers(inside + ([close] + tail), depth + 1, [], true, reals), 1)
  {
    hide StrictValue, StrictArray, StrictMembers, NextToken, ReadToken;
    var rest := inside + ([close] + tail);
    assert [open] + inside + [close] + tail == [open] + rest;
    MarkToken(open, rest);
    ReadBracket([open] + rest, depth, reals);
  }

  lemma KeywordToken(word: string, tail: string)
    requires word == "null" || word == "true" || word == "false"
    ensures NextToken(word + tail)
         == Token(if word == "null" then NullText else if word == "true" then TrueText else FalseText, 0, |word|)
  {
    FirstToken(word + tail);
    assert (word + tail)[1..] == word[1..] + tail;
    assert word[1..] <= word[1..] + tail;
    assert "null"[1..] == "ull" && "true"[1..] == "rue" && "false"[1..] == "alse";
  }

  lemma NumberReadsBack(i: int, tail: string, depth: nat, reals: string -> bool)
    requires MIN_LARGEST_INT <= i <= MAX_LARGEST_UINT && Delimited(tail)
    ensures StrictValue(IntText(i) + tail, depth, reals) == Expected(|IntText(i)|, depth, 1, Tagged(i))
  {
    hide IntText, DecodeNumber;
    NumberToken(i, tail);
    HasDigit(i);
    NumberRoundTrip(i);
    assert (IntText(i) + tail)[0..|IntText(i)|] == IntText(i);
  }

  lemma HasDigit(i: int)
    ensures IntText(i) != "-"
  {
    hide UIntText;
    assert i >= 0 ==> IsDigit(IntText(i)[0]);
  }

  // Written values and members begin with a character that starts neither white space, a comment nor a close.
  lemma TextStarts(v: Value)
    requires Printable(v)
    ensures Text(v) != ""
    ensures var c := Text(v)[0]; !IsSpace(c) && c != '/' && c != ']' && c != '}'
  {
    hide UIntText, EscapedAll;
    match v
    case Int(i) => assert i < 0 || AllDigits(UIntText(i));
    case UInt(u) => assert AllDigits(UIntText(u));
    case _ =>
  }

  lemma ArrayReadsBack(elems: seq<Value>, tail: string, depth: nat, reals: string -> bool)
    requires AllPrintable(elems)
    ensures StrictArray(ElemsText(elems) + ("]" + tail), depth, reals)
         == if elems == [] then Accepted(1, Array([]))
            else Expected(|ElemsText(elems)| + 1, depth, ElemsDepth(elems), Array(GatheredAll(elems)))
    decreases elems, 1
  {
    hide Text, StrictElems;
    var s := ElemsText(elems) + ("]" + tail);
    if elems == [] {
      assert s == "]" + tail;
      MarkToken(']', tail);
    } else {
      TextStarts(elems[0]);
      assert s[0] == Text(elems[0])[0];
      assert SpaceCount(s) == 0;
      assert s[0..] == s;
      ElemsReadBack(elems, tail, depth, [], reals);
      assert [] + GatheredAll(elems) == GatheredAll(elems);
    }
  }

  // readArray's loop on one element that is read well.
  lemma ReadOneElem(s: string, depth: nat, done: seq<Value>, reals: string -> bool, n: nat, value: Value)
    requires n < |s| && StrictValue(s, depth, reals) == Accepted(n, value)
    requires NextToken(s[n..]) == Token(ArraySeparator, 0, 1) || NextToken(s[n..]) == Token(ArrayEnd, 0, 1)
    ensures StrictElems(s, depth, done, reals)
         == if NextToken(s[n..]).kind == ArrayEnd then Accepted(n + 1, Array(done + [value]))
            else Onward(StrictElems(s[n + 1..], depth, done + [value], reals), n + 1)
  {
    hide StrictValue, NextToken;
  }

  lemma ElemThrows(s: string, depth: nat, done: seq<Value>, reals: string -> bool)
    requires StrictValue(s, depth, reals).TooDeep?
    ensures StrictElems(s, depth, done, reals) == TooDeep
  {
    hide StrictValue;
  }

  lemma {:induction false} ElemsReadBack(
    vs: seq<Value>, tail: string, depth: nat, done: seq<Value>, reals: string -> bool)
    requires vs != [] && AllPrintable(vs)
    ensures StrictElems(ElemsText(vs) + ("]" + tail), depth, done, reals)
         == Expected(|ElemsText(vs)| + 1, depth, ElemsDepth(vs), Array(done + GatheredAll(vs)))
    decreases vs, 0
  {
    hide Text, StrictElems, StrictValue, Depth, Gathered, GatheredAll, ElemsText, ElemsDepth, Printable;
    var x, more := vs[0], vs[1..];
    FirstOfElems(vs, tail);
    if more == [] {
      ReadsBack(x, [']'] + tail, depth, reals);
      ElemBehind(Text(x) + ([']'] + tail), depth, done, reals, x, ']', tail);
    } else {
      var inside := ElemsText(more) + ("]" + tail);
      ReadsBack(x, [','] + inside, depth, reals);
      ElemBehind(Text(x) + ([','] + inside), depth, done, reals, x, ',', inside);
      ElemsReadBack(more, tail, depth, done + [Gathered(x)], reals);
      Regrouped(done, Gathered(x), GatheredAll(more));
    }
  }

  lemma FirstOfElems(vs: seq<Value>, tail: string)
    requires vs != []
    ensures var more := vs[1..]; var close := "]" + tail;
            && GatheredAll(vs) == [Gathered(vs[0])] + GatheredAll(more)
            && (more == [] ==> GatheredAll(vs) == [Gathered(vs[0])])
            && ElemsDepth(vs) == Max(Depth(vs[0]), ElemsDepth(more)) && ElemsDepth([]) == 0
            && |ElemsText(vs)| == |Text(vs[0])| + (if more == [] then 0 else 1 + |ElemsText(more)|)
            && ElemsText(vs) + close
            == Text(vs[0]) + (if more == [] then [']'] + tail else [','] + (ElemsText(more) + close))
  {
    hide Text, Depth, Gathered;
    assert "]" == [']'];
    Commas(Text(vs[0]), ElemsText(vs[1..]), "]" + tail);
  }

  lemma Commas(a: string, b: string, close: string)
    ensures a + "," + b + close == a + ([','] + (b + close))
  {
  }

  // One turn of readArray's loop over written text.
  lemma ElemBehind(s: string, depth: nat, done: seq<Value>, reals: string -> bool, x: Value, mark: char, inside: string)
    requires mark == ']' || mark == ','
    requires s == Text(x) + ([mark] + inside)
    requires StrictValue(s, depth, reals) == Expected(|Text(x)|, depth, Depth(x), Gathered(x))
    ensures StrictElems(s, depth, done, reals)
         == if depth + Depth(x) > STACK_LIMIT then TooDeep
            else if mark == ']' then Accepted(|Text(x)| + 1, Array(done + [Gathered(x)]))
            else Onward(StrictElems(inside, depth, done + [Gathered(x)], reals), |Text(x)| + 1)
  {
    hide Text, StrictValue, Depth, Gathered, StrictElems, NextToken, ReadToken, SpaceCount;
    MarkToken(mark, inside);
    var n := |Text(x)|;
    assert s[n..] == [mark] + inside && s[n + 1..] == inside;
    if depth + Depth(x) > STACK_LIMIT {
      ElemThrows(s, depth, done, reals);
    } else {
      ReadOneElem(s, depth, done, reals, n, Gathered(x));
    }
  }

  lemma ObjectReadsBack(members: seq<Member>, tail: string, depth: nat, reals: string -> bool)
    requires MembersPrintable(members)
    ensures StrictMembers(MembersText(members) + ("}" + tail), depth, [], true, reals)
         == if members == [] then Accepted(1, Object([]))
            else Expected(|MembersText(members)| + 1, depth, MembersDepth(members), Object(Collected([], members)))
    decreases members, 1
  {
    hide Text;
    var s := MembersText(members) + ("}" + tail);
    if members == [] {
      assert s == "}" + tail && "}" == ['}'];
      MarkToken('}', tail);
    } else {
      hide StrictMembers;
      MembersReadBack(members, tail, depth, [], true, reals);
    }
  }

  // readObject's loop on one name and colon: the value decides.
  lemma ReadOneName(s: string, depth: nat, done: seq<Member>, first: bool, reals: string -> bool, q: nat, key: string)
    requires 2 <= q < |s| && NextToken(s) == Token(StringText, 0, q) && Decode(s[1..q - 1]) == Some(key)
    requires ReadToken(s[q..]) == Token(MemberSeparator, 0, 1) && |key| < KEY_LENGTH_LIMIT
    ensures var v := StrictValue(s[q + 1..], depth, reals);
            StrictMembers(s, depth, done, first, reals)
            == (if v.Accepted? then
                  Onward(StrictBehind(s[q + 1 + v.count..], depth, Put(done, key, v.value), reals), q + 1 + v.count)
                else v)
  {
    hide StrictValue, NextToken, ReadToken, Decode, Lookup, Put, StrictBehind, RecoverCount, Sound;
  }

  lemma AfterMark(s: string, depth: nat, members: seq<Member>, reals: string -> bool)
    requires s != "" && ReadToken(s) == NextToken(s)
    requires NextToken(s) == Token(ArraySeparator, 0, 1) || NextToken(s) == Token(ObjectEnd, 0, 1)
    ensures StrictBehind(s, depth, members, reals)
         == if NextToken(s).kind == ObjectEnd then Accepted(1, Object(members))
            else Onward(StrictMembers(s[1..], depth, members, false, reals), 1)
  {
    hide NextToken, ReadToken, StrictMembers;
  }

  // What follows a member: the closing brace, or a comma and the other members.
  function RestText(more: seq<Member>, tail: string): (r: string)
    ensures Delimited(r) && |r| == |tail| + if more == [] then 1 else |MembersText(more)| + 2
  {
    if more == [] then "}" + tail else "," + (MembersText(more) + ("}" + tail))
  }

  lemma RestReadsBack(
    more: seq<Member>, tail: string, depth: nat, here: seq<Member>, reals: string -> bool)
    requires MembersPrintable(more)
    ensures StrictBehind(RestText(more, tail), depth, here, reals)
         == if more == [] then Accepted(1, Object(here))
            else Expected(|MembersText(more)| + 2, depth, MembersDepth(more), Object(Collected(here, more)))
    decreases more, 1, 0
  {
    hide StrictMembers, StrictBehind, NextToken, ReadToken, SpaceCount, MembersText, Collected, MembersDepth;
    var inside := if more == [] then tail else MembersText(more) + ("}" + tail);
    MarkToken(if more == [] then '}' else ',', inside);
    AfterMark(RestText(more, tail), depth, here, reals);
    if more != [] {
      MembersReadBack(more, tail, depth, here, false, reals);
    }
  }

  // The first member of a written object is read, and the reader stands behind it.
  lemma FirstMemberReadBack(
    ms: seq<Member>, tail: string, depth: nat, done: seq<Member>, first: bool, reals: string -> bool)
    requires ms != [] && Printable(ms[0].value) && |ms[0].key| < KEY_LENGTH_LIMIT
    ensures StrictMembers(MembersText(ms) + ("}" + tail), depth, done, first, reals)
         == if depth + Depth(ms[0].value) > STACK_LIMIT then TooDeep
            else
              Onward(StrictBehind(RestText(ms[1..], tail), depth, Put(done, ms[0].key, Gathered(ms[0].value)), reals),
                     |MemberText(ms[0])|)
    decreases ms, 0, 0
  {
    hide Text, StrictValue, Depth, Gathered, Quote, Put, Decode, StrictMembers, StrictBehind, NextToken, ReadToken,
         SpaceCount, MembersText, Printable, RestText;
    var m := ms[0];
    var rest := RestText(ms[1..], tail);
    var s := MembersText(ms) + ("}" + tail);
    MemberLayout(ms, tail);
    StringToken(m.key, ":" + (Text(m.value) + rest));
    MarkToken(':', Text(m.value) + rest);
    ReadOneName(s, depth, done, first, reals, |Quote(m.key)|, m.key);
    ReadsBack(m.value, rest, depth, reals);
  }

  lemma {:induction false} MembersReadBack(
    ms: seq<Member>, tail: string, depth: nat, done: seq<Member>, first: bool, reals: string -> bool)
    requires ms != [] && MembersPrintable(ms)
    ensures StrictMembers(MembersText(ms) + ("}" + tail), depth, done, first, reals)
         == Expected(|MembersText(ms)| + 1, depth, MembersDepth(ms), Object(Collected(done, ms)))
    decreases ms, 0, 1
  {
    hide StrictMembers, StrictBehind, Depth, Gathered, Put, Printable, MemberText, RestText, Collected, MembersText,
         MembersDepth;
    var m, more := ms[0], ms[1..];
    var here := Put(done, m.key, Gathered(m.value));
    PrintableNext(ms);
    FirstMemberReadBack(ms, tail, depth, done, first, reals);
    RestReadsBack(more, tail, depth, here, reals);
    FirstOfMembers(ms, done);
  }

  lemma Regrouped<T>(a: seq<T>, x: T, b: seq<T>)
    ensures a + ([x] + b) == (a + [x]) + b
    ensures b == [] ==> (a + [x]) + b == a + [x]
  {
  }

  lemma FirstOfMembers(ms: seq<Member>, done: seq<Member>)
    requires ms != []
    ensures Collected(done, ms) == Collected(Put(done, ms[0].key, Gathered(ms[0].value)), ms[1..])
    ensures Collected(Put(done, ms[0].key, Gathered(ms[0].value)), []) == Put(done, ms[0].key, Gathered(ms[0].value))
    ensures MembersDepth(ms) == Max(Depth(ms[0].value), MembersDepth(ms[1..])) && MembersDepth([]) == 0
    ensures |MembersText(ms)| == |MemberText(ms[0])| + if |ms| == 1 then 0 else 1 + |MembersText(ms[1..])|
  {
    hide Put, Gathered, Depth, MemberText;
  }

  lemma PrintableNext(ms: seq<Member>)
    requires ms != [] && MembersPrintable(ms)
    ensures MembersPrintable(ms[1..]) && Printable(ms[0].value) && |ms[0].key| < KEY_LENGTH_LIMIT
  {
    hide Printable;
  }

  lemma MemberLayout(ms: seq<Member>, tail: string)
    requires ms != []
    ensures var s := MembersText(ms) + ("}" + tail); var m := ms[0]; var q := |Quote(m.key)|;
            var rest := RestText(ms[1..], tail);
            && s == Quote(m.key) + (":" + (Text(m.value) + rest))
            && s[q..] == ":" + (Text(m.value) + rest)
            && s[q + 1..] == Text(m.value) + rest
            && s[q + 1 + |Text(m.value)|..] == rest
            && |s| == q + 1 + |Text(m.value)| + |rest|
  {
    hide Text, Quote, RestText, MembersText;
    var m := ms[0];
    var rest := RestText(ms[1..], tail);
    var q, t := Quote(m.key), Text(m.value);
    MembersLayout(ms, tail);
    Colon(q, t, rest);
  }

  lemma MembersLayout(ms: seq<Member>, tail: string)
    requires ms != []
    ensures MembersText(ms) + ("}" + tail) == MemberText(ms[0]) + RestText(ms[1..], tail)
  {
    hide MemberText;
    Commas(MemberText(ms[0]), MembersText(ms[1..]), "}" + tail);
  }

  lemma Colon(q: string, t: string, rest: string)
    ensures var s := q + ":" + t + rest;
            && s == q + (":" + (t + rest))
            && s[|q|..] == ":" + (t + rest)
            && s[|q| + 1..] == t + rest
            && s[|q| + 1 + |t|..] == rest
            && |s| == |q| + 1 + |t| + |rest|
  {
  }

  // ---- Members in key order are collected as they come ----

  // Every key of a comes before every key of b.
  ghost predicate Before(a: seq<Member>, b: seq<Member>) {
    forall i, j :: 0 <= i < |a| && 0 <= j < |b| ==> KeyLess(a[i].key, b[j].key)
  }

  lemma {:induction false} PutLast(ms: seq<Member>, key: string, value: Value)
    requires forall i :: 0 <= i < |ms| ==> KeyLess(ms[i].key, key)
    ensures Put(ms, key, value) == ms + [Member(key, value)]
  {
    if ms != [] {
      KeyTrichotomy(ms[0].key, key);
      PutLast(ms[1..], key, value);
      assert ms == [ms[0]] + ms[1..];
    }
  }

  lemma BeforeNext(done: seq<Member>, ms: seq<Member>)
    requires ms != [] && Sorted(ms) && Before(done, ms)
    ensures forall i :: 0 <= i < |done| ==> KeyLess(done[i].key, ms[0].key)
    ensures Before(done + [Member(ms[0].key, Normal(ms[0].value))], ms[1..])
  {
    hide Normal, KeyLess;
    var here, rest := done + [Member(ms[0].key, Normal(ms[0].value))], ms[1..];
    forall i, j | 0 <= i < |here| && 0 <= j < |rest|
      ensures KeyLess(here[i].key, rest[j].key)
    {
      assert rest[j] == ms[j + 1];
    }
  }

  lemma WritableNext(ms: seq<Member>)
    requires ms != [] && MembersWritable(ms)
    ensures MembersWritable(ms[1..]) && Writable(ms[0].value) && |ms[0].key| < KEY_LENGTH_LIMIT
  {
    hide Writable, KeyLess;
    var rest := ms[1..];
    forall i, j | 0 <= i < j < |rest|
      ensures KeyLess(rest[i].key, rest[j].key)
    {
      assert rest[i] == ms[i + 1] && rest[j] == ms[j + 1];
    }
  }

  lemma {:induction false} CollectedSorted(done: seq<Member>, ms: seq<Member>)
    requires MembersWritable(ms) && Before(done, ms)
    ensures Collected(done, ms) == done + NormalMembers(ms)
    decreases ms, 0
  {
    hide Gathered, Normal, Put, KeyLess, Before, Sorted, Writable;
    if ms != [] {
      var m, more := ms[0], ms[1..];
      WritableNext(ms);
      BeforeNext(done, ms);
      GatheredSorted(m.value);
      PutLast(done, m.key, Normal(m.value));
      CollectedSorted(done + [Member(m.key, Normal(m.value))], more);
      Regrouped(done, Member(m.key, Normal(m.value)), NormalMembers(more));
    }
  }

  lemma {:induction false} GatheredSorted(v: Value)
    requires Writable(v)
    ensures Gathered(v) == Normal(v)
    decreases v, 1
  {
    match v
    case Array(elems) => AllGatheredSorted(elems);
    case Object(members) => CollectedSorted([], members);
    case _ =>
  }

  lemma {:induction false} AllGatheredSorted(vs: seq<Value>)
    requires AllWritable(vs)
    ensures GatheredAll(vs) == NormalAll(vs)
    decreases vs, 0
  {
    hide Gathered, Normal, Writable;
    if vs != [] {
      GatheredSorted(vs[0]);
      AllGatheredSorted(vs[1..]);
    }
  }

  // ---- The round trip ----

  /** Parsing what the writer wrote, whatever stands behind its line feed, gives the tree back when the tree is
      nested at most to the limit, and throws when it is nested more deeply. */
  lemma RoundTrip(v: Value, tail: string, root: Value, reals: string -> bool)
    requires Writable(v)
    ensures Parse(Text(v) + "\n" + tail, root, reals)
         == if Depth(v) <= 1000 then Done(true, |Text(v)|, Normal(v), []) else Thrown
  {
    hide StrictValue, ReadValue, Text;
    WritablePrints(v);
    GatheredSorted(v);
    var s := Text(v) + ("\n" + tail);
    assert Text(v) + "\n" + tail == s;
    ReadsBack(v, "\n" + tail, 0, reals);
    ValueAgrees(s, 0, root, reals);
  }

  /** What comes back is written as the same text, and reading it once more changes nothing. */
  lemma {:induction false} NormalIsStable(v: Value)
    requires Writable(v)
    ensures Writable(Normal(v)) && Text(Normal(v)) == Text(v) && Normal(Normal(v)) == Normal(v)
    decreases v, 1
  {
    match v
    case Array(elems) => NormalAllStable(elems);
    case Object(members) => NormalMembersStable(members);
    case _ =>
  }

  lemma {:induction false} NormalAllStable(vs: seq<Value>)
    requires AllWritable(vs)
    ensures AllWritable(NormalAll(vs)) && ElemsText(NormalAll(vs)) == ElemsText(vs)
    ensures NormalAll(NormalAll(vs)) == NormalAll(vs)
    decreases vs, 0
  {
    hide Text, Normal, Writable;
    if vs != [] {
      NormalIsStable(vs[0]);
      NormalAllStable(vs[1..]);
      assert NormalAll(vs)[1..] == NormalAll(vs[1..]);
    }
  }

  lemma {:induction false} NormalMembersStable(ms: seq<Member>)
    requires MembersWritable(ms)
    ensures MembersWritable(NormalMembers(ms)) && MembersText(NormalMembers(ms)) == MembersText(ms)
    ensures NormalMembers(NormalMembers(ms)) == NormalMembers(ms)
    decreases ms, 0
  {
    hide Text, Normal, Writable, Quote, Sorted;
    SameKeys(ms, NormalMembers(ms));
    if ms != [] {
      WritableNext(ms);
      NormalIsStable(ms[0].value);
      NormalMembersStable(ms[1..]);
      assert NormalMembers(ms)[1..] == NormalMembers(ms[1..]);
    }
  }

  lemma SameKeys(a: seq<Member>, b: seq<Member>)
    requires |a| == |b| && forall k :: 0 <= k < |a| ==> a[k].key == b[k].key
    ensures Sorted(a) == Sorted(b)
  {
  }
}
