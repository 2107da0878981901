/** The recursive-descent reader with its mutable position, node stack, error list and depth counter. */
module JsonReader {
  import opened Wrappers
  import opened Slices
  import opened JsonNumber
  import opened JsonString
  import opened JsonValue
  import Syntax = JsonSyntax
  import opened JsonSyntax

  lemma LaterTwice(r: Outcome, a: nat, b: nat)
    ensures Later(Later(r, a), b) == Later(r, a + b)
  {
  }

  // A value of one token, from the token's text alone.
  ghost function ScalarOutcome(kind: Kind, text: string, cur: Value, reals: string -> bool): (o: Outcome)
    requires text != "" && (kind == StringText ==> |text| >= 2)
    ensures o.Done? && o.count == 0
  {
    match kind
    case NumberText => NumberOutcome(text, 0, cur, reals)
    case StringText =>
      (match Decode(text[1..|text| - 1])
       case None => Done(false, 0, cur, [BAD_STRING])
       case Some(d) => Done(true, 0, Str(d), []))
    case TrueText => Done(true, 0, Bool(true), [])
    case FalseText => Done(true, 0, Bool(false), [])
    case _ => Done(true, 0, Null, [])
  }

  // What readValue does behind a token, with that value counted in the depth.
  ghost function KindOutcome(
    kind: Kind, text: string, rest: string, depth: nat, cur: Value, reals: string -> bool): Outcome
    requires kind != EndOfStream ==> text != ""
    requires kind == StringText ==> |text| >= 2
  {
    if kind == ObjectBegin then ReadMembers(rest, depth, [], "", reals)
    else if kind == ArrayBegin then Syntax.ReadArray(rest, depth, reals)
    else if IsScalar(kind) then ScalarOutcome(kind, text, cur, reals)
    else Done(false, 0, cur, [NO_VALUE])
  }

  predicate IsScalar(k: Kind) {
    k == NumberText || k == StringText || k == TrueText || k == FalseText || k == NullText
  }

  // readValue by the kind of its token.
  lemma ValueStep(s: string, depth: nat, cur: Value, reals: string -> bool)
    ensures var r := Syntax.ReadValue(s, depth, cur, reals);
            var t := NextToken(s);
            if depth >= STACK_LIMIT then r == Thrown
            else r == Later(KindOutcome(t.kind, s[t.start..t.end], s[t.end..], depth + 1, cur, reals), t.end)
  {
    hide ReadMembers, Syntax.ReadArray, NextToken, Decode, DecodeNumber;
  }

  lemma AtEnd(s: string)
    requires s == ""
    ensures ScanString(s) == Scan(0, false)
  {
  }

  // One turn of recoverFromError's loop.
  lemma RecoverStep(s: string, until: Kind)
    ensures var t := Syntax.ReadToken(s);
            RecoverCount(s, until)
            == t.end + if t.kind == until || t.kind == EndOfStream then 0 else RecoverCount(s[t.end..], until)
  {
    hide Syntax.ReadToken;
  }

  // One turn of readString's loop.
  lemma ScanStep(doc: string, i: nat)
    requires i < |doc|
    ensures var r := ScanString(doc[i..]);
            if doc[i] == '\"' then r == Scan(1, true)
            else
              var n := if doc[i] == '\\' && i + 1 < |doc| then 2 else 1;
              var rest := ScanString(doc[i + n..]);
              r == Scan(n + rest.count, rest.ok)
  {
    Drop(doc, i, 1);
    if i + 1 < |doc| {
      Drop(doc, i, 2);
    }
  }

  lemma CloseBracket(s: string)
    requires s != "" && s[0] == ']'
    ensures Syntax.ReadToken(s) == Token(ArrayEnd, 0, 1)
  {
  }

  // readArray, up to its loop.
  lemma ArrayStep(s: string, depth: nat, reals: string -> bool)
    ensures var p := SpaceCount(s);
            Syntax.ReadArray(s, depth, reals)
            == if p < |s| && s[p] == ']' then Done(true, p + 1, Array([]), [])
               else Later(ReadElems(s[p..], depth, [], reals), p)
  {
    hide ReadElems;
  }

  // What comes behind an element or the value of a member, and how much of the text it takes.
  datatype Tail = End(count: nat) | Next(count: nat) | Lost(count: nat)

  function ElemTail(s: string): (t: Tail)
    ensures t.count <= |s| && (t.Next? ==> 0 < t.count)
  {
    var t := NextToken(s);
    if t.kind == ArraySeparator then Next(t.end) else if t.kind == ArrayEnd then End(t.end) else Lost(t.end)
  }

  // One turn of readArray's loop.
  lemma ElemsStep(s: string, depth: nat, elems: seq<Value>, reals: string -> bool)
    ensures var e := Syntax.ReadValue(s, depth, Null, reals);
            var r := ReadElems(s, depth, elems, reals);
            if e.Thrown? then r == Thrown
            else
              var here := elems + [e.value];
              if e.ok then r == Later(ElemsBehind(s[e.count..], depth, here, reals), e.count)
              else r == Done(false, e.count + RecoverCount(s[e.count..], ArrayEnd), Array(here), e.errors)
  {
    hide RecoverCount, NextToken, Syntax.ReadToken, Syntax.ReadValue, ElemsBehind;
    var e := Syntax.ReadValue(s, depth, Null, reals);
    if e.Done? && e.ok {
      ElemsGoOn(s, depth, elems, reals, e.count, e.value);
    }
  }

  lemma ElemsGoOn(s: string, depth: nat, elems: seq<Value>, reals: string -> bool, n: nat, value: Value)
    requires n <= |s| && Syntax.ReadValue(s, depth, Null, reals) == Done(true, n, value, [])
    ensures ReadElems(s, depth, elems, reals) == Later(ElemsBehind(s[n..], depth, elems + [value], reals), n)
  {
    hide RecoverCount, NextToken, Syntax.ReadToken, Syntax.ReadValue, Sound;
    Drop(s, n, NextToken(s[n..]).end);
  }

  // The loop behind an element.
  ghost function ElemsBehind(s: string, depth: nat, elems: seq<Value>, reals: string -> bool): Outcome {
    match ElemTail(s)
    case End(n) => Done(true, n, Array(elems), [])
    case Next(n) => Later(ReadElems(s[n..], depth, elems, reals), n)
    case Lost(n) => Recover(s, n, ArrayEnd, Array(elems), NO_COMMA_OR_BRACKET)
  }

  // What comes before the value of a member, and how much of the text it takes.
  datatype Head = Closed(count: nat) | Failed(message: string, count: nat) | Named(name: string, count: nat)

  function MemberHead(s: string, last: string): (h: Head)
    ensures h.count <= |s| && (h.Named? ==> 0 < h.count)
  {
    var t := NextToken(s);
    if t.kind == ObjectEnd && last == "" then Closed(t.end)
    else if t.kind != StringText then Failed(NO_NAME, t.end)
    else
      match Decode(s[t.start + 1..t.end - 1])
      case None => Failed(BAD_STRING, t.end)
      case Some(name) =>
        var colon := Syntax.ReadToken(s[t.end..]);
        if colon.kind != MemberSeparator then Failed(NO_COLON, t.end + colon.end)
        else Named(name, t.end + colon.end)
  }

  // One turn of readObject's loop, up to the member's value.
  lemma MembersStep(s: string, depth: nat, members: seq<Member>, last: string, reals: string -> bool)
    ensures var r := ReadMembers(s, depth, members, last, reals);
            var h := MemberHead(s, last);
            if h.Closed? then r == Done(true, h.count, Object(members), [])
            else if h.Failed? then r == Recover(s, h.count, ObjectEnd, Object(members), h.message)
            else r == Later(MembersBehind(s[h.count..], depth, members, h.name, reals), h.count)
  {
    hide AfterMember, RecoverCount, NextToken, Syntax.ReadToken, Decode, Syntax.ReadValue, Put, Lookup, KeyOf;
    var h := MemberHead(s, last);
    if h.Named? {
      var v := Syntax.ReadValue(s[h.count..], depth, Lookup(members, KeyOf(h.name)), reals);
      if v.Done? {
        assert s[h.count..][v.count..] == s[h.count + v.count..];
      }
    }
  }

  // The loop behind a member's name and colon.
  ghost function MembersBehind(
    s: string, depth: nat, members: seq<Member>, name: string, reals: string -> bool): Outcome
  {
    match Syntax.ReadValue(s, depth, Lookup(members, KeyOf(name)), reals)
    case Thrown => Thrown
    case Done(ok, n, value, errors) =>
      var here := Put(members, KeyOf(name), value);
      if ok then Later(AfterMember(s[n..], depth, here, name, reals), n)
      else Done(false, n + RecoverCount(s[n..], ObjectEnd), Object(here), errors)
  }

  function MemberTail(s: string): (t: Tail)
    ensures t.count <= |s|
  {
    var first := Syntax.ReadToken(s);
    if first.kind != ObjectEnd && first.kind != ArraySeparator && first.kind != Comment then Lost(first.end)
    else
      var t := NextToken(s);
      if t.kind == ObjectEnd then End(t.end) else Next(t.end)
  }

  lemma TailStep(s: string, depth: nat, members: seq<Member>, name: string, reals: string -> bool)
    ensures var r := AfterMember(s, depth, members, name, reals);
            var t := MemberTail(s);
            if t.End? then r == Done(true, t.count, Object(members), [])
            else if t.Lost? then r == Recover(s, t.count, ObjectEnd, Object(members), NO_COMMA_OR_BRACE)
            else r == Later(ReadMembers(s[t.count..], depth, members, name, reals), t.count)
  {
    hide ReadMembers, RecoverCount, NextToken, Syntax.ReadToken;
  }

  class Reader {
    var document: string
    var current: nat
    var errors: seq<string>
    var stackDepth: nat
    var nodes: seq<Value>         // the values under construction, the current one last
    const reals: string -> bool   // which texts an input stream reads as a double

    constructor (reals: string -> bool)
      ensures this.reals == reals && document == "" && current == 0 && errors == [] && nodes == []
    {
      this.reals := reals;
      document, current, errors, stackDepth, nodes := "", 0, [], 0, [];
    }

    ghost predicate Placed()
      reads this
    {
      current <= |document|
    }

    ghost function Rest(): string
      requires Placed()
      reads this
    {
      document[current..]
    }

    // ---- The lexer ----

    method GetNextChar() returns (c: char)
      requires Placed()
      modifies this`current
      ensures Placed()
      ensures old(current) == |document| ==> current == old(current) && c == '\0'
      ensures old(current) < |document| ==> current == old(current) + 1 && c == document[old(current)]
    {
      if current == |document| {
        return '\0';
      }
      c := document[current];
      current := current + 1;
    }

    method SkipSpaces()
      requires Placed()
      modifies this`current
      ensures Placed() && current == old(current) + SpaceCount(old(Rest()))
    {
      ghost var start := current;
      while current != |document|
        invariant start <= current <= |document|
        invariant SpaceCount(document[start..]) == current - start + SpaceCount(document[current..])
        decreases |document| - current
      {
        var c := document[current];
        if c == ' ' || c == '\t' || c == '\r' || c == '\n' {
          Drop(document, current, 1);
          current := current + 1;
        } else {
          break;
        }
      }
    }

    method Match(pattern: string) returns (ok: bool)
      requires Placed()
      modifies this`current
      ensures var r := Keyword(old(Rest()), pattern); ok == r.ok && Placed() && current == old(current) + r.count
    {
      if |document| - current < |pattern| {
        return false;
      }
      var index := |pattern|;
      while index > 0
        invariant 0 <= index <= |pattern| && current + |pattern| <= |document|
        invariant forall k :: index <= k < |pattern| ==> document[current + k] == pattern[k]
      {
        index := index - 1;
        if document[current + index] != pattern[index] {
          assert !(pattern <= document[current..]);
          return false;
        }
      }
      assert pattern <= document[current..];
      current := current + |pattern|;
      return true;
    }

    // *current_, a NUL at the end of the document.
    function Peek(): char
      requires Placed()
      reads this
    {
      if current < |document| then document[current] else '\0'
    }

    method ReadCStyleComment() returns (ok: bool)
      requires Placed()
      modifies this`current
      ensures var r := CStyleComment(old(Rest())); ok == r.ok && Placed() && current == old(current) + r.count
    {
      ghost var start, whole := current, CStyleComment(document[current..]);
      while current != |document|
        invariant start <= current <= |document|
        invariant var r := CStyleComment(document[current..]); whole == Scan(current - start + r.count, r.ok)
        decreases |document| - current
      {
        Drop(document, current, 1);
        Drop(document, current, 0);
        var c := GetNextChar();
        if c == '*' && Peek() == '/' {
          break;
        }
      }
      var last := GetNextChar();
      return last == '/';
    }

    method ReadCppStyleComment()
      requires Placed()
      modifies this`current
      ensures Placed() && current == old(current) + CppStyleCount(old(Rest()))
    {
      ghost var start := current;
      while current != |document|
        invariant start <= current <= |document|
        invariant CppStyleCount(document[start..]) == current - start + CppStyleCount(document[current..])
        decreases |document| - current
      {
        Drop(document, current, 1);
        var c := GetNextChar();
        if c == '\n' {
          return;
        }
        if c == '\r' {
          if current != |document| && document[current] == '\n' {
            var skipped := GetNextChar();
          }
          return;
        }
      }
    }

    method ReadComment() returns (ok: bool)
      requires Placed()
      modifies this`current
      ensures var r := CommentText(old(Rest())); ok == r.ok && Placed() && current == old(current) + r.count
    {
      hide CStyleComment, CppStyleCount;
      if current < |document| {
        Drop(document, current, 1);
      }
      var c := GetNextChar();
      if c == '*' {
        ok := ReadCStyleComment();
      } else if c == '/' {
        ReadCppStyleComment();
        ok := true;
      } else {
        ok := false;
      }
    }

    // Stand at p and take the character there, a NUL behind the end.
    method PeekAt(p: nat) returns (c: char, q: nat)
      requires p <= |document|
      modifies this`current
      ensures current == p && Placed() && c == Peek()
      ensures q == if p < |document| then p + 1 else p
    {
      current := p;
      if current < |document| {
        c, q := document[p], p + 1;
      } else {
        c, q := '\0', p;
      }
    }

    // As long as the character is a digit, take the next one.
    method DigitLoop(c0: char, p: nat) returns (c: char, q: nat)
      requires p <= |document| && Placed() && (!IsDigit(c0) ==> c0 == Peek())
      modifies this`current
      ensures Placed() && c == Peek() && !IsDigit(c)
      ensures IsDigit(c0) ==> current == p + DigitCount(document[p..])
      ensures IsDigit(c0) ==> q == if current < |document| then current + 1 else current
      ensures !IsDigit(c0) ==> current == old(current) && q == p
    {
      c, q := c0, p;
      while IsDigit(c)
        invariant p <= q <= |document| && Placed() && (!IsDigit(c) ==> c == Peek())
        invariant IsDigit(c0) && IsDigit(c) ==> DigitCount(document[p..]) == q - p + DigitCount(document[q..])
        invariant IsDigit(c0) && !IsDigit(c) ==> current == p + DigitCount(document[p..])
        invariant IsDigit(c0) && !IsDigit(c) ==> q == if current < |document| then current + 1 else current
        invariant !IsDigit(c0) ==> c == c0 && current == old(current) && q == p
        decreases |document| - q, if IsDigit(c) then 1 else 0
      {
        if q < |document| {
          Drop(document, q, 1);
        }
        c, q := PeekAt(q);
      }
    }

    // The fractional part, if a point comes; n is its length.
    method ReadFraction(c0: char, p0: nat) returns (c: char, p: nat)
      requires Placed() && c0 == Peek() && p0 == if current < |document| then current + 1 else current
      modifies this`current
      ensures Placed() && c == Peek() && p == if current < |document| then current + 1 else current
      ensures old(current) <= current
      ensures FractionCount(old(Rest())) == current - old(current) + ExponentCount(Rest())
    {
      hide DigitCount, ExponentCount;
      c, p := c0, p0;
      if c == '.' {
        ghost var f := current;
        Drop(document, f, 1);
        c, p := PeekAt(p);
        c, p := DigitsFrom(c, p);
        Drop(document, f, current - f);
      }
    }

    // The exponential part, if an e comes.
    method ReadExponent(c0: char, p0: nat)
      requires Placed() && c0 == Peek() && p0 == if current < |document| then current + 1 else current
      modifies this`current
      ensures Placed() && current == old(current) + ExponentCount(old(Rest()))
    {
      hide DigitCount;
      var c, p := c0, p0;
      if c == 'e' || c == 'E' {
        ghost var e := current;
        Drop(document, e, 1);
        c, p := PeekAt(p);
        if c == '+' || c == '-' {
          Drop(document, e, 2);
          c, p := PeekAt(p);
        }
        c, p := DigitsFrom(c, p);
      }
    }

    // readNumber: the integral part, and what comes behind it.
    method ReadNumber()
      requires Placed()
      modifies this`current
      ensures Placed() && current == old(current) + NumberCount(old(Rest()))
    {
      hide DigitCount, FractionCount, ExponentCount;
      ghost var start := current;
      var c, p := DigitLoop('0', current);
      Drop(document, start, current - start);
      c, p := ReadFraction(c, p);
      ReadExponent(c, p);
    }

    // The loop once c has been read at current.
    method DigitsFrom(c0: char, p: nat) returns (c: char, q: nat)
      requires Placed() && c0 == Peek() && p == if current < |document| then current + 1 else current
      modifies this`current
      ensures Placed() && c == Peek() && current == old(current) + DigitCount(old(Rest()))
      ensures q == if current < |document| then current + 1 else current
    {
      if current < |document| {
        Drop(document, current, 1);
      }
      c, q := DigitLoop(c0, p);
    }

    method ReadString() returns (ok: bool)
      requires Placed()
      modifies this`current
      ensures var r := ScanString(old(Rest())); ok == r.ok && Placed() && current == old(current) + r.count
    {
      hide ScanString;
      ghost var start, whole := current, ScanString(document[current..]);
      var c := '\0';
      while current != |document|
        invariant start <= current <= |document| && c != '\"'
        invariant var r := ScanString(document[current..]); whole == Scan(current - start + r.count, r.ok)
        decreases |document| - current
      {
        ScanStep(document, current);
        c := GetNextChar();
        if c == '\\' {
          var skipped := GetNextChar();
        } else if c == '\"' {
          break;
        }
      }
      if c != '\"' {
        AtEnd(document[current..]);
      }
      return c == '\"';
    }

    /** readToken: the token in the document, with the reader behind it. */
    method ReadToken() returns (token: Token)
      requires Placed()
      modifies this`current
      ensures Placed() && token == Moved(Syntax.ReadToken(old(Rest())), old(current)) && current == token.end
    {
      hide ScanString, CommentText, NumberCount, Keyword, SpaceCount, TokenBody;
      ghost var begin, s := current, Rest();
      SkipSpaces();
      var start := current;
      Drop(document, begin, start - begin);
      if current == |document| {
        return Token(EndOfStream, start, start);
      }
      Drop(document, start, 1);
      var c := GetNextChar();
      assert s[start - begin] == c && s[start - begin + 1..] == document[current..];
      var kind := ReadTokenBody(c);
      token := Token(kind, start, current);
    }

    // The switch on the first character.
    method ReadTokenBody(c: char) returns (kind: Kind)
      requires Placed()
      modifies this`current
      ensures var b := TokenBody(c, old(Rest())); Placed() && kind == b.0 && current == old(current) + b.1
    {
      hide ScanString, CommentText, NumberCount, Keyword;
      var ok := true;
      if c == '{' {
        kind := ObjectBegin;
      } else if c == '}' {
        kind := ObjectEnd;
      } else if c == '[' {
        kind := ArrayBegin;
      } else if c == ']' {
        kind := ArrayEnd;
      } else if c == '\"' {
        kind := StringText;
        ok := ReadString();
      } else if c == '/' {
        kind := Comment;
        ok := ReadComment();
      } else if '0' <= c <= '9' || c == '-' {
        kind := NumberText;
        ReadNumber();
      } else if c == 't' {
        kind := TrueText;
        ok := Match("rue");
      } else if c == 'f' {
        kind := FalseText;
        ok := Match("alse");
      } else if c == 'n' {
        kind := NullText;
        ok := Match("ull");
      } else if c == ',' {
        kind := ArraySeparator;
      } else if c == ':' {
        kind := MemberSeparator;
      } else if c == '\0' {
        kind := EndOfStream;
      } else {
        kind, ok := Bad, false;
      }
      if !ok {
        kind := Bad;
      }
    }

    /** skipCommentTokens. */
    method SkipCommentTokens() returns (token: Token)
      requires Placed()
      modifies this`current
      ensures Placed() && token == Moved(NextToken(old(Rest())), old(current)) && current == token.end
    {
      hide Syntax.ReadToken;
      ghost var whole := Moved(NextToken(document[current..]), current);
      token := ReadToken();
      while token.kind == Comment
        invariant Placed() && current == token.end
        invariant token.kind == Comment ==> whole == Moved(NextToken(document[current..]), current)
        invariant token.kind != Comment ==> token == whole
        decreases |document| - current, if token.kind == Comment then 1 else 0
      {
        token := ReadToken();
      }
    }

    /** recoverFromError. */
    method RecoverFromError(skipUntilToken: Kind)
      requires Placed()
      modifies this`current
      ensures Placed() && current == old(current) + RecoverCount(old(Rest()), skipUntilToken)
    {
      hide Syntax.ReadToken, RecoverCount;
      ghost var whole := current + RecoverCount(document[current..], skipUntilToken);
      while true
        invariant Placed() && whole == current + RecoverCount(document[current..], skipUntilToken)
        decreases |document| - current
      {
        ghost var before := current;
        RecoverStep(document[current..], skipUntilToken);
        var skip := ReadToken();
        Drop(document, before, current - before);
        if skip.kind == skipUntilToken || skip.kind == EndOfStream {
          break;
        }
      }
    }

    // ---- The parser ----

    function CurrentValue(): Value
      requires nodes != []
      reads this
    {
      nodes[|nodes| - 1]
    }

    // swapPayload into the current value.
    method SetCurrent(v: Value)
      requires nodes != []
      modifies this`nodes
      ensures nodes == old(nodes)[..|old(nodes)| - 1] + [v]
    {
      nodes := nodes[..|nodes| - 1] + [v];
    }

    // The reader has come to the outcome o, from the place start, with errs recorded before and below under the
    // current value.
    ghost predicate Came(o: Outcome, start: nat, errs: seq<string>, below: seq<Value>, ok: bool, thrown: bool)
      reads this
    {
      && thrown == o.Thrown?
      && (o.Done? ==>
            && ok == o.ok && Placed() && current == start + o.count
            && errors == errs + o.errors && nodes == below + [o.value])
    }

    // The depth count is back where it was; a syntax error leaves it at most one higher.
    ghost predicate Balanced(depth: nat, ok: bool)
      reads this
    {
      depth <= stackDepth <= if ok then depth else depth + 1
    }

    // addErrorAndRecover: addError is the first line.
    method AddErrorAndRecover(message: string, skipUntilToken: Kind)
      requires Placed()
      modifies this`current, this`errors
      ensures errors == old(errors) + [message]
      ensures Placed() && current == old(current) + RecoverCount(old(Rest()), skipUntilToken)
    {
      errors := errors + [message];
      RecoverFromError(skipUntilToken);
    }

    /** decodeNumber into the current value; a text that is no integer is read as a double. */
    method DecodeNumberToken(token: Token) returns (ok: bool)
      requires nodes != [] && token.start < token.end <= |document|
      modifies this`nodes, this`errors
      ensures var o := NumberOutcome(document[token.start..token.end], 0, old(CurrentValue()), reals);
              && o.Done? && ok == o.ok && errors == old(errors) + o.errors
              && nodes == old(nodes)[..|old(nodes)| - 1] + [o.value]
    {
      var text := document[token.start..token.end];
      var number := ReadInteger(text);
      if number.Integer? {
        SetCurrent(Tagged(number.value));
        return true;
      }
      if !reals(text) {
        errors := errors + [BAD_NUMBER];
        return false;
      }
      SetCurrent(Real(text));
      return true;
    }

    // A token inside the document.
    ghost predicate IsToken(token: Token)
      reads this
    {
      && token.start <= token.end <= |document|
      && (token.kind != EndOfStream ==> token.start < token.end)
      && (token.kind == StringText ==> token.start + 2 <= token.end)
    }

    // A number, a string or a keyword into the current value.
    method ReadScalar(token: Token) returns (ok: bool)
      requires nodes != [] && IsScalar(token.kind) && IsToken(token)
      modifies this`nodes, this`errors
      ensures var o := ScalarOutcome(token.kind, document[token.start..token.end], old(CurrentValue()), reals);
              && o.Done? && ok == o.ok && errors == old(errors) + o.errors
              && nodes == old(nodes)[..|old(nodes)| - 1] + [o.value]
    {
      hide Decode;
      if token.kind == NumberText {
        ok := DecodeNumberToken(token);
      } else if token.kind == StringText {
        Peeled(document, token.start, token.end);
        var decoded := DecodeString(document, token.start, token.end);
        if decoded.None? {
          errors := errors + [BAD_STRING];
          return false;
        }
        SetCurrent(Str(decoded.value));
        return true;
      } else {
        SetCurrent(if token.kind == NullText then Null else Bool(token.kind == TrueText));
        return true;
      }
    }

    /** readValue: the reader, its errors and the current value are where the outcome says, and the nodes below
        are as they were. */
    method ReadValue() returns (ok: bool, thrown: bool)
      requires Placed() && nodes != []
      modifies this`current, this`errors, this`stackDepth, this`nodes
      ensures Came(Syntax.ReadValue(old(Rest()), old(stackDepth), old(CurrentValue()), reals),
                   old(current), old(errors), old(nodes)[..|old(nodes)| - 1], ok, thrown)
      ensures !thrown ==> Balanced(old(stackDepth), ok)
      decreases |document| - current, 1
    {
      hide Syntax.ReadValue, NextToken, KindOutcome, Sound;
      ghost var start := current;
      ValueStep(Rest(), stackDepth, CurrentValue(), reals);
      if stackDepth >= STACK_LIMIT {
        return false, true;
      }
      stackDepth := stackDepth + 1;
      var token := SkipCommentTokens();
      Drop(document, start, current - start);
      Slice(document, start, token.start - start, token.end - start);
      ok, thrown := ReadKind(token);
    }

    // The switch of readValue, and what is behind it.
    method ReadKind(token: Token) returns (ok: bool, thrown: bool)
      requires Placed() && nodes != [] && stackDepth > 0 && IsToken(token) && token.end == current
      modifies this`current, this`errors, this`stackDepth, this`nodes
      ensures Came(KindOutcome(token.kind, document[token.start..token.end], old(Rest()), old(stackDepth),
                               old(CurrentValue()), reals),
                   old(current), old(errors), old(nodes)[..|old(nodes)| - 1], ok, thrown)
      ensures !thrown ==> Balanced(old(stackDepth) - 1, ok)
      decreases |document| - token.start, 0
    {
      hide Syntax.ReadArray, ReadMembers, ScalarOutcome, Sound;
      ok, thrown := true, false;
      if token.kind == ObjectBegin {
        ok, thrown := ReadObject();
      } else if token.kind == ArrayBegin {
        ok, thrown := ReadArray();
      } else if IsScalar(token.kind) {
        ok := ReadScalar(token);
      } else {
        errors := errors + [NO_VALUE];
        return false, false;
      }
      if thrown {
        return;
      }
      stackDepth := stackDepth - 1;
    }

    // A value read in its place under the current one: the place is pushed, read and popped.
    method ReadInto(place: Value) returns (ok: bool, thrown: bool, value: Value)
      requires Placed() && nodes != []
      modifies this`current, this`errors, this`stackDepth, this`nodes
      ensures var e := Syntax.ReadValue(old(Rest()), old(stackDepth), place, reals);
              && thrown == e.Thrown?
              && (e.Done? ==>
                    && ok == e.ok && value == e.value && Placed() && current == old(current) + e.count
                    && errors == old(errors) + e.errors && nodes == old(nodes))
      ensures !thrown ==> Balanced(old(stackDepth), ok)
      decreases |document| - current, 2
    {
      hide Syntax.ReadValue;
      nodes := nodes + [place];
      value := place;
      ok, thrown := ReadValue();
      if !thrown {
        value := CurrentValue();
        nodes := nodes[..|nodes| - 1];
      }
    }

    /** readArray, behind its bracket. */
    method ReadArray() returns (ok: bool, thrown: bool)
      requires Placed() && nodes != []
      modifies this`current, this`errors, this`stackDepth, this`nodes
      ensures Came(Syntax.ReadArray(old(Rest()), old(stackDepth), reals),
                   old(current), old(errors), old(nodes)[..|old(nodes)| - 1], ok, thrown)
      ensures !thrown ==> Balanced(old(stackDepth), ok)
      decreases |document| - current, 6
    {
      hide Syntax.ReadArray, ReadElems, Syntax.ReadToken, SpaceCount, Sound;
      ghost var start := current;
      ArrayStep(Rest(), stackDepth, reals);
      SetCurrent(Array([]));
      SkipSpaces();
      Drop(document, start, current - start);
      if Peek() == ']' {
        CloseBracket(document[current..]);
        var endArray := ReadToken();
        return true, false;
      }
      ok, thrown := ReadElements();
    }

    // The token behind an element, comments skipped.
    method ReadElemTail() returns (tail: Tail)
      requires Placed()
      modifies this`current
      ensures Placed() && tail == ElemTail(old(Rest())) && current == old(current) + tail.count
    {
      hide NextToken;
      var start := current;
      var token := SkipCommentTokens();
      var n := current - start;
      return if token.kind == ArraySeparator then Next(n) else if token.kind == ArrayEnd then End(n) else Lost(n);
    }

    // One element, pushed into the array; behind one that is bad, the reader has recovered.
    method ReadElement(ghost below: seq<Value>, ghost elems: seq<Value>)
      returns (ok: bool, thrown: bool, ghost e: Outcome)
      requires Placed() && nodes == below + [Array(elems)]
      modifies this`current, this`errors, this`stackDepth, this`nodes
      ensures e == Syntax.ReadValue(old(Rest()), old(stackDepth), Null, reals) && thrown == e.Thrown?
      ensures e.Done? ==> ok == e.ok && e.count <= |document| - old(current) && Placed()
      ensures e.Done? ==> errors == if ok then old(errors) else old(errors) + e.errors
      ensures e.Done? ==> nodes == below + [Array(elems + [e.value])]
      ensures e.Done? ==>
                current == old(current) + e.count + if ok then 0 else RecoverCount(old(Rest())[e.count..], ArrayEnd)
      ensures !thrown ==> Balanced(old(stackDepth), ok)
      decreases |document| - current, 3
    {
      hide Syntax.ReadValue, RecoverCount;
      ghost var here := current;
      e := Syntax.ReadValue(Rest(), stackDepth, Null, reals);
      var value;
      ok, thrown, value := ReadInto(Null);
      if thrown {
        return;
      }
      SetCurrent(Array(CurrentValue().elems + [value]));
      if !ok {
        Drop(document, here, current - here);
        RecoverFromError(ArrayEnd);
      }
    }

    // One turn of readArray's loop.
    method ElementTurn(ghost below: seq<Value>, ghost elems: seq<Value>)
      returns (more: bool, ok: bool, thrown: bool, ghost grown: seq<Value>)
      requires Placed() && nodes == below + [Array(elems)]
      modifies this`current, this`errors, this`stackDepth, this`nodes
      ensures var r := ReadElems(old(Rest()), old(stackDepth), elems, reals);
              if more then
                && Placed() && old(current) < current && stackDepth == old(stackDepth) && errors == old(errors)
                && nodes == below + [Array(grown)]
                && r == Later(ReadElems(Rest(), stackDepth, grown, reals), current - old(current))
              else
                && Came(r, old(current), old(errors), below, ok, thrown)
                && (!thrown ==> Balanced(old(stackDepth), ok))
      decreases |document| - current, 4
    {
      hide ReadElems, Syntax.ReadValue, ElemTail, RecoverCount, Sound;
      ghost var here, depth := current, stackDepth;
      ElemsStep(Rest(), depth, elems, reals);
      ghost var e;
      more, grown := false, elems;
      ok, thrown, e := ReadElement(below, elems);
      if thrown || !ok {
        return;
      }
      grown := elems + [e.value];
      ghost var behind := current;
      Drop(document, here, behind - here);
      var tail := ReadElemTail();
      Drop(document, behind, current - behind);
      if tail.Lost? {
        AddErrorAndRecover(NO_COMMA_OR_BRACKET, ArrayEnd);
        ok := false;
      } else if tail.Next? {
        more := true;
        LaterTwice(ReadElems(Rest(), depth, grown, reals), behind - here, current - behind);
      }
    }

    // readArray's loop.
    method ReadElements() returns (ok: bool, thrown: bool)
      requires Placed() && nodes != [] && CurrentValue() == Array([])
      modifies this`current, this`errors, this`stackDepth, this`nodes
      ensures Came(ReadElems(old(Rest()), old(stackDepth), [], reals),
                   old(current), old(errors), old(nodes)[..|old(nodes)| - 1], ok, thrown)
      ensures !thrown ==> Balanced(old(stackDepth), ok)
      decreases |document| - current, 5
    {
      hide ReadElems;
      ghost var start, depth, errs, below := current, stackDepth, errors, nodes[..|nodes| - 1];
      ghost var whole := ReadElems(Rest(), depth, [], reals);
      ghost var elems: seq<Value> := [];
      while true
        invariant Placed() && start <= current && stackDepth == depth && errors == errs
        invariant nodes == below + [Array(elems)]
        invariant whole == Later(ReadElems(Rest(), depth, elems, reals), current - start)
        decreases |document| - current
      {
        ghost var here := current;
        var more;
        more, ok, thrown, elems := ElementTurn(below, elems);
        if !more {
          return;
        }
        LaterTwice(ReadElems(Rest(), depth, elems, reals), here - start, current - here);
      }
    }

    // A member's name and its colon.
    method ReadMemberHead(last: string) returns (head: Head)
      requires Placed()
      modifies this`current
      ensures Placed() && head == MemberHead(old(Rest()), last) && current == old(current) + head.count
    {
      hide NextToken, Syntax.ReadToken, Decode;
      var start := current;
      var token := SkipCommentTokens();
      Drop(document, start, current - start);
      if token.kind == ObjectEnd && last == "" {
        return Closed(token.end - start);
      }
      if token.kind != StringText {
        return Failed(NO_NAME, token.end - start);
      }
      Slice(document, start, token.start - start + 1, token.end - start - 1);
      var decoded := DecodeString(document, token.start, token.end);
      if decoded.None? {
        return Failed(BAD_STRING, token.end - start);
      }
      var colon := ReadToken();
      if colon.kind != MemberSeparator {
        return Failed(NO_COLON, colon.end - start);
      }
      return Named(decoded.value, colon.end - start);
    }

    // The token behind a member, and the comments behind that.
    method ReadMemberTail() returns (tail: Tail)
      requires Placed()
      modifies this`current
      ensures Placed() && tail == MemberTail(old(Rest())) && current == old(current) + tail.count
    {
      hide Syntax.ReadToken;
      var start := current;
      ghost var s := Rest();
      var comma := ReadToken();
      if comma.kind != ObjectEnd && comma.kind != ArraySeparator && comma.kind != Comment {
        return Lost(current - start);
      }
      Drop(document, start, current - start);
      if comma.kind == Comment {
        comma := SkipCommentTokens();
      }
      return if comma.kind == ObjectEnd then End(current - start) else Next(current - start);
    }

    // The member of that name, set in the object; behind one that is bad, the reader has recovered.
    method ReadMember(name: string, ghost below: seq<Value>, ghost members: seq<Member>)
      returns (ok: bool, thrown: bool, ghost v: Outcome)
      requires Placed() && nodes == below + [Object(members)]
      modifies this`current, this`errors, this`stackDepth, this`nodes
      ensures v == Syntax.ReadValue(old(Rest()), old(stackDepth), Lookup(members, KeyOf(name)), reals)
      ensures thrown == v.Thrown?
      ensures v.Done? ==> ok == v.ok && v.count <= |document| - old(current) && Placed()
      ensures v.Done? ==> errors == if ok then old(errors) else old(errors) + v.errors
      ensures v.Done? ==> nodes == below + [Object(Put(members, KeyOf(name), v.value))]
      ensures v.Done? ==>
                current == old(current) + v.count + if ok then 0 else RecoverCount(old(Rest())[v.count..], ObjectEnd)
      ensures !thrown ==> Balanced(old(stackDepth), ok)
      decreases |document| - current, 3
    {
      hide Syntax.ReadValue, RecoverCount, Put, Lookup, KeyOf;
      ghost var here := current;
      var key := KeyOf(name);
      v := Syntax.ReadValue(Rest(), stackDepth, Lookup(CurrentValue().members, key), reals);
      var value;
      ok, thrown, value := ReadInto(Lookup(CurrentValue().members, key));
      if thrown {
        return;
      }
      SetCurrent(Object(Put(CurrentValue().members, key, value)));
      if !ok {
        Drop(document, here, current - here);
        RecoverFromError(ObjectEnd);
      }
    }

    // The turn of readObject's loop behind a member's name and colon.
    method MemberRest(name: string, ghost below: seq<Value>, ghost members: seq<Member>)
      returns (more: bool, ok: bool, thrown: bool, ghost grown: seq<Member>)
      requires Placed() && nodes == below + [Object(members)]
      modifies this`current, this`errors, this`stackDepth, this`nodes
      ensures var r := MembersBehind(old(Rest()), old(stackDepth), members, name, reals);
              if more then
                && Placed() && old(current) <= current && stackDepth == old(stackDepth) && errors == old(errors)
                && nodes == below + [Object(grown)]
                && r == Later(ReadMembers(Rest(), stackDepth, grown, name, reals), current - old(current))
              else
                && Came(r, old(current), old(errors), below, ok, thrown)
                && (!thrown ==> Balanced(old(stackDepth), ok))
      decreases |document| - current, 4
    {
      hide ReadMembers, MemberTail, AfterMember, Syntax.ReadValue, RecoverCount, Put, Lookup, KeyOf, Sound;
      ghost var colon, depth := current, stackDepth;
      ghost var v;
      more, grown := false, members;
      ok, thrown, v := ReadMember(name, below, members);
      if thrown {
        return;
      }
      grown := Put(members, KeyOf(name), v.value);
      Drop(document, colon, v.count);
      if !ok {
        return;
      }
      ghost var behind := current;
      TailStep(Rest(), depth, grown, name, reals);
      var tail := ReadMemberTail();
      Drop(document, behind, current - behind);
      if tail.Lost? {
        AddErrorAndRecover(NO_COMMA_OR_BRACE, ObjectEnd);
        ok := false;
      } else if tail.Next? {
        more := true;
        LaterTwice(ReadMembers(Rest(), depth, grown, name, reals), behind - colon, current - behind);
      }
    }

    // One turn of readObject's loop.
    method MemberTurn(last: string, ghost below: seq<Value>, ghost members: seq<Member>)
      returns (more: bool, ok: bool, thrown: bool, name: string, ghost grown: seq<Member>)
      requires Placed() && nodes == below + [Object(members)]
      modifies this`current, this`errors, this`stackDepth, this`nodes
      ensures var r := ReadMembers(old(Rest()), old(stackDepth), members, last, reals);
              if more then
                && Placed() && old(current) < current && stackDepth == old(stackDepth) && errors == old(errors)
                && nodes == below + [Object(grown)]
                && r == Later(ReadMembers(Rest(), stackDepth, grown, name, reals), current - old(current))
              else
                && Came(r, old(current), old(errors), below, ok, thrown)
                && (!thrown ==> Balanced(old(stackDepth), ok))
      decreases |document| - current, 5
    {
      hide ReadMembers, MemberHead, MembersBehind, RecoverCount, Sound;
      ghost var here := current;
      MembersStep(Rest(), stackDepth, members, last, reals);
      more, ok, thrown, name, grown := false, true, false, "", members;
      var head := ReadMemberHead(last);
      Drop(document, here, current - here);
      if head.Failed? {
        AddErrorAndRecover(head.message, ObjectEnd);
        ok := false;
      } else if head.Named? {
        name := head.name;
        ghost var colon := current;
        more, ok, thrown, grown := MemberRest(name, below, members);
        if more {
          LaterTwice(ReadMembers(Rest(), stackDepth, grown, name, reals), colon - here, current - colon);
        }
      }
    }

    /** readObject, behind its brace. */
    method ReadObject() returns (ok: bool, thrown: bool)
      requires Placed() && nodes != []
      modifies this`current, this`errors, this`stackDepth, this`nodes
      ensures Came(ReadMembers(old(Rest()), old(stackDepth), [], "", reals),
                   old(current), old(errors), old(nodes)[..|old(nodes)| - 1], ok, thrown)
      ensures !thrown ==> Balanced(old(stackDepth), ok)
      decreases |document| - current, 6
    {
      hide ReadMembers;
      ghost var start, depth, errs, below := current, stackDepth, errors, nodes[..|nodes| - 1];
      ghost var whole := ReadMembers(Rest(), depth, [], "", reals);
      SetCurrent(Object([]));
      ghost var members: seq<Member> := [];
      var name := "";
      while true
        invariant Placed() && start <= current && stackDepth == depth && errors == errs
        invariant nodes == below + [Object(members)]
        invariant whole == Later(ReadMembers(Rest(), depth, members, name, reals), current - start)
        decreases |document| - current
      {
        ghost var here := current;
        var more;
        more, ok, thrown, name, members := MemberTurn(name, below, members);
        if !more {
          return;
        }
        LaterTwice(ReadMembers(Rest(), depth, members, name, reals), here - start, current - here);
      }
    }

    /** parse: the value that root becomes, unless the nesting is too deep; whatever was left in the reader
        before does not matter. */
    method Parse(text: string, root: Value) returns (ok: bool, thrown: bool, value: Value)
      modifies this
      ensures var o := Syntax.Parse(text, root, reals);
              && thrown == o.Thrown?
              && (o.Done? ==> ok == o.ok && value == o.value && errors == o.errors && |nodes| == 1 && Placed())
      ensures !thrown && ok ==> stackDepth == 0 && errors == []
    {
      hide Syntax.ReadValue, NextToken;
      document, current, errors, nodes, stackDepth := text, 0, [], [root], 0;
      assert Rest() == text;
      value := root;
      ok, thrown := ReadValue();
      if !thrown {
        value := CurrentValue();
        var token := SkipCommentTokens();
      }
    }
  }
}
