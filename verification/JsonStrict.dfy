/** A strict reader beside the one the code has, and exactly which texts only the lenient one takes. */
module JsonStrict {
  import opened Wrappers
  import opened Slices
  import opened JsonNumber
  import opened JsonString
  import opened JsonValue
  import opened JsonSyntax

  // ---- The strict reader: a number has a digit, a comma stands between members, a name behind a comma ----

  datatype Strict = Accepted(count: nat, value: Value) | Rejected | TooDeep

  function Onward(r: Strict, n: nat): Strict {
    match r
    case Accepted(count, value) => Accepted(n + count, value)
    case _ => r
  }

  ghost predicate Within(r: Strict, s: string) { r.Accepted? ==> 0 < r.count <= |s| }

  function StrictNumber(text: string, count: nat, reals: string -> bool): Strict
    requires text != ""
  {
    if text == "-" then Rejected
    else
      match DecodeNumber(text)
      case Integer(i) => Accepted(count, Tagged(i))
      case NotInteger => if reals(text) then Accepted(count, Real(text)) else Rejected
  }

  function StrictValue(s: string, depth: nat, reals: string -> bool): (r: Strict)
    ensures Within(r, s)
    decreases |s|, 1
  {
    if depth >= STACK_LIMIT then TooDeep
    else
      var t := NextToken(s);
      var text := s[t.start..t.end];
      match t.kind
      case ObjectBegin => Onward(StrictMembers(s[t.end..], depth + 1, [], true, reals), t.end)
      case ArrayBegin => Onward(StrictArray(s[t.end..], depth + 1, reals), t.end)
      case NumberText => StrictNumber(text, t.end, reals)
      case StringText =>
        (match Decode(text[1..|text| - 1])
         case None => Rejected
         case Some(d) => Accepted(t.end, Str(d)))
      case TrueText => Accepted(t.end, Bool(true))
      case FalseText => Accepted(t.end, Bool(false))
      case NullText => Accepted(t.end, Null)
      case _ => Rejected
  }

  function StrictArray(s: string, depth: nat, reals: string -> bool): (r: Strict)
    ensures Within(r, s)
    decreases |s|, 3
  {
    var p := SpaceCount(s);
    if p < |s| && s[p] == ']' then Accepted(p + 1, Array([]))
    else Onward(StrictElems(s[p..], depth, [], reals), p)
  }

  function StrictElems(s: string, depth: nat, elems: seq<Value>, reals: string -> bool): (r: Strict)
    ensures Within(r, s)
    decreases |s|, 2
  {
    var e := StrictValue(s, depth, reals);
    if !e.Accepted? then e
    else Onward(StrictNext(s[e.count..], depth, elems + [e.value], reals), e.count)
  }

  // Behind an element: the closing bracket, or a comma and another element.
  function StrictNext(s: string, depth: nat, elems: seq<Value>, reals: string -> bool): (r: Strict)
    ensures Within(r, s)
    decreases |s|, 3
  {
    var t := NextToken(s);
    if t.kind == ArrayEnd then Accepted(t.end, Array(elems))
    else if t.kind == ArraySeparator then Onward(StrictElems(s[t.end..], depth, elems, reals), t.end)
    else Rejected
  }

  function StrictMembers(s: string, depth: nat, members: seq<Member>, first: bool, reals: string -> bool): (r: Strict)
    ensures Within(r, s)
    decreases |s|, 2
  {
    var t := NextToken(s);
    if t.kind == ObjectEnd && first then Accepted(t.end, Object(members))
    else if t.kind != StringText then Rejected
    else
      var name := Decode(s[t.start + 1..t.end - 1]);
      var colon := ReadToken(s[t.end..]);
      var n := t.end + colon.end;
      if name.None? || colon.kind != MemberSeparator then Rejected
      else
        var v := StrictValue(s[n..], depth, reals);
        if !v.Accepted? then v
        else
          var here := Put(members, KeyOf(name.value), v.value);
          Onward(StrictBehind(s[n + v.count..], depth, here, reals), n + v.count)
  }

  // Behind a member: the closing brace, or a comma and another member.
  function StrictBehind(s: string, depth: nat, members: seq<Member>, reals: string -> bool): (r: Strict)
    ensures Within(r, s)
    decreases |s|, 3
  {
    var t := NextToken(s);
    if t.kind == ObjectEnd then Accepted(t.end, Object(members))
    else if t.kind == ArraySeparator then Onward(StrictMembers(s[t.end..], depth, members, false, reals), t.end)
    else Rejected
  }

  function StrictParse(s: string, reals: string -> bool): Strict { StrictValue(s, 0, reals) }

  // ---- What the strict reader takes, the other one takes alike ----

  // The outcome of the lenient reader where the strict one does not reject.
  ghost predicate Agrees(r: Strict, o: Outcome) {
    match r
    case Accepted(count, value) => o == Done(true, count, value, [])
    case TooDeep => o == Thrown
    case Rejected => true
  }

  lemma {:induction false} ValueAgrees(s: string, depth: nat, cur: Value, reals: string -> bool)
    ensures Agrees(StrictValue(s, depth, reals), ReadValue(s, depth, cur, reals))
    decreases |s|, 1
  {
    hide NextToken, Decode, DecodeNumber, StrictMembers, ReadMembers, StrictArray, ReadArray;
    if depth < STACK_LIMIT {
      var t := NextToken(s);
      if t.kind == ObjectBegin {
        MembersAgree(s[t.end..], depth + 1, [], true, "", reals);
      } else if t.kind == ArrayBegin {
        ArrayAgrees(s[t.end..], depth + 1, reals);
      }
    }
  }

  lemma {:induction false} ArrayAgrees(s: string, depth: nat, reals: string -> bool)
    ensures Agrees(StrictArray(s, depth, reals), JsonSyntax.ReadArray(s, depth, reals))
    decreases |s|, 3
  {
    hide StrictElems, ReadElems;
    ElemsAgree(s[SpaceCount(s)..], depth, [], reals);
  }

  lemma {:induction false} ElemsAgree(s: string, depth: nat, elems: seq<Value>, reals: string -> bool)
    ensures Agrees(StrictElems(s, depth, elems, reals), ReadElems(s, depth, elems, reals))
    decreases |s|, 2
  {
    hide StrictValue, ReadValue, StrictNext, ReadElems;
    var e := StrictValue(s, depth, reals);
    ValueAgrees(s, depth, Null, reals);
    if e.Accepted? {
      NextAgrees(s, depth, elems, e.count, e.value, reals);
    } else {
      ElemsStop(s, depth, elems, reals);
    }
  }

  lemma ElemsStop(s: string, depth: nat, elems: seq<Value>, reals: string -> bool)
    ensures ReadValue(s, depth, Null, reals) == Thrown ==> ReadElems(s, depth, elems, reals) == Thrown
  {
    hide ReadValue;
  }

  lemma {:induction false} NextAgrees(
    s: string, depth: nat, elems: seq<Value>, n: nat, value: Value, reals: string -> bool)
    requires 0 < n <= |s| && ReadValue(s, depth, Null, reals) == Done(true, n, value, [])
    ensures Agrees(Onward(StrictNext(s[n..], depth, elems + [value], reals), n), ReadElems(s, depth, elems, reals))
    decreases |s|, 1
  {
    hide StrictElems, ReadValue, NextToken, RecoverCount, Sound;
    var t := NextToken(s[n..]);
    assert s[n..][t.end..] == s[n + t.end..];
    if t.kind == ArraySeparator {
      ElemsAgree(s[n + t.end..], depth, elems + [value], reals);
    }
  }

  lemma {:induction false} MembersAgree(
    s: string, depth: nat, members: seq<Member>, first: bool, last: string, reals: string -> bool)
    requires first ==> last == ""
    ensures Agrees(StrictMembers(s, depth, members, first, reals), ReadMembers(s, depth, members, last, reals))
    decreases |s|, 2
  {
    hide StrictValue, ReadValue, NextToken, ReadToken, RecoverCount, Decode, Put, Lookup, KeyOf, StrictBehind,
         AfterMember;
    var t := NextToken(s);
    if t.kind == StringText {
      var name := Decode(s[t.start + 1..t.end - 1]);
      var n := t.end + ReadToken(s[t.end..]).end;
      if name.Some? {
        var key := KeyOf(name.value);
        var v := StrictValue(s[n..], depth, reals);
        ValueAgrees(s[n..], depth, Lookup(members, key), reals);
        if v.Accepted? {
          BehindAgrees(s[n + v.count..], depth, Put(members, key, v.value), name.value, reals);
        }
      }
    }
  }

  lemma {:induction false} BehindAgrees(
    s: string, depth: nat, members: seq<Member>, name: string, reals: string -> bool)
    ensures Agrees(StrictBehind(s, depth, members, reals), AfterMember(s, depth, members, name, reals))
    decreases |s|, 3
  {
    hide StrictMembers, ReadMembers, ReadToken;
    var t := NextToken(s);
    if t.kind == ArraySeparator {
      MembersAgree(s[t.end..], depth, members, false, name, reals);
    }
  }

  // ---- What can be read off a text: which tokens fit where they stand ----

  // A token that can be the last one of a value.
  predicate EndsValue(k: Kind) {
    k == StringText || k == NumberText || k == TrueText || k == FalseText || k == NullText
    || k == ObjectEnd || k == ArrayEnd
  }

  predicate Inside(open: seq<Kind>, bracket: Kind) { open != [] && open[|open| - 1] == bracket }

  // Whether a token fits behind the two before it, comments aside, inside the brackets still open: a colon behind a
  // name, a name behind a brace or a comma, a closing bracket behind its opening one and a brace not behind a comma,
  // and nothing but a comma or a closing bracket behind a value.
  predicate Fits(open: seq<Kind>, q: Kind, p: Kind, k: Kind) {
    if k == MemberSeparator then p == StringText && (q == ObjectBegin || q == ArraySeparator)
    else if k == ObjectEnd then Inside(open, ObjectBegin) && p != ArraySeparator
    else if k == ArrayEnd then Inside(open, ArrayBegin)
    else k == ArraySeparator || !EndsValue(p)
  }

  function Opened(open: seq<Kind>, k: Kind): seq<Kind> {
    if k == ObjectBegin || k == ArrayBegin then open + [k]
    else if (k == ObjectEnd || k == ArrayEnd) && open != [] then open[..|open| - 1]
    else open
  }

  /** A token that does not fit, or a number that is a minus alone, before the first value of the text is complete. */
  predicate Lapses(open: seq<Kind>, q: Kind, p: Kind, s: string)
    decreases |s|
  {
    if open == [] && EndsValue(p) then false
    else
      var t := NextToken(s);
      if t.start == t.end then false
      else
        || !Fits(open, q, p, t.kind)
        || (t.kind == NumberText && s[t.start..t.end] == "-")
        || Lapses(Opened(open, t.kind), p, t.kind, s[t.end..])
  }

  predicate HasLapse(s: string) { Lapses([], EndOfStream, EndOfStream, s) }

  // A token that fits leaves the rest of the text to look at.
  lemma LapsesStep(open: seq<Kind>, q: Kind, p: Kind, s: string)
    requires open != [] || !EndsValue(p)
    ensures var t := NextToken(s);
            t.start < t.end && Fits(open, q, p, t.kind) && (t.kind == NumberText ==> s[t.start..t.end] != "-") ==>
              Lapses(open, q, p, s) == Lapses(Opened(open, t.kind), p, t.kind, s[t.end..])
    ensures var t := NextToken(s);
            t.start < t.end && !Fits(open, q, p, t.kind) ==> Lapses(open, q, p, s)
    ensures var t := NextToken(s);
            t.start < t.end && t.kind == NumberText && s[t.start..t.end] == "-" ==> Lapses(open, q, p, s)
  {
    hide NextToken, Fits, Opened;
  }

  // ---- The strict reader takes no lapse ----

  // Behind a value that is taken, the look goes on with the value's last two tokens.
  lemma {:induction false} ValueFits(
    open: seq<Kind>, q: Kind, p: Kind, s: string, depth: nat, reals: string -> bool) returns (q': Kind, p': Kind)
    requires StrictValue(s, depth, reals).Accepted? && !EndsValue(p)
    ensures EndsValue(p') && (p' == StringText ==> q' == p)
    ensures Lapses(open, q, p, s) == Lapses(open, q', p', s[StrictValue(s, depth, reals).count..])
    decreases |s|, 1
  {
    hide NextToken, Lapses, StrictMembers, StrictArray, Decode, DecodeNumber;
    var t := NextToken(s);
    LapsesStep(open, q, p, s);
    q', p' := p, t.kind;
    if t.kind == ObjectBegin {
      q', p' := MembersFit(open, p, ObjectBegin, s[t.end..], depth + 1, [], true, reals);
      Drop(s, t.end, StrictMembers(s[t.end..], depth + 1, [], true, reals).count);
    } else if t.kind == ArrayBegin {
      q', p' := ArrayFits(open, p, s[t.end..], depth + 1, reals);
      Drop(s, t.end, StrictArray(s[t.end..], depth + 1, reals).count);
    }
  }

  lemma {:induction false} ArrayFits(
    open: seq<Kind>, q: Kind, s: string, depth: nat, reals: string -> bool) returns (q': Kind, p': Kind)
    requires StrictArray(s, depth, reals).Accepted?
    ensures p' == ArrayEnd
    ensures Lapses(open + [ArrayBegin], q, ArrayBegin, s)
         == Lapses(open, q', p', s[StrictArray(s, depth, reals).count..])
    decreases |s|, 3
  {
    hide NextToken, Lapses, StrictElems;
    var p := SpaceCount(s);
    SpacesSkipped(s);
    if p < |s| && s[p] == ']' {
      BracketToken(s);
      LapsesStep(open + [ArrayBegin], q, ArrayBegin, s);
      q', p' := ArrayBegin, ArrayEnd;
      assert Opened(open + [ArrayBegin], ArrayEnd) == open;
    } else {
      LapsesSkip(open + [ArrayBegin], q, ArrayBegin, s);
      q', p' := ElemsFit(open, q, ArrayBegin, s[p..], depth, [], reals);
      Drop(s, p, StrictElems(s[p..], depth, [], reals).count);
    }
  }

  lemma {:induction false} ElemsFit(
    open: seq<Kind>, q: Kind, p: Kind, s: string, depth: nat, elems: seq<Value>, reals: string -> bool)
    returns (q': Kind, p': Kind)
    requires StrictElems(s, depth, elems, reals).Accepted? && !EndsValue(p)
    ensures p' == ArrayEnd
    ensures Lapses(open + [ArrayBegin], q, p, s)
         == Lapses(open, q', p', s[StrictElems(s, depth, elems, reals).count..])
    decreases |s|, 2
  {
    hide Lapses, StrictValue, StrictNext, Fits, Opened;
    var e := StrictValue(s, depth, reals);
    q', p' := ValueFits(open + [ArrayBegin], q, p, s, depth, reals);
    var rest, here := s[e.count..], elems + [e.value];
    q', p' := NextFits(open, q', p', rest, depth, here, reals);
    Drop(s, e.count, StrictNext(rest, depth, here, reals).count);
  }

  lemma {:induction false} NextFits(
    open: seq<Kind>, q: Kind, p: Kind, s: string, depth: nat, elems: seq<Value>, reals: string -> bool)
    returns (q': Kind, p': Kind)
    requires StrictNext(s, depth, elems, reals).Accepted? && EndsValue(p)
    ensures p' == ArrayEnd
    ensures Lapses(open + [ArrayBegin], q, p, s) == Lapses(open, q', p', s[StrictNext(s, depth, elems, reals).count..])
    decreases |s|, 3
  {
    hide NextToken, Lapses, StrictElems;
    var inner := open + [ArrayBegin];
    var t := NextToken(s);
    LapsesStep(inner, q, p, s);
    if t.kind == ArrayEnd {
      q', p' := p, ArrayEnd;
      assert Opened(inner, ArrayEnd) == open;
    } else {
      q', p' := ElemsFit(open, p, ArraySeparator, s[t.end..], depth, elems, reals);
      Drop(s, t.end, StrictElems(s[t.end..], depth, elems, reals).count);
    }
  }

  lemma {:induction false} MembersFit(
    open: seq<Kind>, q: Kind, p: Kind, s: string, depth: nat, members: seq<Member>, first: bool, reals: string -> bool)
    returns (q': Kind, p': Kind)
    requires StrictMembers(s, depth, members, first, reals).Accepted?
    requires p == if first then ObjectBegin else ArraySeparator
    ensures p' == ObjectEnd
    ensures Lapses(open + [ObjectBegin], q, p, s)
         == Lapses(open, q', p', s[StrictMembers(s, depth, members, first, reals).count..])
    decreases |s|, 2
  {
    hide NextToken, ReadToken, Lapses, StrictValue, StrictBehind, Decode, Put, KeyOf, Fits, Opened;
    var inner := open + [ObjectBegin];
    var t := NextToken(s);
    if t.kind == ObjectEnd {
      BraceFits(open, q, p, s);
      q', p' := p, ObjectEnd;
    } else {
      var name := Decode(s[t.start + 1..t.end - 1]).value;
      var n := t.end + ReadToken(s[t.end..]).end;
      var v := StrictValue(s[n..], depth, reals);
      q', p' := MemberFits(inner, q, p, s, n, depth, reals);
      var m := n + v.count;
      var here := Put(members, KeyOf(name), v.value);
      q', p' := BehindFits(open, q', p', s[m..], depth, here, reals);
      Drop(s, m, StrictBehind(s[m..], depth, here, reals).count);
    }
  }

  // A name behind a brace or a comma, its colon and its value fit.
  lemma {:induction false} MemberFits(
    open: seq<Kind>, q: Kind, p: Kind, s: string, n: nat, depth: nat, reals: string -> bool)
    returns (q': Kind, p': Kind)
    requires open != [] && (p == ObjectBegin || p == ArraySeparator) && NextToken(s).kind == StringText
    requires ReadToken(s[NextToken(s).end..]).kind == MemberSeparator
    requires n == NextToken(s).end + ReadToken(s[NextToken(s).end..]).end <= |s|
    requires StrictValue(s[n..], depth, reals).Accepted?
    ensures EndsValue(p') && (p' == StringText ==> q' == MemberSeparator)
    ensures n + StrictValue(s[n..], depth, reals).count <= |s|
    ensures Lapses(open, q, p, s) == Lapses(open, q', p', s[n + StrictValue(s[n..], depth, reals).count..])
    decreases |s|, 1
  {
    hide NextToken, ReadToken, Lapses, StrictValue;
    NameFits(open, q, p, s);
    q', p' := ValueFits(open, StringText, MemberSeparator, s[n..], depth, reals);
    Drop(s, n, StrictValue(s[n..], depth, reals).count);
  }

  lemma BraceFits(open: seq<Kind>, q: Kind, p: Kind, s: string)
    requires NextToken(s).kind == ObjectEnd && p != ArraySeparator
    ensures Lapses(open + [ObjectBegin], q, p, s) == Lapses(open, p, ObjectEnd, s[NextToken(s).end..])
  {
    hide NextToken, Lapses;
    LapsesStep(open + [ObjectBegin], q, p, s);
    assert Opened(open + [ObjectBegin], ObjectEnd) == open;
  }

  // A name behind a brace or a comma, and its colon, fit.
  lemma NameFits(open: seq<Kind>, q: Kind, p: Kind, s: string)
    requires open != [] && (p == ObjectBegin || p == ArraySeparator) && NextToken(s).kind == StringText
    requires ReadToken(s[NextToken(s).end..]).kind == MemberSeparator
    ensures var t := NextToken(s); var n := t.end + ReadToken(s[t.end..]).end;
            Lapses(open, q, p, s) == Lapses(open, StringText, MemberSeparator, s[n..])
  {
    hide NextToken, ReadToken, Lapses;
    var t := NextToken(s);
    var rest := s[t.end..];
    LapsesStep(open, q, p, s);
    NotComment(rest);
    LapsesStep(open, p, StringText, rest);
    Drop(s, t.end, ReadToken(rest).end);
  }

  lemma {:induction false} BehindFits(
    open: seq<Kind>, q: Kind, p: Kind, s: string, depth: nat, members: seq<Member>, reals: string -> bool)
    returns (q': Kind, p': Kind)
    requires StrictBehind(s, depth, members, reals).Accepted? && EndsValue(p)
    ensures p' == ObjectEnd
    ensures Lapses(open + [ObjectBegin], q, p, s)
         == Lapses(open, q', p', s[StrictBehind(s, depth, members, reals).count..])
    decreases |s|, 3
  {
    hide NextToken, Lapses, StrictMembers;
    var inner := open + [ObjectBegin];
    var t := NextToken(s);
    LapsesStep(inner, q, p, s);
    if t.kind == ObjectEnd {
      q', p' := p, ObjectEnd;
      assert Opened(inner, ObjectEnd) == open;
    } else {
      q', p' := MembersFit(open, p, ArraySeparator, s[t.end..], depth, members, false, reals);
      Drop(s, t.end, StrictMembers(s[t.end..], depth, members, false, reals).count);
    }
  }

  // ---- Tokens behind white space ----

  lemma SpacesSkipped(s: string)
    ensures var p := SpaceCount(s); SpaceCount(s[p..]) == 0
  {
  }

  lemma BracketToken(s: string)
    requires SpaceCount(s) < |s| && s[SpaceCount(s)] == ']'
    ensures NextToken(s) == Token(ArrayEnd, SpaceCount(s), SpaceCount(s) + 1)
  {
    hide NextToken, ScanString, CommentText, NumberCount, Keyword, SpaceCount;
    NotComment(s);
  }

  lemma NotComment(s: string)
    requires ReadToken(s).kind != Comment
    ensures NextToken(s) == ReadToken(s)
  {
    hide ReadToken;
  }

  // White space in front moves the next token, and changes nothing about it.
  lemma NextBehindSpaces(s: string)
    ensures var p := SpaceCount(s); NextToken(s) == Moved(NextToken(s[p..]), p)
  {
    hide ReadToken;
    var p := SpaceCount(s);
    ReadBehindSpaces(s);
    var t := ReadToken(s);
    if t.kind == Comment {
      assert s[p..][t.end - p..] == s[t.end..];
    }
  }

  lemma ReadBehindSpaces(s: string)
    ensures var p := SpaceCount(s); ReadToken(s) == Moved(ReadToken(s[p..]), p)
  {
    hide TokenBody;
    var p := SpaceCount(s);
    SpacesSkipped(s);
    if p < |s| {
      assert s[p..][0] == s[p] && s[p..][1..] == s[p + 1..];
    }
  }

  lemma LapsesSkip(open: seq<Kind>, q: Kind, p: Kind, s: string)
    ensures Lapses(open, q, p, s) == Lapses(open, q, p, s[SpaceCount(s)..])
  {
    hide NextToken, Fits, Opened;
    var n := SpaceCount(s);
    NextBehindSpaces(s);
    var t, u := NextToken(s), NextToken(s[n..]);
    assert s[n..][u.start..u.end] == s[t.start..t.end] && s[n..][u.end..] == s[t.end..];
  }

  // ---- Without a lapse, the strict reader takes what the other one takes ----

  lemma {:induction false} ValueStrict(
    open: seq<Kind>, q: Kind, p: Kind, s: string, depth: nat, cur: Value, reals: string -> bool)
    requires Ok(ReadValue(s, depth, cur, reals)) && !EndsValue(p) && !Lapses(open, q, p, s)
    ensures StrictValue(s, depth, reals).Accepted?
    decreases |s|, 1
  {
    hide NextToken, Lapses, ReadMembers, JsonSyntax.ReadArray, StrictMembers, StrictArray, Decode, DecodeNumber;
    var t := NextToken(s);
    LapsesStep(open, q, p, s);
    if t.kind == ObjectBegin {
      MembersStrict(open, p, ObjectBegin, s[t.end..], depth + 1, [], true, "", reals);
    } else if t.kind == ArrayBegin {
      ArrayStrict(open, p, s[t.end..], depth + 1, reals);
    }
  }

  // A value was read, with no error.
  ghost predicate Ok(o: Outcome) { o.Done? && o.ok }

  lemma {:induction false} ArrayStrict(open: seq<Kind>, q: Kind, s: string, depth: nat, reals: string -> bool)
    requires Ok(JsonSyntax.ReadArray(s, depth, reals)) && !Lapses(open + [ArrayBegin], q, ArrayBegin, s)
    ensures StrictArray(s, depth, reals).Accepted?
    decreases |s|, 3
  {
    hide Lapses, StrictElems, ReadElems;
    var p := SpaceCount(s);
    if p == |s| || s[p] != ']' {
      LapsesSkip(open + [ArrayBegin], q, ArrayBegin, s);
      ElemsStrict(open, q, ArrayBegin, s[p..], depth, [], reals);
    }
  }

  lemma {:induction false} ElemsStrict(
    open: seq<Kind>, q: Kind, p: Kind, s: string, depth: nat, elems: seq<Value>, reals: string -> bool)
    requires Ok(ReadElems(s, depth, elems, reals)) && !EndsValue(p) && !Lapses(open + [ArrayBegin], q, p, s)
    ensures StrictElems(s, depth, elems, reals).Accepted?
    decreases |s|, 2
  {
    hide NextToken, Lapses, StrictValue, ReadValue, RecoverCount, StrictNext, Fits, Opened;
    var inner := open + [ArrayBegin];
    ValueStrict(inner, q, p, s, depth, Null, reals);
    ValueAgrees(s, depth, Null, reals);
    var q', p' := ValueFits(inner, q, p, s, depth, reals);
    var e := StrictValue(s, depth, reals);
    Drop(s, e.count, NextToken(s[e.count..]).end);
    NextStrict(open, q', p', s[e.count..], depth, elems + [e.value], reals);
  }

  // Behind an element that is followed by what the reader asks for.
  lemma {:induction false} NextStrict(
    open: seq<Kind>, q: Kind, p: Kind, s: string, depth: nat, elems: seq<Value>, reals: string -> bool)
    requires var t := NextToken(s);
             t.kind == ArrayEnd || (t.kind == ArraySeparator && Ok(ReadElems(s[t.end..], depth, elems, reals)))
    requires !Lapses(open + [ArrayBegin], q, p, s) && EndsValue(p)
    ensures StrictNext(s, depth, elems, reals).Accepted?
    decreases |s|, 3
  {
    hide NextToken, Lapses, StrictElems, ReadElems;
    var t := NextToken(s);
    if t.kind == ArraySeparator {
      LapsesStep(open + [ArrayBegin], q, p, s);
      ElemsStrict(open, p, ArraySeparator, s[t.end..], depth, elems, reals);
    }
  }

  lemma {:induction false} MembersStrict(
    open: seq<Kind>, q: Kind, p: Kind, s: string, depth: nat, members: seq<Member>, first: bool, last: string,
    reals: string -> bool)
    requires Ok(ReadMembers(s, depth, members, last, reals)) && !Lapses(open + [ObjectBegin], q, p, s)
    requires p == if first then ObjectBegin else ArraySeparator
    ensures StrictMembers(s, depth, members, first, reals).Accepted?
    decreases |s|, 2
  {
    hide NextToken, ReadToken, Lapses, StrictValue, ReadValue, StrictBehind, AfterMember, Decode, Put, KeyOf, Lookup,
         RecoverCount;
    var inner := open + [ObjectBegin];
    var t := NextToken(s);
    if t.kind == ObjectEnd {
      LapsesStep(inner, q, p, s);
    } else {
      var name := Decode(s[t.start + 1..t.end - 1]).value;
      var n := t.end + ReadToken(s[t.end..]).end;
      NameFits(inner, q, p, s);
      var cur := Lookup(members, KeyOf(name));
      ValueStrict(inner, StringText, MemberSeparator, s[n..], depth, cur, reals);
      ValueAgrees(s[n..], depth, cur, reals);
      var v := StrictValue(s[n..], depth, reals);
      var q', p' := MemberFits(inner, q, p, s, n, depth, reals);
      BehindStrict(open, q', p', s[n + v.count..], depth, Put(members, KeyOf(name), v.value), name, reals);
    }
  }

  // Behind a member, anything but the brace that passes for a comma is a lapse.
  lemma {:induction false} BehindStrict(
    open: seq<Kind>, q: Kind, p: Kind, s: string, depth: nat, members: seq<Member>, name: string,
    reals: string -> bool)
    requires Ok(AfterMember(s, depth, members, name, reals)) && !Lapses(open + [ObjectBegin], q, p, s)
    requires EndsValue(p) && (p == StringText ==> q == MemberSeparator)
    ensures StrictBehind(s, depth, members, reals).Accepted?
    decreases |s|, 3
  {
    hide NextToken, ReadToken, Lapses, ReadMembers, StrictMembers, RecoverCount;
    var t := NextToken(s);
    LapsesStep(open + [ObjectBegin], q, p, s);
    if t.kind == ArraySeparator {
      MembersStrict(open, p, ArraySeparator, s[t.end..], depth, members, false, name, reals);
    } else if t.start == t.end {
      TextOver(s);
      NothingRead(depth, members, name, reals);
    }
  }

  lemma TextOver(s: string)
    requires NextToken(s).start == NextToken(s).end
    ensures s[NextToken(s).end..] == ""
    decreases |s|
  {
    var t := ReadToken(s);
    if t.kind == Comment {
      TextOver(s[t.end..]);
      assert s[t.end..][NextToken(s[t.end..]).end..] == s[NextToken(s).end..];
    }
  }

  lemma NothingRead(depth: nat, members: seq<Member>, last: string, reals: string -> bool)
    ensures !Ok(ReadMembers("", depth, members, last, reals))
  {
    assert ReadToken("") == Token(EndOfStream, 0, 0);
  }

  // ---- Which texts the strict reader takes ----

  /** The strict reader takes a text exactly when the other one does and the text has no lapse; and then both read
      the same. */
  lemma StrictExactly(s: string, root: Value, reals: string -> bool)
    ensures StrictParse(s, reals).Accepted? <==> Ok(Parse(s, root, reals)) && !HasLapse(s)
    ensures var r := StrictParse(s, reals);
            r.Accepted? ==> Parse(s, root, reals) == Done(true, r.count, r.value, [])
  {
    hide StrictValue, ReadValue, Lapses;
    ValueAgrees(s, 0, root, reals);
    if StrictParse(s, reals).Accepted? {
      var q, p := ValueFits([], EndOfStream, EndOfStream, s, 0, reals);
      LookEnds(q, p, s[StrictParse(s, reals).count..]);
    } else if Ok(Parse(s, root, reals)) && !HasLapse(s) {
      ValueStrict([], EndOfStream, EndOfStream, s, 0, root, reals);
    }
  }

  lemma LookEnds(q: Kind, p: Kind, s: string)
    requires EndsValue(p)
    ensures !Lapses([], q, p, s)
  {
  }
}
