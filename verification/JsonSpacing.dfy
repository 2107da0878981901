/** White space and comments between the tokens of a text do not change what is read. */
module JsonSpacing {
  import opened Wrappers
  import opened Slices
  import opened JsonNumber
  import opened JsonString
  import opened JsonValue
  import opened JsonSyntax
  import opened JsonWriter
  import opened JsonStrict
  import opened JsonRoundTrip
  import opened JsonMeaning

  // The two places where the reader takes white space and no comment: before a colon, and in an array of nothing.
  predicate Bare(p: Kind, k: Kind) { k == MemberSeparator || (p == ArrayBegin && k == ArrayEnd) }

  /** The two texts have the same tokens, up to the end of both, with white space and comments between them as they
      like, but no comment in a bare place. p is the kind of the token before. */
  predicate Respaced(p: Kind, s: string, t: string)
    decreases |s|
  {
    var a, b := NextToken(s), NextToken(t);
    && a.kind == b.kind && s[a.start..a.end] == t[b.start..b.end]
    && (Bare(p, a.kind) ==> ReadToken(s).kind == ReadToken(t).kind == a.kind)
    && (a.start == a.end || Respaced(a.kind, s[a.end..], t[b.end..]))
  }

  // Both readings come to the same, and the rests of the texts behind a value again have the same tokens.
  ghost predicate Alike(k: Kind, s: string, r: Strict, t: string, u: Strict)
    requires Within(r, s) && Within(u, t)
  {
    match r
    case Accepted(n, value) => u.Accepted? && u.value == value && EndsValue(k) && Respaced(k, s[n..], t[u.count..])
    case TooDeep => u == TooDeep
    case Rejected => true
  }

  // The same one token further back.
  lemma AlikeOnward(k: Kind, s: string, m: nat, r: Strict, t: string, n: nat, u: Strict)
    requires m <= |s| && n <= |t| && Within(r, s[m..]) && Within(u, t[n..])
    requires Alike(k, s[m..], r, t[n..], u)
    ensures Within(Onward(r, m), s) && Within(Onward(u, n), t)
    ensures Alike(k, s, Onward(r, m), t, Onward(u, n))
  {
    hide Respaced;
    if r.Accepted? {
      Drop(s, m, r.count);
      Drop(t, n, u.count);
    }
  }

  lemma {:induction false} ValueRespaced(p: Kind, s: string, t: string, depth: nat, reals: string -> bool)
    returns (k: Kind)
    requires Respaced(p, s, t)
    ensures Alike(k, s, StrictValue(s, depth, reals), t, StrictValue(t, depth, reals))
    decreases |s|, 1
  {
    hide NextToken, ReadToken, StrictMembers, StrictArray, Decode, DecodeNumber;
    var a, b := NextToken(s), NextToken(t);
    k := a.kind;
    if depth < STACK_LIMIT {
      if a.kind == ObjectBegin {
        k := MembersRespaced(ObjectBegin, s[a.end..], t[b.end..], depth + 1, [], true, reals);
        AlikeOnward(k, s, a.end, StrictMembers(s[a.end..], depth + 1, [], true, reals),
                    t, b.end, StrictMembers(t[b.end..], depth + 1, [], true, reals));
      } else if a.kind == ArrayBegin {
        k := ArrayRespaced(s[a.end..], t[b.end..], depth + 1, reals);
        AlikeOnward(k, s, a.end, StrictArray(s[a.end..], depth + 1, reals),
                    t, b.end, StrictArray(t[b.end..], depth + 1, reals));
      }
    }
  }

  lemma {:induction false} ArrayRespaced(s: string, t: string, depth: nat, reals: string -> bool) returns (k: Kind)
    requires Respaced(ArrayBegin, s, t)
    ensures Alike(k, s, StrictArray(s, depth, reals), t, StrictArray(t, depth, reals))
    decreases |s|, 3
  {
    hide NextToken, ReadToken, StrictElems, Alike, Respaced;
    var m, n := SpaceCount(s), SpaceCount(t);
    BothClosed(s, t);
    if m < |s| && s[m] == ']' {
      k := ArrayEnd;
      BothClose(ArrayBegin, s, t, Array([]));
    } else {
      RespacedSkip(ArrayBegin, s, t);
      k := ElemsRespaced(ArrayBegin, s[m..], t[n..], depth, [], reals);
      AlikeOnward(k, s, m, StrictElems(s[m..], depth, [], reals), t, n, StrictElems(t[n..], depth, [], reals));
    }
  }

  lemma BothClosed(s: string, t: string)
    requires Respaced(ArrayBegin, s, t)
    ensures var m, n := SpaceCount(s), SpaceCount(t);
            m < |s| && s[m] == ']' <==> n < |t| && t[n] == ']'
    ensures SpaceCount(s) < |s| && s[SpaceCount(s)] == ']' ==>
              NextToken(s) == Token(ArrayEnd, SpaceCount(s), SpaceCount(s) + 1)
              && NextToken(t) == Token(ArrayEnd, SpaceCount(t), SpaceCount(t) + 1)
  {
    hide NextToken, ReadToken, SpaceCount;
    ClosedAtOnce(s);
    ClosedAtOnce(t);
  }

  // What the reader sees when it looks for the bracket by itself.
  lemma ClosedAtOnce(s: string)
    ensures var p := SpaceCount(s);
            if p < |s| && s[p] == ']' then ReadToken(s) == NextToken(s) == Token(ArrayEnd, p, p + 1)
            else ReadToken(s).kind != ArrayEnd
  {
    hide NextToken, ReadToken, SpaceCount;
    ClosesOnBracket(s);
    if ReadToken(s).kind == ArrayEnd {
      NotComment(s);
    }
  }

  lemma ClosesOnBracket(s: string)
    ensures var p := SpaceCount(s);
            if p < |s| && s[p] == ']' then ReadToken(s) == Token(ArrayEnd, p, p + 1) else ReadToken(s).kind != ArrayEnd
  {
    hide TokenBody, SpaceCount, ReadToken;
    var p := SpaceCount(s);
    if p == |s| {
      NoToken(s);
    } else {
      TokenAt(s);
      OnlyBracketCloses(s[p], s[p + 1..]);
    }
  }

  lemma TokenAt(s: string)
    requires SpaceCount(s) < |s|
    ensures var p := SpaceCount(s);
            var b := TokenBody(s[p], s[p + 1..]);
            ReadToken(s) == Token(b.0, p, p + 1 + b.1)
  {
    hide TokenBody, SpaceCount, CommentText, NumberCount, Keyword;
  }

  lemma NoToken(s: string)
    requires SpaceCount(s) == |s|
    ensures ReadToken(s) == Token(EndOfStream, |s|, |s|)
  {
    hide TokenBody, SpaceCount, CommentText, NumberCount, Keyword;
  }

  lemma OnlyBracketCloses(c: char, s: string)
    ensures TokenBody(c, s).0 == ArrayEnd <==> c == ']'
    ensures c == ']' ==> TokenBody(c, s) == (ArrayEnd, 0)
  {
    hide ScanString, CommentText, NumberCount, Keyword;
  }

  lemma RespacedSkip(p: Kind, s: string, t: string)
    requires Respaced(p, s, t)
    ensures Respaced(p, s[SpaceCount(s)..], t[SpaceCount(t)..])
  {
    hide NextToken, ReadToken;
    SkipOne(s);
    SkipOne(t);
  }

  lemma SkipOne(s: string)
    ensures var m := SpaceCount(s); var a, b := NextToken(s), NextToken(s[m..]);
            && a.kind == b.kind && s[a.start..a.end] == s[m..][b.start..b.end] && s[a.end..] == s[m..][b.end..]
            && ReadToken(s).kind == ReadToken(s[m..]).kind && (a.start == a.end <==> b.start == b.end)
  {
    hide NextToken, ReadToken, SpaceCount;
    var m := SpaceCount(s);
    NextBehindSpaces(s);
    ReadBehindSpaces(s);
    var b := NextToken(s[m..]);
    Slice(s, m, b.start, b.end);
    Drop(s, m, b.end);
  }

  lemma {:induction false} ElemsRespaced(
    p: Kind, s: string, t: string, depth: nat, elems: seq<Value>, reals: string -> bool) returns (k: Kind)
    requires Respaced(p, s, t)
    ensures Alike(k, s, StrictElems(s, depth, elems, reals), t, StrictElems(t, depth, elems, reals))
    decreases |s|, 2
  {
    hide NextToken, ReadToken, StrictValue, StrictNext, Respaced;
    k := ValueRespaced(p, s, t, depth, reals);
    var e, f := StrictValue(s, depth, reals), StrictValue(t, depth, reals);
    if e.Accepted? {
      var here := elems + [e.value];
      k := NextRespaced(k, s[e.count..], t[f.count..], depth, here, reals);
      AlikeOnward(k, s, e.count, StrictNext(s[e.count..], depth, here, reals),
                  t, f.count, StrictNext(t[f.count..], depth, here, reals));
    }
  }

  lemma {:induction false} NextRespaced(
    p: Kind, s: string, t: string, depth: nat, elems: seq<Value>, reals: string -> bool) returns (k: Kind)
    requires Respaced(p, s, t)
    ensures Alike(k, s, StrictNext(s, depth, elems, reals), t, StrictNext(t, depth, elems, reals))
    decreases |s|, 3
  {
    hide NextToken, ReadToken, StrictElems;
    var a, b := NextToken(s), NextToken(t);
    k := a.kind;
    if a.kind == ArraySeparator {
      k := ElemsRespaced(ArraySeparator, s[a.end..], t[b.end..], depth, elems, reals);
      AlikeOnward(k, s, a.end, StrictElems(s[a.end..], depth, elems, reals),
                  t, b.end, StrictElems(t[b.end..], depth, elems, reals));
    }
  }

  lemma {:induction false} MembersRespaced(
    p: Kind, s: string, t: string, depth: nat, members: seq<Member>, first: bool, reals: string -> bool)
    returns (k: Kind)
    requires Respaced(p, s, t)
    ensures Alike(k, s, StrictMembers(s, depth, members, first, reals),
                  t, StrictMembers(t, depth, members, first, reals))
    decreases |s|, 2
  {
    hide NextToken, ReadToken, StrictValue, StrictBehind, Decode, Put, KeyOf, Alike;
    var a := NextToken(s);
    k := a.kind;
    if a.kind == ObjectEnd && first {
      BothClose(p, s, t, Object(members));
    } else if a.kind == StringText && ReadToken(s[a.end..]).kind == MemberSeparator {
      var m, n := NameRespaced(p, s, t);
      var name := Decode(s[a.start + 1..a.end - 1]);
      if name.Some? {
        k := MemberRespaced(s, m, t, n, depth, members, KeyOf(name.value), reals);
      } else {
        BothRejected(k, s, t);
      }
    } else {
      BothRejected(k, s, t);
    }
  }

  lemma BothRejected(k: Kind, s: string, t: string)
    ensures forall u | Within(u, t) :: Alike(k, s, Rejected, t, u)
  {
  }

  lemma BothClose(p: Kind, s: string, t: string, value: Value)
    requires Respaced(p, s, t)
    requires NextToken(s).kind == ObjectEnd || NextToken(s).kind == ArrayEnd
    ensures var a, b := NextToken(s), NextToken(t);
            b.kind == a.kind && Alike(a.kind, s, Accepted(a.end, value), t, Accepted(b.end, value))
  {
    hide NextToken, ReadToken;
  }

  // The strict reader behind a name and its colon, which end at m.
  ghost function StrictMember(
    s: string, m: nat, depth: nat, members: seq<Member>, key: string, reals: string -> bool): (r: Strict)
    requires m <= |s|
    ensures Within(r, s)
  {
    var v := StrictValue(s[m..], depth, reals);
    if !v.Accepted? then v
    else
      var here := Put(members, key, v.value);
      Onward(StrictBehind(s[m + v.count..], depth, here, reals), m + v.count)
  }

  lemma {:induction false} MemberRespaced(
    s: string, m: nat, t: string, n: nat, depth: nat, members: seq<Member>, key: string, reals: string -> bool)
    returns (k: Kind)
    requires 0 < m <= |s| && n <= |t| && Respaced(MemberSeparator, s[m..], t[n..])
    ensures Alike(k, s, StrictMember(s, m, depth, members, key, reals),
                  t, StrictMember(t, n, depth, members, key, reals))
    decreases |s|, 1
  {
    hide StrictValue, StrictBehind, Put, Respaced;
    k := ValueRespaced(MemberSeparator, s[m..], t[n..], depth, reals);
    var v, w := StrictValue(s[m..], depth, reals), StrictValue(t[n..], depth, reals);
    if v.Accepted? {
      var here := Put(members, key, v.value);
      Drop(s, m, v.count);
      Drop(t, n, w.count);
      k := BehindRespaced(k, s[m + v.count..], t[n + w.count..], depth, here, reals);
      AlikeOnward(k, s, m + v.count, StrictBehind(s[m + v.count..], depth, here, reals),
                  t, n + w.count, StrictBehind(t[n + w.count..], depth, here, reals));
    }
  }

  lemma {:induction false} BehindRespaced(
    p: Kind, s: string, t: string, depth: nat, members: seq<Member>, reals: string -> bool) returns (k: Kind)
    requires Respaced(p, s, t)
    ensures Alike(k, s, StrictBehind(s, depth, members, reals), t, StrictBehind(t, depth, members, reals))
    decreases |s|, 3
  {
    hide NextToken, ReadToken, StrictMembers;
    var a, b := NextToken(s), NextToken(t);
    k := a.kind;
    if a.kind == ArraySeparator {
      k := MembersRespaced(ArraySeparator, s[a.end..], t[b.end..], depth, members, false, reals);
      AlikeOnward(k, s, a.end, StrictMembers(s[a.end..], depth, members, false, reals),
                  t, b.end, StrictMembers(t[b.end..], depth, members, false, reals));
    }
  }

  // A name and its colon stand in front of both texts.
  lemma NameRespaced(p: Kind, s: string, t: string) returns (m: nat, n: nat)
    requires Respaced(p, s, t) && NextToken(s).kind == StringText
    requires ReadToken(s[NextToken(s).end..]).kind == MemberSeparator
    ensures var a, b := NextToken(s), NextToken(t);
            && b.kind == StringText && s[a.start + 1..a.end - 1] == t[b.start + 1..b.end - 1]
            && ReadToken(t[b.end..]).kind == MemberSeparator
            && m == a.end + ReadToken(s[a.end..]).end && n == b.end + ReadToken(t[b.end..]).end
            && Respaced(MemberSeparator, s[m..], t[n..])
  {
    hide NextToken, ReadToken;
    var a, b := NextToken(s), NextToken(t);
    var x, y := s[a.end..], t[b.end..];
    NotComment(x);
    assert Respaced(StringText, x, y);
    NotComment(y);
    m, n := a.end + ReadToken(x).end, b.end + ReadToken(y).end;
    Drop(s, a.end, ReadToken(x).end);
    Drop(t, b.end, ReadToken(y).end);
    Peeled(s, a.start, a.end);
    Peeled(t, b.start, b.end);
  }

  // ---- The round trip of a text that was laid out otherwise ----

  /** Whatever white space and comments stand between the tokens of a written tree, where the reader takes them, and
      in whatever order its members were written, the text gives the tree that it says when it is nested at most
      1000 deep, and throws when it is nested more deeply. */
  lemma SpacingReadsBack(v: Value, t: string, root: Value, reals: string -> bool)
    requires Printable(v) && Respaced(EndOfStream, Text(v), t)
    ensures var o := Parse(t, root, reals);
            if Depth(v) <= 1000 then Ok(o) && Says(v, o.value) && o.errors == [] else o == Thrown
  {
    hide StrictValue, ReadValue, Text, Respaced, Says, Gathered;
    GatheredSays(v);
    assert Text(v) + "" == Text(v);
    ReadsBack(v, "", 0, reals);
    var k := ValueRespaced(EndOfStream, Text(v), t, 0, reals);
    ValueAgrees(t, 0, root, reals);
  }

  // ---- Gaps ----

  // White space and complete comments.
  predicate IsGap(g: string)
    decreases |g|
  {
    || g == ""
    || (IsSpace(g[0]) && IsGap(g[1..]))
    || (var c := ReadToken(g);
        c.kind == Comment && c.start == 0 && (g[1] == '*' || g[c.end - 1] == '\n') && IsGap(g[c.end..]))
  }

  lemma {:induction false} CStyleKept(g: string, s: string)
    requires CStyleComment(g).ok
    ensures CStyleComment(g + s) == CStyleComment(g)
  {
    assert (g + s)[1..] == g[1..] + s;
    if !(g[0] == '*' && |g| > 1 && g[1] == '/') {
      CStyleKept(g[1..], s);
      assert |g| > 1;
    }
  }

  lemma {:induction false} CppStyleKept(g: string, s: string)
    requires 0 < CppStyleCount(g) && g[CppStyleCount(g) - 1] == '\n'
    ensures CppStyleCount(g + s) == CppStyleCount(g)
  {
    assert (g + s)[1..] == g[1..] + s;
    if g[0] != '\n' && g[0] != '\r' {
      CppStyleKept(g[1..], s);
    }
  }

  lemma CommentKept(g: string, s: string)
    requires ReadToken(g).kind == Comment && ReadToken(g).start == 0
    requires g[1] == '*' || g[ReadToken(g).end - 1] == '\n'
    ensures ReadToken(g + s) == ReadToken(g)
  {
    hide CStyleComment, CppStyleCount, ScanString, NumberCount, Keyword;
    assert SpaceCount(g) == 0 && SpaceCount(g + s) == 0;
    OnlySlash(g[0], g[1..]);
    assert (g + s)[1..] == g[1..] + s && (g[1..] + s)[1..] == g[2..] + s && g[1..][1..] == g[2..];
    if g[1] == '*' {
      CStyleKept(g[2..], s);
    } else {
      CppStyleKept(g[2..], s);
    }
  }

  lemma OnlySlash(c: char, s: string)
    ensures TokenBody(c, s).0 == Comment ==> c == '/' && CommentText(s).ok && TokenBody(c, s).1 == CommentText(s).count
  {
    hide ScanString, NumberCount, Keyword, CommentText;
  }

  /** The reader steps over a gap to the token behind it. */
  lemma {:induction false} GapSkipped(g: string, s: string)
    requires IsGap(g)
    ensures NextToken(g + s) == Moved(NextToken(s), |g|)
    decreases |g|
  {
    hide ReadToken;
    if g == "" {
      assert g + s == s;
    } else if IsSpace(g[0]) && IsGap(g[1..]) {
      assert (g + s)[1..] == g[1..] + s;
      OneSpace(g + s);
      GapSkipped(g[1..], s);
    } else {
      var c := ReadToken(g);
      CommentKept(g, s);
      assert (g + s)[c.end..] == g[c.end..] + s;
      GapSkipped(g[c.end..], s);
    }
  }

  lemma OneSpace(s: string)
    requires s != "" && IsSpace(s[0])
    ensures NextToken(s) == Moved(NextToken(s[1..]), 1) && ReadToken(s) == Moved(ReadToken(s[1..]), 1)
  {
    hide ReadToken;
    ReadOneSpace(s);
    var t := ReadToken(s);
    if t.kind == Comment {
      Drop(s, 1, t.end - 1);
    }
  }

  lemma ReadOneSpace(s: string)
    requires s != "" && IsSpace(s[0])
    ensures ReadToken(s) == Moved(ReadToken(s[1..]), 1)
  {
    hide TokenBody;
    var p := SpaceCount(s[1..]);
    assert SpaceCount(s) == 1 + p && s[1..][p..] == s[1 + p..];
    if 1 + p < |s| {
      assert s[1..][p] == s[1 + p] && s[1..][p + 1..] == s[p + 2..];
    }
  }

  /** A gap may be put in front of any token, and in a bare place if it is white space. */
  lemma GapAllowed(p: Kind, s: string, g: string, t: string)
    requires Respaced(p, s, t) && IsGap(g)
    requires Bare(p, NextToken(s).kind) ==> forall c <- g :: IsSpace(c)
    ensures Respaced(p, s, g + t)
  {
    hide NextToken, ReadToken;
    GapSkipped(g, t);
    var b := NextToken(t);
    BehindGap(g, t, b.start, b.end);
    if forall c <- g :: IsSpace(c) {
      SpacesKept(g, t);
    }
  }

  lemma BehindGap(g: string, t: string, i: nat, j: nat)
    requires i <= j <= |t|
    ensures (g + t)[|g| + i..|g| + j] == t[i..j] && (g + t)[|g| + j..] == t[j..]
  {
  }

  lemma {:induction false} SpacesKept(g: string, t: string)
    requires forall c <- g :: IsSpace(c)
    ensures ReadToken(g + t).kind == ReadToken(t).kind
  {
    hide ReadToken;
    if g == "" {
      assert g + t == t;
    } else {
      assert (g + t)[1..] == g[1..] + t;
      OneSpace(g + t);
      SpacesKept(g[1..], t);
    }
  }
}
