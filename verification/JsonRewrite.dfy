/** What is read from any text can be written, and is read again from that. */
module JsonRewrite {
  import opened Wrappers
  import opened JsonNumber
  import opened JsonString
  import opened JsonValue
  import opened JsonSyntax
  import opened JsonWriter
  import opened JsonMembers
  import opened JsonStrict
  import opened JsonRoundTrip

  // ---- What the reader makes, whatever the text ----

  /** A tree as the reader makes it: every object has its members in key order, and so at most one under each name,
      with keys of less than 2^30 characters, and every number has the one tag that it can have. */
  ghost predicate Canonical(v: Value) {
    match v
    case Int(i) => -0x8000_0000_0000_0000 <= i < 0x8000_0000
    case UInt(u) => 0x8000_0000 <= u <= 0xffff_ffff_ffff_ffff
    case Array(elems) => forall e <- elems :: Canonical(e)
    case Object(members) =>
      Sorted(members) && forall m <- members :: |m.key| < 0x4000_0000 && Canonical(m.value)
    case _ => true
  }

  // The tree is canonical, and nested at most to the limit at this depth.
  ghost predicate Made(v: Value, depth: nat) { Canonical(v) && depth + Depth(v) <= 1000 }

  ghost predicate ElemsMade(vs: seq<Value>, depth: nat) { forall e <- vs :: Made(e, depth) }

  ghost predicate MembersMade(ms: seq<Member>, depth: nat) {
    Sorted(ms) && forall m <- ms :: |m.key| < 0x4000_0000 && Made(m.value, depth)
  }

  ghost predicate OutcomeMade(r: Outcome, depth: nat) { r.Done? && r.ok ==> Made(r.value, depth) }

  lemma {:induction false} ElemsDepthBelow(vs: seq<Value>, n: nat)
    requires forall e <- vs :: Depth(e) <= n
    ensures ElemsDepth(vs) <= n
  {
    hide Depth;
    if vs != [] {
      ElemsDepthBelow(vs[1..], n);
    }
  }

  lemma {:induction false} MembersDepthBelow(ms: seq<Member>, n: nat)
    requires forall m <- ms :: Depth(m.value) <= n
    ensures MembersDepth(ms) <= n
  {
    hide Depth;
    if ms != [] {
      MembersDepthBelow(ms[1..], n);
    }
  }

  lemma ArrayOf(elems: seq<Value>, depth: nat)
    requires 0 < depth <= 1000 && ElemsMade(elems, depth)
    ensures Made(Array(elems), depth - 1)
  {
    ElemsDepthBelow(elems, 1000 - depth);
  }

  lemma ObjectOf(members: seq<Member>, depth: nat)
    requires 0 < depth <= 1000 && MembersMade(members, depth)
    ensures Made(Object(members), depth - 1)
  {
    MembersDepthBelow(members, 1000 - depth);
  }

  lemma PutMade(ms: seq<Member>, key: string, value: Value, depth: nat)
    requires MembersMade(ms, depth) && |key| < 0x4000_0000 && Made(value, depth)
    ensures MembersMade(Put(ms, key, value), depth)
  {
    hide Sorted, Put, Made;
    PutLaw(ms, key, value);
  }

  lemma NumberMade(text: string, n: nat, cur: Value, depth: nat, reals: string -> bool)
    requires text != "" && depth < 1000
    ensures OutcomeMade(NumberOutcome(text, n, cur, reals), depth)
  {
  }

  /** Whatever the text, a tree that is read without an error is canonical and not too deep. */
  lemma {:induction false} ReadMade(s: string, depth: nat, cur: Value, reals: string -> bool)
    ensures OutcomeMade(ReadValue(s, depth, cur, reals), depth)
    decreases |s|, 1
  {
    hide NextToken, ReadMembers, JsonSyntax.ReadArray, Decode, NumberOutcome;
    if depth < STACK_LIMIT {
      var t := NextToken(s);
      if t.kind == ObjectBegin {
        MembersReadMade(s[t.end..], depth + 1, [], "", reals);
      } else if t.kind == ArrayBegin {
        ArrayReadMade(s[t.end..], depth + 1, reals);
      } else if t.kind == NumberText {
        NumberMade(s[t.start..t.end], t.end, cur, depth, reals);
      }
    }
  }

  lemma {:induction false} ArrayReadMade(s: string, depth: nat, reals: string -> bool)
    requires 0 < depth <= 1000
    ensures OutcomeMade(JsonSyntax.ReadArray(s, depth, reals), depth - 1)
    decreases |s|, 3
  {
    hide ReadElems, Made;
    ArrayOf([], depth);
    ElemsReadMade(s[SpaceCount(s)..], depth, [], reals);
  }

  lemma {:induction false} ElemsReadMade(s: string, depth: nat, elems: seq<Value>, reals: string -> bool)
    requires 0 < depth <= 1000 && ElemsMade(elems, depth)
    ensures OutcomeMade(ReadElems(s, depth, elems, reals), depth - 1)
    decreases |s|, 2
  {
    hide ReadValue, Made, NextToken, RecoverCount;
    var e := ReadValue(s, depth, Null, reals);
    ReadMade(s, depth, Null, reals);
    if e.Done? && e.ok {
      var here := elems + [e.value];
      ArrayOf(here, depth);
      ElemsReadMade(s[e.count + NextToken(s[e.count..]).end..], depth, here, reals);
    }
  }

  lemma {:induction false} MembersReadMade(
    s: string, depth: nat, members: seq<Member>, last: string, reals: string -> bool)
    requires 0 < depth <= 1000 && MembersMade(members, depth)
    ensures OutcomeMade(ReadMembers(s, depth, members, last, reals), depth - 1)
    decreases |s|, 2
  {
    hide ReadValue, Made, MembersMade, NextToken, ReadToken, RecoverCount, AfterMember, Put, Decode, Lookup;
    ObjectOf(members, depth);
    var t := NextToken(s);
    if t.kind == StringText {
      var name := Decode(s[t.start + 1..t.end - 1]);
      var n := t.end + ReadToken(s[t.end..]).end;
      if name.Some? {
        var key := KeyOf(name.value);
        var v := ReadValue(s[n..], depth, Lookup(members, key), reals);
        ReadMade(s[n..], depth, Lookup(members, key), reals);
        if v.Done? && v.ok {
          PutMade(members, key, v.value, depth);
          AfterReadMade(s[n + v.count..], depth, Put(members, key, v.value), name.value, reals);
        }
      }
    }
  }

  lemma {:induction false} AfterReadMade(
    s: string, depth: nat, members: seq<Member>, name: string, reals: string -> bool)
    requires 0 < depth <= 1000 && MembersMade(members, depth)
    ensures OutcomeMade(AfterMember(s, depth, members, name, reals), depth - 1)
    decreases |s|, 3
  {
    hide MembersMade, ReadMembers, Made, ReadToken, RecoverCount;
    ObjectOf(members, depth);
    MembersReadMade(s[NextToken(s).end..], depth, members, name, reals);
  }

  // ---- Writing it again ----

  // No real, and no string or array longer than a value can hold.
  ghost predicate Fits(v: Value) {
    match v
    case Real(_) => false
    case Str(s) => |s| <= 0x7fff_fffa
    case Array(elems) => |elems| < 0x8000_0000 && forall e <- elems :: Fits(e)
    case Object(members) => forall m <- members :: Fits(m.value)
    case _ => true
  }

  lemma {:induction false} CanonicalIsWritable(v: Value)
    requires Canonical(v) && Fits(v)
    ensures Writable(v) && Normal(v) == v
    decreases v, 1
  {
    match v
    case Array(elems) => ElemsWritable(elems);
    case Object(members) => MembersWritableToo(members);
    case _ =>
  }

  lemma {:induction false} ElemsWritable(vs: seq<Value>)
    requires forall e <- vs :: Canonical(e) && Fits(e)
    ensures AllWritable(vs) && NormalAll(vs) == vs
    decreases vs, 0
  {
    hide Canonical, Fits, Writable, Normal;
    if vs != [] {
      CanonicalIsWritable(vs[0]);
      ElemsWritable(vs[1..]);
      assert vs == [vs[0]] + vs[1..];
    }
  }

  lemma {:induction false} MembersWritableToo(ms: seq<Member>)
    requires forall m <- ms :: Canonical(m.value) && Fits(m.value)
    ensures (forall m <- ms :: Writable(m.value)) && NormalMembers(ms) == ms
    decreases ms, 0
  {
    hide Canonical, Fits, Writable, Normal;
    if ms != [] {
      CanonicalIsWritable(ms[0].value);
      MembersWritableToo(ms[1..]);
      assert ms == [ms[0]] + ms[1..];
    }
  }

  /** What was read from any text, with no real in it and nothing too long, is written as a text that gives the very
      same tree. */
  lemma ReadWriteRead(s: string, root: Value, tail: string, other: Value, reals: string -> bool)
    ensures var o := Parse(s, root, reals);
            Ok(o) && Fits(o.value) ==>
              Writable(o.value)
              && Parse(Text(o.value) + "\n" + tail, other, reals) == Done(true, |Text(o.value)|, o.value, [])
  {
    hide ReadValue, Text, Canonical, Fits, Writable, Normal, Depth;
    var o := Parse(s, root, reals);
    ReadMade(s, 0, root, reals);
    if Ok(o) && Fits(o.value) {
      CanonicalIsWritable(o.value);
      RoundTrip(o.value, tail, other, reals);
    }
  }
}
