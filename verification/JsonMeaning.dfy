/** What the reader makes of a written tree, said without the reader: which number has which tag, and which of the
    members written under one name counts. */
module JsonMeaning {
  import opened Wrappers
  import opened JsonNumber
  import opened JsonString
  import opened JsonValue
  import opened JsonSyntax
  import opened JsonWriter
  import opened JsonStrict
  import opened JsonRoundTrip
  import opened JsonMembers

  // ---- Numbers ----

  // An int from -2^63 to 2^31 - 1, a uint from there to 2^64 - 1.
  function NumberValue(i: int): Value { if i < 0x8000_0000 then Int(i) else UInt(i) }

  /** Every 64-bit number is read back as itself, as an int below 2^31 and as a uint from there on. */
  lemma NumberComesBack(i: int, root: Value, reals: string -> bool)
    requires -0x8000_0000_0000_0000 <= i <= 0xffff_ffff_ffff_ffff
    ensures Parse(IntText(i), root, reals) == Done(true, |IntText(i)|, NumberValue(i), [])
  {
    hide StrictValue, ReadValue, IntText;
    assert IntText(i) + "" == IntText(i);
    NumberReadsBack(i, "", 0, reals);
    ValueAgrees(IntText(i), 0, root, reals);
  }

  /** Digits that stand for more than 64 bits hold are no integer, on either side of zero. */
  lemma LargerIsNoInteger(digits: string)
    requires digits != "" && AllDigits(digits)
    ensures DecodeNumber(digits)
         == if ValueOf(digits) <= 0xffff_ffff_ffff_ffff then Integer(ValueOf(digits)) else NotInteger
    ensures DecodeNumber("-" + digits)
         == if ValueOf(digits) <= 0x8000_0000_0000_0000 then Integer(0 - ValueOf(digits)) else NotInteger
  {
    assert digits[0] != '-';
    assert ("-" + digits)[1..] == digits;
  }

  // ---- Trees with their members in order ----

  /** The same tree, with the tags that numbers come back with. */
  ghost predicate SameTree(v: Value, w: Value)
    decreases v
  {
    match v
    case Int(i) => w == NumberValue(i)
    case UInt(u) => w == NumberValue(u)
    case Array(elems) =>
      && w.Array? && |w.elems| == |elems|
      && forall k | 0 <= k < |elems| :: SameTree(elems[k], w.elems[k])
    case Object(members) =>
      && w.Object? && |w.members| == |members|
      && forall k | 0 <= k < |members| ::
           members[k].key == w.members[k].key && SameTree(members[k].value, w.members[k].value)
    case _ => w == v
  }

  lemma {:induction false} NormalIsSame(v: Value)
    ensures SameTree(v, Normal(v))
    decreases v, 1
  {
    match v
    case Array(elems) =>
      forall k | 0 <= k < |elems|
        ensures SameTree(elems[k], NormalAll(elems)[k])
      {
        NormalAt(elems, k);
        NormalIsSame(elems[k]);
      }
    case Object(members) =>
      forall k | 0 <= k < |members|
        ensures SameTree(members[k].value, NormalMembers(members)[k].value)
      {
        NormalMemberAt(members, k);
        NormalIsSame(members[k].value);
      }
    case _ =>
  }

  /** There is no other tree that is the same. */
  lemma {:induction false} SameIsNormal(v: Value, w: Value)
    requires SameTree(v, w)
    ensures w == Normal(v)
    decreases v
  {
    match v
    case Array(elems) =>
      forall k | 0 <= k < |elems|
        ensures w.elems[k] == NormalAll(elems)[k]
      {
        NormalAt(elems, k);
        SameIsNormal(elems[k], w.elems[k]);
      }
      assert w.elems == NormalAll(elems);
    case Object(members) =>
      forall k | 0 <= k < |members|
        ensures w.members[k] == NormalMembers(members)[k]
      {
        NormalMemberAt(members, k);
        SameIsNormal(members[k].value, w.members[k].value);
      }
      assert w.members == NormalMembers(members);
    case _ =>
  }

  lemma {:induction false} NormalAt(vs: seq<Value>, k: nat)
    requires k < |vs|
    ensures NormalAll(vs)[k] == Normal(vs[k])
  {
    hide Normal;
    if k > 0 {
      NormalAt(vs[1..], k - 1);
    }
  }

  lemma {:induction false} NormalMemberAt(ms: seq<Member>, k: nat)
    requires k < |ms|
    ensures NormalMembers(ms)[k].value == Normal(ms[k].value)
  {
    hide Normal;
    if k > 0 {
      NormalMemberAt(ms[1..], k - 1);
    }
  }

  /** Parsing what the writer wrote gives the same tree when it is nested at most 1000 deep, and throws otherwise. */
  lemma TreeComesBack(v: Value, tail: string, root: Value, reals: string -> bool)
    requires Writable(v)
    ensures var o := Parse(Text(v) + "\n" + tail, root, reals);
            if Depth(v) <= 1000 then Ok(o) && SameTree(v, o.value) && o.errors == [] else o == Thrown
  {
    hide Parse, Text, Depth, Normal, SameTree;
    RoundTrip(v, tail, root, reals);
    NormalIsSame(v);
  }

  // ---- Trees with their members in any order ----

  /** The tree that a text says: an object has the names that were written, in order, and under each the last value
      written for it. */
  ghost predicate Says(v: Value, w: Value)
    decreases v
  {
    match v
    case Int(i) => w == NumberValue(i)
    case UInt(u) => w == NumberValue(u)
    case Array(elems) =>
      && w.Array? && |w.elems| == |elems|
      && forall k | 0 <= k < |elems| :: Says(elems[k], w.elems[k])
    case Object(ms) =>
      && w.Object? && Sorted(w.members)
      && (forall name :: Named(w.members, name) <==> Named(ms, name))
      && (forall i, k | 0 <= i < |ms| && 0 <= k < |w.members| && IsLast(ms, i) && w.members[k].key == ms[i].key ::
            Says(ms[i].value, w.members[k].value))
    case _ => w == v
  }

  // The members collected from ms: each of them is the last that was written under its name.
  ghost predicate Reflects(g: seq<Member>, ms: seq<Member>) {
    && Sorted(g)
    && (forall name :: Named(g, name) <==> Named(ms, name))
    && (forall i, m | 0 <= i < |ms| && m in g && IsLast(ms, i) && m.key == ms[i].key ::
          m.value == Gathered(ms[i].value))
  }

  lemma ReflectsNext(g: seq<Member>, ms: seq<Member>, x: Member)
    requires Reflects(g, ms)
    ensures Reflects(Put(g, x.key, Gathered(x.value)), ms + [x])
  {
    hide Gathered, Put, Sorted;
    var v := Gathered(x.value);
    var r, all := Put(g, x.key, v), ms + [x];
    PutLaw(g, x.key, v);
    forall name
      ensures Named(r, name) <==> Named(all, name)
    {
      NamesPut(g, x.key, v, name);
      NamedMore(ms, x, name);
    }
    forall i, m | 0 <= i < |all| && m in r && IsLast(all, i) && m.key == all[i].key
      ensures m.value == Gathered(all[i].value)
    {
      if i < |ms| {
        assert all[i] == ms[i] && all[|ms|] == x;
        assert forall j | i < j < |ms| :: all[j] == ms[j];
        assert IsLast(ms, i);
      }
    }
  }

  lemma NamedMore(ms: seq<Member>, x: Member, name: string)
    ensures Named(ms + [x], name) <==> Named(ms, name) || x.key == name
  {
    var all := ms + [x];
    assert all[|ms|] == x;
    if Named(ms, name) {
      var m :| m in ms && m.key == name;
      assert m in all;
    }
  }

  lemma {:induction false} CollectedReflects(g: seq<Member>, before: seq<Member>, ms: seq<Member>)
    requires Reflects(g, before)
    ensures Reflects(Collected(g, ms), before + ms)
    decreases |ms|
  {
    hide Reflects, Put, Gathered;
    if ms == [] {
      assert before + [] == before;
    } else {
      ReflectsNext(g, before, ms[0]);
      CollectedReflects(Put(g, ms[0].key, Gathered(ms[0].value)), before + [ms[0]], ms[1..]);
      assert before + [ms[0]] + ms[1..] == before + ms;
    }
  }

  lemma {:induction false} GatheredSays(v: Value)
    ensures Says(v, Gathered(v))
    decreases v, 1
  {
    match v
    case Array(elems) =>
      forall k | 0 <= k < |elems|
        ensures Says(elems[k], GatheredAll(elems)[k])
      {
        GatheredAt(elems, k);
        GatheredSays(elems[k]);
      }
    case Object(ms) =>
      var g := Collected([], ms);
      assert Reflects([], []);
      CollectedReflects([], [], ms);
      assert [] + ms == ms;
      forall i, k | 0 <= i < |ms| && 0 <= k < |g| && IsLast(ms, i) && g[k].key == ms[i].key
        ensures Says(ms[i].value, g[k].value)
      {
        assert g[k] in g;
        GatheredSays(ms[i].value);
      }
    case _ =>
  }

  lemma {:induction false} GatheredAt(vs: seq<Value>, k: nat)
    requires k < |vs|
    ensures GatheredAll(vs)[k] == Gathered(vs[k])
  {
    hide Gathered;
    if k > 0 {
      GatheredAt(vs[1..], k - 1);
    }
  }

  /** There is no other tree that the text says. */
  lemma {:induction false} SaysOne(v: Value, w: Value)
    requires Says(v, w)
    ensures w == Gathered(v)
    decreases v
  {
    match v
    case Array(elems) =>
      forall k | 0 <= k < |elems|
        ensures w.elems[k] == GatheredAll(elems)[k]
      {
        GatheredAt(elems, k);
        SaysOne(elems[k], w.elems[k]);
      }
      assert w.elems == GatheredAll(elems);
    case Object(ms) =>
      forall m | m in w.members
        ensures exists i | 0 <= i < |ms| :: IsLast(ms, i) && m.key == ms[i].key && m.value == Gathered(ms[i].value)
      {
        assert Named(w.members, m.key);
        var i := LastIndex(ms, m.key);
        var k :| 0 <= k < |w.members| && w.members[k] == m;
        SaysOne(ms[i].value, m.value);
      }
      OnlyCollected(ms, w.members);
    case _ =>
  }

  // Sorted members with the names of ms and the last values are those that were collected.
  lemma OnlyCollected(ms: seq<Member>, w: seq<Member>)
    requires Sorted(w) && forall name :: Named(w, name) <==> Named(ms, name)
    requires forall m <- w ::
               exists i | 0 <= i < |ms| :: IsLast(ms, i) && m.key == ms[i].key && m.value == Gathered(ms[i].value)
    ensures w == Collected([], ms)
  {
    hide Gathered;
    assert Reflects([], []);
    CollectedReflects([], [], ms);
    assert [] + ms == ms;
    LastOnes(Collected([], ms), ms, w);
    SortedUnique(w, Collected([], ms));
  }

  lemma {:induction false} LastIndex(ms: seq<Member>, name: string) returns (i: nat)
    requires Named(ms, name)
    ensures i < |ms| && IsLast(ms, i) && ms[i].key == name
    decreases |ms|
  {
    i := |ms| - 1;
    if ms[i].key != name {
      var before := ms[..i];
      var m :| m in ms && m.key == name;
      assert m in before;
      i := LastIndex(before, name);
      assert forall j | 0 <= j < |before| :: ms[j] == before[j];
    }
  }

  // Of two collections with the last values of ms, each holds what the other does.
  lemma LastOnes(g: seq<Member>, ms: seq<Member>, w: seq<Member>)
    requires Reflects(g, ms) && Sorted(w)
    requires forall name :: Named(w, name) <==> Named(ms, name)
    requires forall m <- w ::
               exists i | 0 <= i < |ms| :: IsLast(ms, i) && m.key == ms[i].key && m.value == Gathered(ms[i].value)
    ensures forall m :: m in w <==> m in g
  {
    hide Gathered, Sorted;
    forall m | m in w
      ensures m in g
    {
      assert Named(w, m.key);
      assert Named(g, m.key);
      var x :| x in g && x.key == m.key;
    }
    forall m | m in g
      ensures m in w
    {
      assert Named(g, m.key);
      assert Named(w, m.key);
      var x :| x in w && x.key == m.key;
    }
  }
}
