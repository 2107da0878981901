/** Setting members of an object, in any order and under one name more than once. */
module JsonMembers {
  import opened JsonKeys
  import opened JsonValue
  import opened JsonSyntax
  import opened JsonWriter

  ghost predicate Named(ms: seq<Member>, name: string) { exists m <- ms :: m.key == name }

  // No later member has the name of this one.
  ghost predicate IsLast(ms: seq<Member>, i: nat)
    requires i < |ms|
  {
    forall j | i < j < |ms| :: ms[j].key != ms[i].key
  }

  ghost predicate AllBehind(key: string, ms: seq<Member>) { forall m <- ms :: KeyLess(key, m.key) }

  lemma SortedRest(ms: seq<Member>)
    requires ms != [] && Sorted(ms)
    ensures Sorted(ms[1..]) && AllBehind(ms[0].key, ms[1..])
  {
    hide KeyLess;
    var rest := ms[1..];
    forall i, j | 0 <= i < j < |rest|
      ensures KeyLess(rest[i].key, rest[j].key)
    {
      assert rest[i] == ms[i + 1] && rest[j] == ms[j + 1];
    }
    forall m | m in rest
      ensures KeyLess(ms[0].key, m.key)
    {
      var j :| 0 <= j < |rest| && rest[j] == m;
      assert ms[j + 1] == m;
    }
  }

  lemma SortedFirst(m: Member, ms: seq<Member>)
    requires Sorted(ms) && AllBehind(m.key, ms)
    ensures Sorted([m] + ms)
  {
    hide KeyLess;
    var all := [m] + ms;
    forall i, j | 0 <= i < j < |all|
      ensures KeyLess(all[i].key, all[j].key)
    {
      assert all[j] == ms[j - 1] && all[j] in ms;
      if i > 0 {
        assert all[i] == ms[i - 1];
      }
    }
  }

  lemma BehindAll(key: string, first: string, ms: seq<Member>)
    requires KeyLess(key, first) && AllBehind(first, ms)
    ensures AllBehind(key, ms)
  {
    forall m | m in ms
      ensures KeyLess(key, m.key)
    {
      KeyTransitive(key, first, m.key);
    }
  }

  /** Setting a member keeps the order, replaces what had the name, and leaves all the others as they were. */
  lemma {:induction false} PutLaw(ms: seq<Member>, key: string, value: Value)
    requires Sorted(ms)
    ensures Sorted(Put(ms, key, value))
    ensures forall m :: m in Put(ms, key, value) <==> m == Member(key, value) || (m in ms && m.key != key)
  {
    hide KeyLess, AllBehind;
    var r := Put(ms, key, value);
    if ms == [] {
      NoneBehind(key);
      SortedFirst(Member(key, value), []);
    } else {
      var first, rest := ms[0], ms[1..];
      SortedRest(ms);
      assert ms == [first] + rest;
      OtherNames(first.key, rest);
      if first.key == key {
        SortedFirst(Member(key, value), rest);
      } else if KeyLess(key, first.key) {
        BehindAll(key, first.key, rest);
        BehindOne(key, first, rest);
        SortedFirst(Member(key, value), ms);
        OtherNames(key, ms);
      } else {
        KeyTrichotomy(key, first.key);
        PutLaw(rest, key, value);
        StillBehind(first.key, rest, Put(rest, key, value), Member(key, value));
        SortedFirst(first, Put(rest, key, value));
      }
    }
  }

  lemma NoneBehind(key: string)
    ensures AllBehind(key, [])
  {
  }

  lemma BehindOne(key: string, first: Member, rest: seq<Member>)
    requires KeyLess(key, first.key) && AllBehind(key, rest)
    ensures AllBehind(key, [first] + rest)
  {
  }

  lemma OtherNames(key: string, ms: seq<Member>)
    requires AllBehind(key, ms)
    ensures forall m <- ms :: m.key != key
  {
    forall m | m in ms
      ensures m.key != key
    {
      KeyTrichotomy(key, m.key);
    }
  }

  lemma StillBehind(key: string, ms: seq<Member>, r: seq<Member>, x: Member)
    requires AllBehind(key, ms) && KeyLess(key, x.key)
    requires forall m :: m in r ==> m == x || m in ms
    ensures AllBehind(key, r)
  {
  }

  /** Looking a name up after a member was set: the new value under its name, and under any other what was there. */
  lemma {:induction false} LookupPut(ms: seq<Member>, key: string, value: Value, name: string)
    requires Sorted(ms)
    ensures Lookup(Put(ms, key, value), name) == if name == key then value else Lookup(ms, name)
  {
    hide KeyLess;
    if ms != [] {
      SortedRest(ms);
      LookupPut(ms[1..], key, value, name);
    }
  }

  /** The names after a member was set are the old ones and the new one. */
  lemma NamesPut(ms: seq<Member>, key: string, value: Value, name: string)
    requires Sorted(ms)
    ensures Named(Put(ms, key, value), name) <==> name == key || Named(ms, name)
  {
    hide KeyLess, Sorted, Put;
    PutLaw(ms, key, value);
    var r := Put(ms, key, value);
    if name == key {
      assert Member(key, value) in r;
    } else if Named(ms, name) {
      var m :| m in ms && m.key == name;
      assert m in r;
    }
  }

  // ---- An order leaves no choice ----

  /** There is one way only to put members in order. */
  lemma {:induction false} SortedUnique(a: seq<Member>, b: seq<Member>)
    requires Sorted(a) && Sorted(b) && forall m :: m in a <==> m in b
    ensures a == b
    decreases |a|
  {
    hide KeyLess, Sorted, AllBehind;
    if a == [] {
      if b != [] {
        SomeIn(b);
        assert false;
      }
    } else {
      assert a[0] in a;
      var x, y := a[1..], b[1..];
      SortedRest(a);
      SortedRest(b);
      SameFirst(a, b);
      OtherNames(a[0].key, x);
      OtherNames(b[0].key, y);
      assert a == [a[0]] + x && b == [b[0]] + y;
      forall m
        ensures m in x <==> m in y
      {
        assert m in a <==> m in b;
      }
      SortedUnique(x, y);
    }
  }

  lemma SomeIn(ms: seq<Member>)
    requires ms != []
    ensures exists m :: m in ms
  {
    assert ms[0] in ms;
  }

  lemma SameFirst(a: seq<Member>, b: seq<Member>)
    requires a != [] && b != [] && AllBehind(a[0].key, a[1..]) && AllBehind(b[0].key, b[1..])
    requires forall m :: m in a <==> m in b
    ensures a[0] == b[0]
  {
    assert a == [a[0]] + a[1..] && b == [b[0]] + b[1..];
    assert a[0] in a && b[0] in b;
    if a[0] != b[0] {
      assert a[0] in b[1..] && b[0] in a[1..];
      KeyTrichotomy(a[0].key, b[0].key);
      assert false;
    }
  }
}
