/** The recursive order on values, holding arrays and objects alike as maps from keys to values. */
module JsonOrder {
  import opened Slices
  import opened JsonKeys

  // CZString: an index, or a name.
  datatype Key = Index(i: nat) | Name(s: string)

  datatype Entry = Entry(key: Key, value: Tree)

  // The entries of a map in the order of its keys; an array may have holes. Reals are left out.
  datatype Tree =
    | Null
    | Int(i: int)
    | UInt(u: nat)
    | Str(s: string)
    | Bool(b: bool)
    | Array(entries: seq<Entry>)
    | Object(entries: seq<Entry>)

  // Containers of fewer than 2^31 entries, arrays on indices and objects on names.
  predicate Comparable(t: Tree) {
    match t
    case Array(entries) =>
      && |entries| < 0x8000_0000
      && (forall e <- entries :: e.key.Index?)
      && (forall e <- entries :: Comparable(e.value))
    case Object(entries) =>
      && |entries| < 0x8000_0000
      && (forall e <- entries :: e.key.Name?)
      && (forall e <- entries :: Comparable(e.value))
    case _ => true
  }

  // Entries that can stand in one map, or in two maps of the same kind.
  predicate Alike(s: seq<Entry>, indexed: bool) {
    (forall e <- s :: e.key.Index? == indexed) && forall e <- s :: Comparable(e.value)
  }

  // ---- Keys ----

  // CZString's operator<; only keys of one kind are ever compared.
  function Before(a: Key, b: Key): bool
    requires a.Index? == b.Index?
  {
    if a.Index? then a.i < b.i else CZStringLess(a.s, b.s)
  }

  function SameKey(a: Key, b: Key): bool
    requires a.Index? == b.Index?
  {
    if a.Index? then a.i == b.i else |a.s| == |b.s| && Memcmp(a.s, b.s, |a.s|) == 0
  }

  lemma SameText(s: string, t: string)
    requires |s| == |t|
    ensures Memcmp(s, t, |s|) == 0 <==> s == t
  {
    MemcmpZero(s, t, |s|);
    assert s[..|s|] == s && t[..|s|] == t;
  }

  lemma SameKeyIsEqual(a: Key, b: Key)
    requires a.Index? == b.Index?
    ensures SameKey(a, b) <==> a == b
  {
    if a.Name? && |a.s| == |b.s| {
      SameText(a.s, b.s);
    }
  }

  // Exactly one of three.
  predicate One(x: bool, y: bool, z: bool) { (x && !y && !z) || (!x && y && !z) || (!x && !y && z) }

  lemma BeforeTrichotomy(a: Key, b: Key)
    requires a.Index? == b.Index?
    ensures One(Before(a, b), Before(b, a), a == b)
  {
    if a.Name? {
      CZStringTrichotomy(a.s, b.s);
      CZStringTrichotomy(b.s, a.s);
    }
  }

  lemma BeforeTransitive(a: Key, b: Key, c: Key)
    requires a.Index? == b.Index? == c.Index? && Before(a, b) && Before(b, c)
    ensures Before(a, c)
  {
    if a.Name? {
      CZStringTransitive(a.s, b.s, c.s);
    }
  }

  // ---- Value::operator< and operator== ----

  function TypeRank(t: Tree): nat {
    match t
    case Null => 0
    case Int(_) => 1
    case UInt(_) => 2
    case Str(_) => 4
    case Bool(_) => 5
    case Array(_) => 6
    case Object(_) => 7
  }

  // A measure for recursion that compares both ways round.
  function Weight(t: Tree): nat
    decreases t
  {
    match t
    case Array(entries) => 1 + EntriesWeight(entries)
    case Object(entries) => 1 + EntriesWeight(entries)
    case _ => 1
  }

  function EntryWeight(e: Entry): nat
    decreases e
  {
    Weight(e.value)
  }

  function EntriesWeight(s: seq<Entry>): nat
    decreases s
  {
    if s == [] then 0 else 1 + EntryWeight(s[0]) + EntriesWeight(s[1..])
  }

  // The difference of two sizes, as a 32-bit int.
  function SizeDelta(a: nat, b: nat): int { (a - b + 0x8000_0000) % 0x1_0000_0000 - 0x8000_0000 }

  function Less(a: Tree, b: Tree): bool
    requires Comparable(a) && Comparable(b)
    decreases Weight(a) + Weight(b)
  {
    if TypeRank(a) != TypeRank(b) then TypeRank(a) < TypeRank(b)
    else
      match a
      case Null => false
      case Int(i) => i < b.i
      case UInt(u) => u < b.u
      case Str(s) => CZStringLess(s, b.s)
      case Bool(x) => !x && b.b
      case _ =>
        var delta := SizeDelta(|a.entries|, |b.entries|);
        if delta != 0 then delta < 0 else EntriesLess(a.entries, b.entries, a.Array?)
  }

  // std::pair's order on an entry.
  function EntryLess(m: Entry, n: Entry): bool
    requires m.key.Index? == n.key.Index? && Comparable(m.value) && Comparable(n.value)
    decreases 1 + EntryWeight(m) + EntryWeight(n)
  {
    Before(m.key, n.key) || (!Before(n.key, m.key) && Less(m.value, n.value))
  }

  // std::lexicographical_compare on two maps.
  function EntriesLess(a: seq<Entry>, b: seq<Entry>, indexed: bool): bool
    requires Alike(a, indexed) && Alike(b, indexed)
    decreases EntriesWeight(a) + EntriesWeight(b)
  {
    if b == [] then false
    else if a == [] then true
    else if EntryLess(a[0], b[0]) then true
    else if EntryLess(b[0], a[0]) then false
    else EntriesLess(a[1..], b[1..], indexed)
  }

  // memcmp on strings of equal length, and the maps entry by entry.
  function Equal(a: Tree, b: Tree): bool
    requires Comparable(a) && Comparable(b)
    decreases a
  {
    TypeRank(a) == TypeRank(b) &&
    match a
    case Null => true
    case Int(i) => i == b.i
    case UInt(u) => u == b.u
    case Str(s) => |s| == |b.s| && Memcmp(s, b.s, |s|) == 0
    case Bool(x) => x == b.b
    case _ =>
      |a.entries| == |b.entries| && forall k | 0 <= k < |a.entries| ::
        SameKey(a.entries[k].key, b.entries[k].key) && Equal(a.entries[k].value, b.entries[k].value)
  }

  /** operator== holds of a value and itself only. */
  lemma {:induction false} EqualIsIdentity(a: Tree, b: Tree)
    requires Comparable(a) && Comparable(b)
    ensures Equal(a, b) <==> a == b
    decreases a
  {
    hide SameKey;
    if a.Str? && b.Str? && |a.s| == |b.s| {
      SameText(a.s, b.s);
    } else if (a.Array? && b.Array?) || (a.Object? && b.Object?) {
      var s, t := a.entries, b.entries;
      if |s| == |t| {
        forall k | 0 <= k < |s|
          ensures SameKey(s[k].key, t[k].key) && Equal(s[k].value, t[k].value) <==> s[k] == t[k]
        {
          SameKeyIsEqual(s[k].key, t[k].key);
          EqualIsIdentity(s[k].value, t[k].value);
        }
        assert s == t <==> forall k | 0 <= k < |s| :: s[k] == t[k];
      }
    }
  }

  /** Of a < b, b < a and a == b exactly one holds. */
  lemma {:induction false} Trichotomy(a: Tree, b: Tree)
    requires Comparable(a) && Comparable(b)
    ensures One(Less(a, b), Less(b, a), Equal(a, b))
    decreases Weight(a) + Weight(b)
  {
    hide CZStringLess, Equal, EntriesLess, Comparable;
    EqualIsIdentity(a, b);
    if a.Str? && b.Str? {
      CZStringTrichotomy(a.s, b.s);
      CZStringTrichotomy(b.s, a.s);
    } else if (a.Array? && b.Array?) || (a.Object? && b.Object?) {
      EntriesAlike(a);
      EntriesAlike(b);
      if |a.entries| == |b.entries| {
        EntriesTrichotomy(a.entries, b.entries, a.Array?);
      }
    }
  }

  lemma EntriesAlike(t: Tree)
    requires Comparable(t) && (t.Array? || t.Object?)
    ensures Alike(t.entries, t.Array?) && |t.entries| < 0x8000_0000
  {
  }

  lemma {:induction false} EntriesTrichotomy(a: seq<Entry>, b: seq<Entry>, indexed: bool)
    requires Alike(a, indexed) && Alike(b, indexed) && |a| == |b|
    ensures One(EntriesLess(a, b, indexed), EntriesLess(b, a, indexed), a == b)
    decreases EntriesWeight(a) + EntriesWeight(b)
  {
    hide Less, EntryLess, Comparable;
    if a != [] {
      EntryTrichotomy(a[0], b[0]);
      EntriesTrichotomy(a[1..], b[1..], indexed);
      assert a == [a[0]] + a[1..] && b == [b[0]] + b[1..];
    }
  }

  lemma {:induction false} EntryTrichotomy(m: Entry, n: Entry)
    requires m.key.Index? == n.key.Index? && Comparable(m.value) && Comparable(n.value)
    ensures One(EntryLess(m, n), EntryLess(n, m), m == n)
    decreases 1 + EntryWeight(m) + EntryWeight(n)
  {
    hide Less, Equal, Before, Comparable;
    BeforeTrichotomy(m.key, n.key);
    Trichotomy(m.value, n.value);
    EqualIsIdentity(m.value, n.value);
  }

  /** operator< is transitive. */
  lemma {:induction false} Transitive(a: Tree, b: Tree, c: Tree)
    requires Comparable(a) && Comparable(b) && Comparable(c)
    requires Less(a, b) && Less(b, c)
    ensures Less(a, c)
    decreases Weight(a) + Weight(b) + Weight(c)
  {
    hide CZStringLess, EntriesLess, Comparable;
    if a.Str? && b.Str? && c.Str? {
      CZStringTransitive(a.s, b.s, c.s);
    } else if (a.Array? && b.Array? && c.Array?) || (a.Object? && b.Object? && c.Object?) {
      EntriesAlike(a);
      EntriesAlike(b);
      EntriesAlike(c);
      if |a.entries| == |b.entries| == |c.entries| {
        EntriesTransitive(a.entries, b.entries, c.entries, a.Array?);
      }
    }
  }

  lemma {:induction false} EntriesTransitive(a: seq<Entry>, b: seq<Entry>, c: seq<Entry>, indexed: bool)
    requires Alike(a, indexed) && Alike(b, indexed) && Alike(c, indexed) && |a| == |b| == |c|
    requires EntriesLess(a, b, indexed) && EntriesLess(b, c, indexed)
    ensures EntriesLess(a, c, indexed)
    decreases EntriesWeight(a) + EntriesWeight(b) + EntriesWeight(c)
  {
    hide Less, EntryLess, Comparable;
    var x, y, z := a[0], b[0], c[0];
    EntryTrichotomy(x, y);
    EntryTrichotomy(y, z);
    EntryTrichotomy(x, z);
    if EntryLess(x, y) && EntryLess(y, z) {
      EntryTransitive(x, y, z);
    } else if x == y == z {
      EntriesTransitive(a[1..], b[1..], c[1..], indexed);
    }
  }

  lemma {:induction false} EntryTransitive(m: Entry, n: Entry, p: Entry)
    requires m.key.Index? == n.key.Index? == p.key.Index?
    requires Comparable(m.value) && Comparable(n.value) && Comparable(p.value)
    requires EntryLess(m, n) && EntryLess(n, p)
    ensures EntryLess(m, p)
    decreases 1 + EntryWeight(m) + EntryWeight(n) + EntryWeight(p)
  {
    hide Less, Before, Comparable;
    BeforeTrichotomy(m.key, n.key);
    BeforeTrichotomy(n.key, p.key);
    BeforeTrichotomy(m.key, p.key);
    if Before(m.key, n.key) && Before(n.key, p.key) {
      BeforeTransitive(m.key, n.key, p.key);
    } else if m.key == n.key == p.key {
      Transitive(m.value, n.value, p.value);
    }
  }

  // ---- Which way round it is ----

  /** Numbers by their size, false before true, strings as keys are, and the kinds of values in the order of their
      types. */
  lemma ScalarsLess(i: int, j: int, m: nat, n: nat, s: string, t: string)
    ensures Less(Int(i), Int(j)) <==> i < j
    ensures Less(UInt(m), UInt(n)) <==> m < n
    ensures Less(Str(s), Str(t)) <==> KeyLess(s, t)
    ensures Less(Bool(false), Bool(true)) && !Less(Bool(true), Bool(false))
    ensures Less(Null, Int(i)) && Less(Int(i), UInt(m)) && Less(UInt(m), Str(s)) && Less(Str(s), Bool(true))
    ensures Less(Bool(true), Array([])) && Less(Array([]), Object([]))
  {
    CZStringLessIsKeyLess(s, t);
  }

  /** Of two arrays, or two objects, the one of fewer entries is less, and of as many, the one with the lesser entry
      where they first differ. */
  lemma ContainersLess(a: seq<Entry>, b: seq<Entry>)
    requires Comparable(Array(a)) && Comparable(Array(b))
    ensures Less(Array(a), Array(b)) <==>
              |a| < |b| || (|a| == |b| && exists k | 0 <= k < |a| :: a[..k] == b[..k] && EntryLess(a[k], b[k]))
  {
    hide EntryLess, Comparable;
    EntriesAlike(Array(a));
    EntriesAlike(Array(b));
    if |a| == |b| {
      FirstDifference(a, b, true);
    }
  }

  lemma ObjectsLess(a: seq<Entry>, b: seq<Entry>)
    requires Comparable(Object(a)) && Comparable(Object(b))
    ensures Less(Object(a), Object(b)) <==>
              |a| < |b| || (|a| == |b| && exists k | 0 <= k < |a| :: a[..k] == b[..k] && EntryLess(a[k], b[k]))
  {
    hide EntryLess, Comparable;
    EntriesAlike(Object(a));
    EntriesAlike(Object(b));
    if |a| == |b| {
      FirstDifference(a, b, false);
    }
  }

  // The first entry in which they differ is less.
  ghost predicate Differs(a: seq<Entry>, b: seq<Entry>, indexed: bool)
    requires Alike(a, indexed) && Alike(b, indexed) && |a| == |b|
  {
    exists k | 0 <= k < |a| :: a[..k] == b[..k] && EntryLess(a[k], b[k])
  }

  lemma {:induction false} FirstDifference(a: seq<Entry>, b: seq<Entry>, indexed: bool)
    requires Alike(a, indexed) && Alike(b, indexed) && |a| == |b|
    ensures EntriesLess(a, b, indexed) <==> Differs(a, b, indexed)
  {
    hide EntryLess, Comparable, Differs;
    if a == [] {
      NothingDiffers(indexed);
    } else {
      EntryTrichotomy(a[0], b[0]);
      if a[0] == b[0] {
        FirstDifference(a[1..], b[1..], indexed);
        DiffersLater(a, b, indexed);
      } else {
        DiffersAtOnce(a, b, indexed);
      }
    }
  }

  lemma NothingDiffers(indexed: bool)
    ensures !Differs([], [], indexed)
  {
  }

  lemma DiffersAtOnce(a: seq<Entry>, b: seq<Entry>, indexed: bool)
    requires Alike(a, indexed) && Alike(b, indexed) && |a| == |b| && a != [] && a[0] != b[0]
    ensures Differs(a, b, indexed) <==> EntryLess(a[0], b[0])
  {
    hide EntryLess, Comparable;
    assert a[..0] == b[..0];
    if Differs(a, b, indexed) {
      var k :| 0 <= k < |a| && a[..k] == b[..k] && EntryLess(a[k], b[k]);
      if k > 0 {
        SameStart(a, b, k);
        assert false;
      }
    }
  }

  lemma DiffersLater(a: seq<Entry>, b: seq<Entry>, indexed: bool)
    requires Alike(a, indexed) && Alike(b, indexed) && |a| == |b| && a != [] && a[0] == b[0]
    ensures Differs(a, b, indexed) <==> Differs(a[1..], b[1..], indexed)
  {
    hide EntryLess, Comparable;
    var x, y := a[1..], b[1..];
    if Differs(a, b, indexed) {
      var k :| 0 <= k < |a| && a[..k] == b[..k] && EntryLess(a[k], b[k]);
      if k == 0 {
        EntryTrichotomy(a[0], a[0]);
        assert false;
      } else {
        assert a[..k][1..] == x[..k - 1] && b[..k][1..] == y[..k - 1];
        assert EntryLess(x[k - 1], y[k - 1]);
      }
    }
    if Differs(x, y, indexed) {
      var k :| 0 <= k < |x| && x[..k] == y[..k] && EntryLess(x[k], y[k]);
      assert a[..k + 1] == [a[0]] + x[..k] && b[..k + 1] == [b[0]] + y[..k];
      assert EntryLess(a[k + 1], b[k + 1]);
    }
  }

  /** An entry is less by its key, and under one key by its value; indices are in the order of numbers, names in that
      of keys. */
  lemma EntriesByKey(i: nat, j: nat, s: string, t: string, v: Tree, w: Tree)
    requires Comparable(v) && Comparable(w)
    ensures EntryLess(Entry(Index(i), v), Entry(Index(j), w)) <==> i < j || (i == j && Less(v, w))
    ensures EntryLess(Entry(Name(s), v), Entry(Name(t), w)) <==> KeyLess(s, t) || (s == t && Less(v, w))
  {
    hide Less, Comparable;
    CZStringLessIsKeyLess(s, t);
    CZStringLessIsKeyLess(t, s);
    KeyTrichotomy(s, t);
  }
}
