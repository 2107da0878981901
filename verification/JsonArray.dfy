/** An array value as the source keeps it, a map from 32-bit indices, against the sequence that it stands for. */
module JsonArray {
  import opened Wrappers
  import opened JsonString
  import opened JsonValue

  const INDEX_LIMIT: nat := 0x1_0000_0000

  type Index = i: nat | i < INDEX_LIMIT

  // The last key in the order of the map.
  function LastKey(m: map<Index, Value>): (k: Index)
    requires m != map[]
    ensures k in m && forall j <- m :: j <= k
  {
    HasLast(m.Keys);
    var k: Index :| k in m.Keys && IsLast(k, m.Keys);
    k
  }

  predicate IsLast(k: Index, s: set<Index>) { forall j <- s :: j <= k }

  lemma HasLast(s: set<Index>)
    requires s != {}
    ensures exists k: Index :: k in s && IsLast(k, s)
    decreases s
  {
    var a: Index :| a in s;
    var rest := s - {a};
    if rest == {} {
      assert s == {a};
      assert IsLast(a, s);
    } else {
      HasLast(rest);
      var b: Index :| b in rest && IsLast(b, rest);
      var k := if a < b then b else a;
      LastOfMore(rest, a, b, k);
      assert rest + {a} == s && k in s;
    }
  }

  lemma LastOfMore(rest: set<Index>, a: Index, b: Index, k: Index)
    requires IsLast(b, rest) && a <= k && b <= k
    ensures IsLast(k, rest + {a})
  {
  }

  // size: the highest index and one, in 32 bits.
  function Size(m: map<Index, Value>): Index {
    if m == map[] then 0 else (LastKey(m) + 1) % INDEX_LIMIT
  }

  // ---- What the operations make of the map ----

  // operator[] const: null where nothing is.
  function Slot(m: map<Index, Value>, i: nat): Value {
    if i < INDEX_LIMIT && i in m then m[i] else Null
  }

  // operator[]: a null is put where nothing is.
  function Touched(m: map<Index, Value>, i: Index): map<Index, Value> {
    if i in m then m else m[i := Null]
  }

  function Appended(m: map<Index, Value>, v: Value): map<Index, Value> {
    m[Size(m) := v]
  }

  ghost function Resized(m: map<Index, Value>, n: Index): map<Index, Value> {
    if n > Size(m) then Touched(m, n - 1)
    else map k | k in m && k < n :: m[k]
  }

  // Everything from i on moves down by one, a hole as a null.
  ghost function Removed(m: map<Index, Value>, i: Index): map<Index, Value> {
    if i !in m then m
    else
      map k: Index | k < LastKey(m) && (k in m || i <= k) ::
        if k < i then m[k] else Slot(m, k + 1)
  }

  // removeIndex's loop has come from index to i.
  ghost predicate Shifted(m: map<Index, Value>, index: Index, i: Index, now: map<Index, Value>) {
    forall k: Index :: ShiftedAt(m, index, i, now, k)
  }

  ghost predicate ShiftedAt(m: map<Index, Value>, index: Index, i: Index, now: map<Index, Value>, k: Index) {
    && (k in now <==> k in m || index <= k <= i)
    && (k in now && index <= k < i ==> now[k] == Slot(m, k + 1))
    && (k in now && (k < index || i <= k) ==> now[k] == Slot(m, k))
  }

  lemma ShiftedFirst(m: map<Index, Value>, index: Index)
    requires index in m
    ensures Shifted(m, index, index, m)
  {
  }

  lemma ShiftedNext(m: map<Index, Value>, index: Index, i: Index, now: map<Index, Value>)
    requires Shifted(m, index, i, now) && index <= i < INDEX_LIMIT - 1
    ensures var next := Touched(now, i + 1); Shifted(m, index, i + 1, next[i := next[i + 1]])
  {
    hide Slot;
    var next := Touched(now, i + 1);
    SlotOf(m, i + 1);
    assert ShiftedAt(m, index, i, now, i + 1);
    var j, moved := i + 1, next[i := next[i + 1]];
    forall k: Index
      ensures ShiftedAt(m, index, j, moved, k)
    {
      assert ShiftedAt(m, index, i, now, k);
    }
  }

  lemma ShiftedLast(m: map<Index, Value>, index: Index, now: map<Index, Value>)
    requires index in m && Shifted(m, index, LastKey(m), now)
    ensures now - {LastKey(m)} == Removed(m, index)
  {
    hide Removed, LastKey, Slot;
    var last, r := LastKey(m), Removed(m, index);
    forall k: Index
      ensures k in r <==> k in now && k != last
      ensures k in r ==> r[k] == now[k]
    {
      RemovedAt(m, index, k);
      assert ShiftedAt(m, index, last, now, k);
      if k in m && k < index {
        assert Slot(m, k) == m[k] by { SlotOf(m, k); }
      }
    }
  }

  lemma SlotOf(m: map<Index, Value>, k: Index)
    ensures Slot(m, k) == if k in m then m[k] else Null
  {
  }

  lemma RemovedAt(m: map<Index, Value>, i: Index, k: Index)
    requires i in m
    ensures k in Removed(m, i) <==> k < LastKey(m) && (k in m || i <= k)
    ensures k in Removed(m, i) ==> Removed(m, i)[k] == if k < i then m[k] else Slot(m, k + 1)
  {
  }

  /** When resize does not grow the array, the size asserted at its end is the one asked for exactly when the slot
      that is to be the last one holds something. */
  lemma ResizeKeepsSize(m: map<Index, Value>, n: Index)
    requires 0 < n <= Size(m)
    ensures Size(Resized(m, n)) == n <==> n - 1 in m
  {
    var r := Resized(m, n);
    if n - 1 in m {
      assert (n - 1) as Index in r;
    }
  }

  // It fails on an array that one access beyond the end has made.
  lemma ResizeLosesSize()
    ensures var m := Touched(map[], 2); Size(m) == 3 && Size(Resized(m, 2)) == 0
  {
    var m := Touched(map[], 2);
    assert LastKey(m) == 2;
    assert Resized(m, 2) == map[];
  }

  class ArrayValue {
    var values: map<Index, Value>

    constructor ()
      ensures values == map[]
    {
      values := map[];
    }

    /** operator[], read. */
    method At(i: Index) returns (v: Value)
      modifies this
      ensures values == Touched(old(values), i) && v == values[i]
    {
      if i !in values {
        values := values[i := Null];
      }
      return values[i];
    }

    /** append. */
    method Append(v: Value)
      modifies this
      ensures values == Appended(old(values), v)
    {
      var i := Size(values);
      var slot := At(i);
      values := values[i := v];
    }

    /** resize; ok says whether the size asserted at the end is the one asked for. */
    method Resize(newSize: Index) returns (ok: bool)
      modifies this
      ensures values == Resized(old(values), newSize)
      ensures ok == (newSize == 0 || newSize > Size(old(values)) || newSize - 1 in old(values))
    {
      ghost var m := values;
      var oldSize := Size(values);
      if newSize == 0 {
        values := map[];
        return true;
      }
      if newSize > oldSize {
        var slot := At(newSize - 1);
        return true;
      }
      var index := newSize;
      while index < oldSize
        invariant newSize <= index <= oldSize
        invariant values == map k | k in m && (k < newSize || index <= k) :: m[k]
      {
        values := values - {index};
        index := index + 1;
      }
      ResizeKeepsSize(m, newSize);
      return Size(values) == newSize;
    }

    /** removeIndex. */
    method RemoveIndex(index: Index) returns (ok: bool, removed: Value)
      modifies this
      ensures ok == (index in old(values)) && values == Removed(old(values), index)
      ensures ok ==> removed == old(values)[index]
    {
      hide Shifted, Slot;
      if index !in values {
        return false, Null;
      }
      ok, removed := true, values[index];
      ghost var m := values;
      var last := (Size(values) + INDEX_LIMIT - 1) % INDEX_LIMIT;
      assert last == LastKey(m);
      var i := index;
      ShiftedFirst(m, index);
      while i < last
        invariant index <= i <= last && Shifted(m, index, i, values)
      {
        ShiftedNext(m, index, i, values);
        var next := At(i + 1);
        values := values[i := next];
        i := i + 1;
      }
      ShiftedLast(m, index, values);
      values := values - {last};
    }
  }

  // ---- Dense arrays ----

  ghost predicate Dense(m: map<Index, Value>) {
    forall k: Index :: k in m <==> k < |m|
  }

  ghost function Elems(m: map<Index, Value>): (s: seq<Value>)
    requires Dense(m)
    ensures |s| == |m|
  {
    DenseFits(m);
    seq(|m|, k requires 0 <= k < |m| => m[k])
  }

  // There are as many keys as there are indices below n when those are the keys.
  lemma {:induction false} CountBelow(s: set<Index>, n: nat)
    requires n <= INDEX_LIMIT && forall k: Index :: k in s <==> k < n
    ensures |s| == n
    decreases n
  {
    if n == 0 {
      assert s == {};
    } else {
      CountBelow(s - {n - 1}, n - 1);
    }
  }

  lemma {:induction false} AtMost(s: set<Index>, n: nat)
    requires n <= INDEX_LIMIT && forall k <- s :: k < n
    ensures |s| <= n
    decreases n
  {
    if n == 0 {
      assert s == {};
    } else {
      AtMost(s - {n - 1}, n - 1);
    }
  }

  lemma DenseFits(m: map<Index, Value>)
    ensures |m| <= INDEX_LIMIT
  {
    AtMost(m.Keys, INDEX_LIMIT);
    assert |m| == |m.Keys|;
  }

  // The keys below n make a dense map of n entries.
  lemma DenseBelow(m: map<Index, Value>, n: nat)
    requires n <= INDEX_LIMIT && forall k: Index :: k in m <==> k < n
    ensures Dense(m) && |m| == n
  {
    CountBelow(m.Keys, n);
    assert |m| == |m.Keys|;
  }

  /** size() is the number of entries of a dense array, as long as that number fits in 32 bits. */
  lemma DenseSize(m: map<Index, Value>)
    requires Dense(m)
    ensures |m| <= 0x1_0000_0000 && (m != map[] ==> LastKey(m) == |m| - 1)
    ensures Size(m) == |m| <==> |m| < 0x1_0000_0000
  {
    DenseFits(m);
    if m != map[] {
      assert (|m| - 1) as Index in m;
    }
  }

  lemma AppendDense(m: map<Index, Value>, v: Value)
    requires Dense(m) && |m| < INDEX_LIMIT
    ensures Dense(Appended(m, v)) && Elems(Appended(m, v)) == Elems(m) + [v]
  {
    DenseSize(m);
    DenseBelow(Appended(m, v), |m| + 1);
  }

  lemma RemoveDense(m: map<Index, Value>, i: Index)
    requires Dense(m)
    ensures Dense(Removed(m, i))
    ensures Elems(Removed(m, i)) == if i < |m| then Elems(m)[..i] + Elems(m)[i + 1..] else Elems(m)
  {
    DenseSize(m);
    if i in m {
      var r := Removed(m, i);
      DenseBelow(r, |m| - 1);
      forall k: Index | k < |m| - 1
        ensures Elems(r)[k] == Elems(m)[if k < i then k else k + 1]
      {
        RemovedAt(m, i, k);
        SlotOf(m, k + 1);
      }
    }
  }

  // resize on a sequence: cut, or one null more.
  ghost function Cut(s: seq<Value>, n: nat): seq<Value>
    requires n <= |s| + 1
  {
    if n <= |s| then s[..n] else s + [Null]
  }

  /** resize cuts the sequence or adds one null; asked for more, it leaves a hole. */
  lemma ResizeDense(m: map<Index, Value>, n: Index)
    requires Dense(m) && |m| < INDEX_LIMIT
    ensures Dense(Resized(m, n)) <==> n <= |m| + 1
    ensures n <= |m| + 1 ==> Elems(Resized(m, n)) == Cut(Elems(m), n)
    ensures n != 0 ==> Size(Resized(m, n)) == n
  {
    DenseSize(m);
    if n <= |m| + 1 {
      ResizeInRange(m, n);
    } else {
      ResizeBeyond(m, n);
    }
  }

  lemma ResizeInRange(m: map<Index, Value>, n: Index)
    requires Dense(m) && Size(m) == |m| && n <= |m| + 1
    ensures var r := Resized(m, n); Dense(r) && |r| == n && Elems(r) == Cut(Elems(m), n)
    ensures n != 0 ==> Size(Resized(m, n)) == n
  {
    hide Size;
    var r := Resized(m, n);
    assert forall k: Index :: k in r <==> k < n;
    DenseBelow(r, n);
    DenseSize(r);
  }

  lemma ResizeBeyond(m: map<Index, Value>, n: Index)
    requires Dense(m) && Size(m) == |m| && n > |m| + 1
    ensures !Dense(Resized(m, n)) && Size(Resized(m, n)) == n
  {
    var r := Resized(m, n);
    assert (n - 1) as Index in r && |m| as Index !in r;
    assert LastKey(r) == n - 1;
    assert |r| == |m| + 1;
  }

  // ---- Runs ----

  datatype Op = Append(value: Value) | Remove(index: Index) | Resize(size: Index)

  ghost function Apply(m: map<Index, Value>, op: Op): map<Index, Value> {
    match op
    case Append(v) => Appended(m, v)
    case Remove(i) => Removed(m, i)
    case Resize(n) => Resized(m, n)
  }

  ghost function Run(m: map<Index, Value>, ops: seq<Op>): map<Index, Value>
    decreases |ops|
  {
    if ops == [] then m else Run(Apply(m, ops[0]), ops[1..])
  }

  // The same on a sequence; None when it grows past the 32-bit size or a resize leaves a hole.
  ghost function ApplySeq(s: seq<Value>, op: Op): Option<seq<Value>> {
    match op
    case Append(v) => if |s| < INDEX_LIMIT - 1 then Some(s + [v]) else None
    case Remove(i) => Some(if i < |s| then s[..i] + s[i + 1..] else s)
    case Resize(n) => if n <= |s| + 1 then Some(Cut(s, n)) else None
  }

  ghost function RunSeq(s: seq<Value>, ops: seq<Op>): Option<seq<Value>>
    decreases |ops|
  {
    if ops == [] then Some(s)
    else
      match ApplySeq(s, ops[0])
      case None => None
      case Some(next) => RunSeq(next, ops[1..])
  }

  /** A run from a dense array that stays in range is the run of the sequence, dense to its end, with its size the
      number of its elements. */
  lemma {:induction false} RunRefines(m: map<Index, Value>, ops: seq<Op>)
    requires Dense(m) && |m| < INDEX_LIMIT && RunSeq(Elems(m), ops).Some?
    ensures Dense(Run(m, ops)) && Elems(Run(m, ops)) == RunSeq(Elems(m), ops).value
    ensures Size(Run(m, ops)) == |Run(m, ops)|
    decreases |ops|
  {
    hide Appended, Removed, Resized, Elems, Dense, Cut, Size;
    if ops == [] {
      DenseSize(m);
    } else {
      ApplyRefines(m, ops[0]);
      RunRefines(Apply(m, ops[0]), ops[1..]);
    }
  }

  lemma ApplyRefines(m: map<Index, Value>, op: Op)
    requires Dense(m) && |m| < INDEX_LIMIT && ApplySeq(Elems(m), op).Some?
    ensures Dense(Apply(m, op)) && Elems(Apply(m, op)) == ApplySeq(Elems(m), op).value
    ensures |Apply(m, op)| < INDEX_LIMIT
  {
    hide Appended, Removed, Resized, Size;
    match op
    case Append(v) => AppendDense(m, v);
    case Remove(i) => RemoveDense(m, i);
    case Resize(n) => ResizeDense(m, n);
  }
}
