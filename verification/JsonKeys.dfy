/** The keys of a map: CZString's order is bytewise, a prefix first. */
module JsonKeys {
  import opened Slices

  function KeyLess(a: string, b: string): bool {
    if b == "" then false
    else if a == "" then true
    else if a[0] != b[0] then a[0] < b[0]
    else KeyLess(a[1..], b[1..])
  }

  // The comparison as it is written: memcmp over the shorter length, then the lengths.
  function Memcmp(a: string, b: string, n: nat): int
    requires n <= |a| && n <= |b|
  {
    if n == 0 then 0
    else
      var before := Memcmp(a, b, n - 1);
      if before != 0 then before
      else if a[n - 1] < b[n - 1] then -1
      else if a[n - 1] > b[n - 1] then 1
      else 0
  }

  function CZStringLess(a: string, b: string): bool {
    var minLen := if |a| < |b| then |a| else |b|;
    var comp := Memcmp(a, b, minLen);
    if comp < 0 then true else if comp > 0 then false else |a| < |b|
  }

  lemma {:induction false} MemcmpFirst(a: string, b: string, n: nat)
    requires 0 < n <= |a| && n <= |b|
    ensures Memcmp(a, b, n) == if a[0] < b[0] then -1 else if a[0] > b[0] then 1 else Memcmp(a[1..], b[1..], n - 1)
  {
    if n == 1 {
      assert Memcmp(a, b, 0) == 0;
    } else {
      MemcmpFirst(a, b, n - 1);
    }
  }

  /** Comparing by memcmp and length is the lexicographic order. */
  lemma {:induction false} CZStringLessIsKeyLess(a: string, b: string)
    ensures CZStringLess(a, b) == KeyLess(a, b)
  {
    if a != "" && b != "" {
      var n := if |a| < |b| then |a| else |b|;
      MemcmpFirst(a, b, n);
      CZStringLessIsKeyLess(a[1..], b[1..]);
    }
  }

  lemma {:induction false} KeyTrichotomy(a: string, b: string)
    ensures !(KeyLess(a, b) && KeyLess(b, a))
    ensures KeyLess(a, b) || KeyLess(b, a) || a == b
    ensures !KeyLess(a, a)
  {
    if a != "" && b != "" {
      KeyTrichotomy(a[1..], b[1..]);
      if a[0] == b[0] && a[1..] == b[1..] {
        assert a == [a[0]] + a[1..] == b;
      }
    } else if a != "" {
      KeyTrichotomy(a[1..], "");
    }
  }

  lemma {:induction false} KeyTransitive(a: string, b: string, c: string)
    requires KeyLess(a, b) && KeyLess(b, c)
    ensures KeyLess(a, c)
  {
    if a != "" && a[0] == b[0] == c[0] {
      KeyTransitive(a[1..], b[1..], c[1..]);
    }
  }

  lemma {:induction false} MemcmpZero(a: string, b: string, n: nat)
    requires n <= |a| && n <= |b|
    ensures Memcmp(a, b, n) == 0 <==> a[..n] == b[..n]
  {
    if n > 0 {
      MemcmpZero(a, b, n - 1);
      assert a[..n] == a[..n - 1] + [a[n - 1]] && b[..n] == b[..n - 1] + [b[n - 1]];
    }
  }

  lemma CZStringTrichotomy(a: string, b: string)
    ensures !(CZStringLess(a, b) && CZStringLess(b, a)) && !CZStringLess(a, a)
    ensures CZStringLess(a, b) || CZStringLess(b, a) || a == b
  {
    CZStringLessIsKeyLess(a, b);
    CZStringLessIsKeyLess(b, a);
    CZStringLessIsKeyLess(a, a);
    KeyTrichotomy(a, b);
  }

  lemma CZStringTransitive(a: string, b: string, c: string)
    requires CZStringLess(a, b) && CZStringLess(b, c)
    ensures CZStringLess(a, c)
  {
    CZStringLessIsKeyLess(a, b);
    CZStringLessIsKeyLess(b, c);
    CZStringLessIsKeyLess(a, c);
    KeyTransitive(a, b, c);
  }

  /** One key is before another when it is a proper beginning of it, or has the smaller character where they first
      differ. */
  lemma {:induction false} KeyLessExactly(a: string, b: string)
    ensures KeyLess(a, b) <==> (a <= b && a != b) || Differs(a, b)
  {
    hide Differs;
    if a == "" || b == "" {
      NothingDiffers(a, b);
    } else if a[0] != b[0] {
      DiffersAtOnce(a, b);
    } else {
      KeyLessExactly(a[1..], b[1..]);
      DiffersLater(a, b);
      assert a == [a[0]] + a[1..] && b == [b[0]] + b[1..];
    }
  }

  ghost predicate Differs(a: string, b: string) {
    exists k | 0 <= k < |a| && k < |b| :: a[..k] == b[..k] && a[k] < b[k]
  }

  lemma NothingDiffers(a: string, b: string)
    requires a == "" || b == ""
    ensures !Differs(a, b)
  {
  }

  lemma DiffersAtOnce(a: string, b: string)
    requires a != "" && b != "" && a[0] != b[0]
    ensures Differs(a, b) <==> a[0] < b[0]
  {
    assert a[..0] == b[..0];
    if Differs(a, b) {
      var k :| 0 <= k < |a| && k < |b| && a[..k] == b[..k] && a[k] < b[k];
      if k > 0 {
        SameStart(a, b, k);
        assert false;
      }
    }
  }

  lemma DiffersLater(a: string, b: string)
    requires a != "" && b != "" && a[0] == b[0]
    ensures Differs(a, b) <==> Differs(a[1..], b[1..])
  {
    var x, y := a[1..], b[1..];
    if Differs(a, b) {
      var k :| 0 <= k < |a| && k < |b| && a[..k] == b[..k] && a[k] < b[k];
      assert a[..k][1..] == x[..k - 1] && b[..k][1..] == y[..k - 1];
      assert x[k - 1] < y[k - 1];
    }
    if Differs(x, y) {
      DiffersBehind(a, b);
    }
  }

  lemma DiffersBehind(a: string, b: string)
    requires a != "" && b != "" && a[0] == b[0] && Differs(a[1..], b[1..])
    ensures Differs(a, b)
  {
    var x, y := a[1..], b[1..];
    var k :| 0 <= k < |x| && k < |y| && x[..k] == y[..k] && x[k] < y[k];
    assert a[..k + 1] == [a[0]] + x[..k] && b[..k + 1] == [b[0]] + y[..k];
    assert a[k + 1] < b[k + 1];
  }
}
