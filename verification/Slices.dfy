/** Slices of slices. */
module Slices {

  lemma Drop<T>(s: seq<T>, a: nat, n: nat)
    requires a + n <= |s|
    ensures s[a..][n..] == s[a + n..]
  {
  }

  lemma Slice<T>(s: seq<T>, a: nat, i: nat, j: nat)
    requires i <= j && a + j <= |s|
    ensures s[a..][i..j] == s[a + i..a + j]
  {
  }

  // What is left of a slice without its first and its last.
  lemma Peeled<T>(s: seq<T>, i: nat, j: nat)
    requires i + 2 <= j <= |s|
    ensures s[i + 1..j - 1] == s[i..j][1..|s[i..j]| - 1]
  {
    var w := s[i..j];
    var u, v := s[i + 1..j - 1], w[1..|w| - 1];
    forall k | 0 <= k < |u|
      ensures u[k] == v[k]
    {
      assert v[k] == w[1 + k] == s[i + (1 + k)];
    }
  }

  lemma SameStart<T>(a: seq<T>, b: seq<T>, k: nat)
    requires 0 < k <= |a| && k <= |b| && a[..k] == b[..k]
    ensures a[0] == b[0]
  {
    assert a[..k][0] == a[0] && b[..k][0] == b[0];
  }
}
