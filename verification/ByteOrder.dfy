/** Byte strings, and 32-bit numbers written into them in network byte order. */
module ByteOrder {

  type bytes = seq<bv8>

  const U32: nat := 0x1_0000_0000

  function ByteOf(n: nat): bv8
    requires n < 0x100
  {
    n as bv8
  }

  function ValueOf(b: bv8): (n: nat)
    ensures n < 0x100
  {
    b as nat
  }

  lemma ByteConversion(n: nat)
    requires n < 0x100
    ensures n as bv8 as nat == n
  {
    if n < 0x20 { Bytes0(n); }
    else if n < 0x40 { Bytes1(n); }
    else if n < 0x60 { Bytes2(n); }
    else if n < 0x80 { Bytes3(n); }
    else if n < 0xa0 { Bytes4(n); }
    else if n < 0xc0 { Bytes5(n); }
    else if n < 0xe0 { Bytes6(n); }
    else { Bytes7(n); }
  }

  lemma Bytes0(n: nat) requires 0x0 <= n < 0x20 ensures n as bv8 as nat == n {}

  lemma Bytes1(n: nat) requires 0x20 <= n < 0x40 ensures n as bv8 as nat == n {}

  lemma Bytes2(n: nat) requires 0x40 <= n < 0x60 ensures n as bv8 as nat == n {}

  lemma Bytes3(n: nat) requires 0x60 <= n < 0x80 ensures n as bv8 as nat == n {}

  lemma Bytes4(n: nat) requires 0x80 <= n < 0xa0 ensures n as bv8 as nat == n {}

  lemma Bytes5(n: nat) requires 0xa0 <= n < 0xc0 ensures n as bv8 as nat == n {}

  lemma Bytes6(n: nat) requires 0xc0 <= n < 0xe0 ensures n as bv8 as nat == n {}

  lemma Bytes7(n: nat) requires 0xe0 <= n < 0x100 ensures n as bv8 as nat == n {}

  lemma ByteRoundTrip(n: nat)
    requires n < 0x100
    ensures ValueOf(ByteOf(n)) == n
  {
    ByteConversion(n);
  }

  // WriteUint32, and htonl in memory: most significant byte first.
  function U32Bytes(n: nat): (b: bytes)
    requires n < U32
    ensures |b| == 4
  {
    [ByteOf(n / 0x100_0000), ByteOf(n / 0x1_0000 % 0x100), ByteOf(n / 0x100 % 0x100), ByteOf(n % 0x100)]
  }

  // ReadUint32, and ntohl of four bytes in memory.
  function U32Of(b: bytes): (n: nat)
    requires |b| == 4
    ensures n < U32
  {
    ValueOf(b[0]) * 0x100_0000 + ValueOf(b[1]) * 0x1_0000 + ValueOf(b[2]) * 0x100 + ValueOf(b[3])
  }

  /** Reading back what was written gives the number. */
  lemma U32RoundTrip(n: nat)
    requires n < U32
    ensures U32Of(U32Bytes(n)) == n
  {
    hide ByteOf, ValueOf;
    ByteRoundTrip(n / 0x100_0000);
    ByteRoundTrip(n / 0x1_0000 % 0x100);
    ByteRoundTrip(n / 0x100 % 0x100);
    ByteRoundTrip(n % 0x100);
    FourDigits(n);
  }

  // A number from its last digit and what stands above it, in base 256.
  lemma LastDigit(n: nat)
    ensures n == n / 0x100 * 0x100 + n % 0x100
  {
  }

  lemma TwiceDivided(n: nat)
    ensures n / 0x100 / 0x100 == n / 0x1_0000
    ensures n / 0x1_0000 / 0x100 == n / 0x100_0000
  {
  }

  lemma FourDigits(n: nat)
    ensures n == n / 0x100_0000 * 0x100_0000 + n / 0x1_0000 % 0x100 * 0x1_0000 + n / 0x100 % 0x100 * 0x100 + n % 0x100
  {
    LastDigit(n);
    LastDigit(n / 0x100);
    LastDigit(n / 0x1_0000);
    TwiceDivided(n);
  }

  // The first byte in which they differ is smaller.
  ghost predicate Before(a: bytes, b: bytes)
    requires |a| == |b|
  {
    exists k | 0 <= k < |a| :: a[..k] == b[..k] && ValueOf(a[k]) < ValueOf(b[k])
  }

  /** Numbers are in the order of their bytes, so the most significant byte comes first. */
  lemma BytesInOrder(n: nat, m: nat)
    requires n < m < U32
    ensures Before(U32Bytes(n), U32Bytes(m))
  {
    hide ByteOf, ValueOf;
    var a, b := U32Bytes(n), U32Bytes(m);
    BytesAreDigits(n);
    BytesAreDigits(m);
    var k := DigitsInOrder(ValueOf(a[0]), ValueOf(a[1]), ValueOf(a[2]), ValueOf(a[3]),
                           ValueOf(b[0]), ValueOf(b[1]), ValueOf(b[2]), ValueOf(b[3]));
    forall i | 0 <= i < k
      ensures a[i] == b[i]
    {
      SameValue(a[i], b[i]);
    }
    assert a[..k] == b[..k];
  }

  lemma SameValue(a: bv8, b: bv8)
    requires ValueOf(a) == ValueOf(b)
    ensures a == b
  {
    assert (a as nat) as bv8 == a && (b as nat) as bv8 == b;
  }

  lemma BytesAreDigits(n: nat)
    requires n < U32
    ensures var b := U32Bytes(n);
            n == ValueOf(b[0]) * 0x100_0000 + ValueOf(b[1]) * 0x1_0000 + ValueOf(b[2]) * 0x100 + ValueOf(b[3])
  {
    hide U32Bytes, ByteOf, ValueOf;
    U32RoundTrip(n);
  }

  // Four digits in base 256 and four others of a greater number: where they first differ.
  lemma DigitsInOrder(a: nat, b: nat, c: nat, d: nat, e: nat, f: nat, g: nat, h: nat) returns (k: nat)
    requires a < 0x100 && b < 0x100 && c < 0x100 && d < 0x100 && e < 0x100 && f < 0x100 && g < 0x100 && h < 0x100
    requires a * 0x100_0000 + b * 0x1_0000 + c * 0x100 + d < e * 0x100_0000 + f * 0x1_0000 + g * 0x100 + h
    ensures k < 4
    ensures k == 0 ==> a < e
    ensures k == 1 ==> a == e && b < f
    ensures k == 2 ==> a == e && b == f && c < g
    ensures k == 3 ==> a == e && b == f && c == g && d < h
  {
    k := if a != e then 0 else if b != f then 1 else if c != g then 2 else 3;
  }
}
