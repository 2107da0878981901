/** The MD5 compression function: the loop of section 3.4 of RFC 1321 and the unrolled macros that compute it. */
module Md5Transform {

  const U32: nat := 0x1_0000_0000

  type word = n: nat | n < U32
  type byte = n: nat | n < 0x100

  // ---- Operations on 32-bit words ----

  function Bits(x: word): bv32 { x as bv32 }

  function Value(b: bv32): word { b as nat }

  function Add(x: word, y: word): word { (x + y) % U32 }

  function F(x: word, y: word, z: word): word { Value(FBits(Bits(x), Bits(y), Bits(z))) }

  function G(x: word, y: word, z: word): word { Value(GBits(Bits(x), Bits(y), Bits(z))) }

  function H(x: word, y: word, z: word): word { Value(HBits(Bits(x), Bits(y), Bits(z))) }

  function I(x: word, y: word, z: word): word { Value(IBits(Bits(x), Bits(y), Bits(z))) }

  function FBits(x: bv32, y: bv32, z: bv32): bv32 { (x & y) | (!x & z) }

  function GBits(x: bv32, y: bv32, z: bv32): bv32 { (x & z) | (y & !z) }

  function HBits(x: bv32, y: bv32, z: bv32): bv32 { x ^ y ^ z }

  function IBits(x: bv32, y: bv32, z: bv32): bv32 { y ^ (x | !z) }

  function RotateLeft(x: word, n: nat): word
    requires 0 < n < 32
  {
    Value(RotateBits(Bits(x), n))
  }

  function RotateBits(b: bv32, n: nat): bv32
    requires 0 < n < 32
  {
    (b << n) | (b >> (32 - n))
  }

  // ---- Section 3.4: sixty-four steps, each turning the four words by one place ----

  datatype Quad = Quad(a: word, b: word, c: word, d: word)

  // The table T, two to the power of 32 times the absolute value of sin(i + 1).
  function T(i: nat): word
    requires i < 64
  {
    if i < 4 then
      (if i == 0 then 0xd76aa478 else if i == 1 then 0xe8c7b756 else if i == 2 then 0x242070db else 0xc1bdceee)
    else if i < 8 then
      (if i == 4 then 0xf57c0faf else if i == 5 then 0x4787c62a else if i == 6 then 0xa8304613 else 0xfd469501)
    else if i < 12 then
      (if i == 8 then 0x698098d8 else if i == 9 then 0x8b44f7af else if i == 10 then 0xffff5bb1 else 0x895cd7be)
    else if i < 16 then
      (if i == 12 then 0x6b901122 else if i == 13 then 0xfd987193 else if i == 14 then 0xa679438e else 0x49b40821)
    else if i < 20 then
      (if i == 16 then 0xf61e2562 else if i == 17 then 0xc040b340 else if i == 18 then 0x265e5a51 else 0xe9b6c7aa)
    else if i < 24 then
      (if i == 20 then 0xd62f105d else if i == 21 then 0x02441453 else if i == 22 then 0xd8a1e681 else 0xe7d3fbc8)
    else if i < 28 then
      (if i == 24 then 0x21e1cde6 else if i == 25 then 0xc33707d6 else if i == 26 then 0xf4d50d87 else 0x455a14ed)
    else if i < 32 then
      (if i == 28 then 0xa9e3e905 else if i == 29 then 0xfcefa3f8 else if i == 30 then 0x676f02d9 else 0x8d2a4c8a)
    else if i < 36 then
      (if i == 32 then 0xfffa3942 else if i == 33 then 0x8771f681 else if i == 34 then 0x6d9d6122 else 0xfde5380c)
    else if i < 40 then
      (if i == 36 then 0xa4beea44 else if i == 37 then 0x4bdecfa9 else if i == 38 then 0xf6bb4b60 else 0xbebfbc70)
    else if i < 44 then
      (if i == 40 then 0x289b7ec6 else if i == 41 then 0xeaa127fa else if i == 42 then 0xd4ef3085 else 0x04881d05)
    else if i < 48 then
      (if i == 44 then 0xd9d4d039 else if i == 45 then 0xe6db99e5 else if i == 46 then 0x1fa27cf8 else 0xc4ac5665)
    else if i < 52 then
      (if i == 48 then 0xf4292244 else if i == 49 then 0x432aff97 else if i == 50 then 0xab9423a7 else 0xfc93a039)
    else if i < 56 then
      (if i == 52 then 0x655b59c3 else if i == 53 then 0x8f0ccc92 else if i == 54 then 0xffeff47d else 0x85845dd1)
    else if i < 60 then
      (if i == 56 then 0x6fa87e4f else if i == 57 then 0xfe2ce6e0 else if i == 58 then 0xa3014314 else 0x4e0811a1)
    else
      (if i == 60 then 0xf7537e82 else if i == 61 then 0xbd3af235 else if i == 62 then 0x2ad7d2bb else 0xeb86d391)
  }

  // Which word of the block a step takes.
  function Index(i: nat): (k: nat)
    requires i < 64
    ensures k < 16
  {
    if i < 16 then i else if i < 32 then (5 * i + 1) % 16 else if i < 48 then (3 * i + 5) % 16 else 7 * i % 16
  }

  function Shift(i: nat): (s: nat)
    requires i < 64
    ensures 0 < s < 32
  {
    var r := i % 4;
    if i < 16 then (if r == 0 then 7 else if r == 1 then 12 else if r == 2 then 17 else 22)
    else if i < 32 then (if r == 0 then 5 else if r == 1 then 9 else if r == 2 then 14 else 20)
    else if i < 48 then (if r == 0 then 4 else if r == 1 then 11 else if r == 2 then 16 else 23)
    else (if r == 0 then 6 else if r == 1 then 10 else if r == 2 then 15 else 21)
  }

  function Auxiliary(i: nat, x: word, y: word, z: word): word
    requires i < 64
  {
    if i < 16 then F(x, y, z) else if i < 32 then G(x, y, z) else if i < 48 then H(x, y, z) else I(x, y, z)
  }

  // a = b + ((a + aux(b, c, d) + X[k] + T[i]) <<< s)
  function Turn(a: word, b: word, aux: word, x: word, t: word, s: nat): word
    requires 0 < s < 32
  {
    Add(b, RotateLeft((a + aux + x + t) % U32, s))
  }

  function Step(q: Quad, x: seq<word>, i: nat): Quad
    requires |x| == 16 && i < 64
  {
    Quad(q.d, Turn(q.a, q.b, Auxiliary(i, q.b, q.c, q.d), x[Index(i)], T(i), Shift(i)), q.b, q.c)
  }

  function Steps(q: Quad, x: seq<word>, n: nat): Quad
    requires |x| == 16 && n <= 64
  {
    if n == 0 then q else Step(Steps(q, x, n - 1), x, n - 1)
  }

  // ---- Words and bytes, least significant byte first ----

  function Joined(b0: nat, b1: nat, b2: nat, b3: nat): word
    requires b0 < 0x100 && b1 < 0x100 && b2 < 0x100 && b3 < 0x100
  {
    b0 + b1 * 0x100 + b2 * 0x1_0000 + b3 * 0x100_0000
  }

  function WordAt(b: seq<byte>, i: nat): word
    requires i + 4 <= |b|
  {
    Joined(b[i], b[i + 1], b[i + 2], b[i + 3])
  }

  function Decoded(b: seq<byte>): (x: seq<word>)
    requires |b| == 64
    ensures |x| == 16
  {
    seq(16, i requires 0 <= i < 16 => WordAt(b, 4 * i))
  }

  function WordBytes(w: word): (b: seq<byte>)
    ensures |b| == 4
  {
    [w % 0x100, w / 0x100 % 0x100, w / 0x1_0000 % 0x100, w / 0x100_0000]
  }

  function Encoded(ws: seq<word>): (b: seq<byte>)
    ensures |b| == 4 * |ws|
  {
    if ws == [] then [] else Encoded(ws[..|ws| - 1]) + WordBytes(ws[|ws| - 1])
  }

  lemma WordRoundTrip(w: word)
    ensures WordAt(WordBytes(w), 0) == w
  {
    assert w / 0x100 == w / 0x1_0000 * 0x100 + w / 0x100 % 0x100;
    assert w / 0x1_0000 == w / 0x100_0000 * 0x100 + w / 0x1_0000 % 0x100;
  }

  /** One block of the digest: the steps, added to the state they started from. */
  function Compress(q: Quad, block: seq<byte>): Quad
    requires |block| == 64
  {
    var r := Steps(q, Decoded(block), 64);
    Quad(Add(q.a, r.a), Add(q.b, r.b), Add(q.c, r.c), Add(q.d, r.d))
  }

  // ---- The macros ----

  // What the four macros share: three sums are added one after another, the result is turned and b is added.
  function Macro(a: word, b: word, aux: word, x: word, s: nat, ac: word): word
    requires 0 < s < 32
  {
    Add(RotateLeft(Add(a, Add(Add(aux, x), ac)), s), b)
  }

  function FF(a: word, b: word, c: word, d: word, x: word, s: nat, ac: word): word
    requires 0 < s < 32
  {
    Macro(a, b, F(b, c, d), x, s, ac)
  }

  function GG(a: word, b: word, c: word, d: word, x: word, s: nat, ac: word): word
    requires 0 < s < 32
  {
    Macro(a, b, G(b, c, d), x, s, ac)
  }

  function HH(a: word, b: word, c: word, d: word, x: word, s: nat, ac: word): word
    requires 0 < s < 32
  {
    Macro(a, b, H(b, c, d), x, s, ac)
  }

  function II(a: word, b: word, c: word, d: word, x: word, s: nat, ac: word): word
    requires 0 < s < 32
  {
    Macro(a, b, I(b, c, d), x, s, ac)
  }

  /** The sums of a macro, each cut to 32 bits, make the same turn as the sum cut once. */
  lemma MacroIsTurn(a: word, b: word, aux: word, x: word, s: nat, ac: word)
    requires 0 < s < 32
    ensures Macro(a, b, aux, x, s, ac) == Turn(a, b, aux, x, ac, s)
  {
    hide RotateLeft;
    CutOnce(aux + x, ac);
    CutOnce(aux + x + ac, a);
    assert Add(a, Add(Add(aux, x), ac)) == (a + aux + x + ac) % U32;
  }

  lemma CutOnce(m: nat, n: nat)
    ensures (m % U32 + n) % U32 == (m + n) % U32
  {
    assert m + n == m / U32 * U32 + (m % U32 + n);
  }

  // What one macro call makes of the quadruple it works on.
  lemma MacroStep(q: Quad, x: seq<word>, i: nat)
    requires |x| == 16 && i < 64
    ensures var k, s, t := x[Index(i)], Shift(i), T(i);
            Step(q, x, i) == Quad(q.d, if i < 16 then FF(q.a, q.b, q.c, q.d, k, s, t)
                                       else if i < 32 then GG(q.a, q.b, q.c, q.d, k, s, t)
                                       else if i < 48 then HH(q.a, q.b, q.c, q.d, k, s, t)
                                       else II(q.a, q.b, q.c, q.d, k, s, t), q.b, q.c)
  {
    hide Macro, Turn, T, Index, Shift, F, G, H, I;
    MacroIsTurn(q.a, q.b, Auxiliary(i, q.b, q.c, q.d), x[Index(i)], Shift(i), T(i));
  }

  // Round 1, as the macros are written out.
  method Round1(x: seq<word>, ghost q: Quad, a0: word, b0: word, c0: word, d0: word)
    returns (a: word, b: word, c: word, d: word)
    requires |x| == 16 && Quad(a0, b0, c0, d0) == Steps(q, x, 0)
    ensures Quad(a, b, c, d) == Steps(q, x, 16)
  {
    hide FF, GG, HH, II, Step;
    a, b, c, d := a0, b0, c0, d0;
    MacroStep(Quad(a, b, c, d), x, 0);
    a := FF(a, b, c, d, x[0], 7, 0xd76aa478);
    assert Quad(d, a, b, c) == Steps(q, x, 1);
    MacroStep(Quad(d, a, b, c), x, 1);
    d := FF(d, a, b, c, x[1], 12, 0xe8c7b756);
    assert Quad(c, d, a, b) == Steps(q, x, 2);
    MacroStep(Quad(c, d, a, b), x, 2);
    c := FF(c, d, a, b, x[2], 17, 0x242070db);
    assert Quad(b, c, d, a) == Steps(q, x, 3);
    MacroStep(Quad(b, c, d, a), x, 3);
    b := FF(b, c, d, a, x[3], 22, 0xc1bdceee);
    assert Quad(a, b, c, d) == Steps(q, x, 4);
    MacroStep(Quad(a, b, c, d), x, 4);
    a := FF(a, b, c, d, x[4], 7, 0xf57c0faf);
    assert Quad(d, a, b, c) == Steps(q, x, 5);
    MacroStep(Quad(d, a, b, c), x, 5);
    d := FF(d, a, b, c, x[5], 12, 0x4787c62a);
    assert Quad(c, d, a, b) == Steps(q, x, 6);
    MacroStep(Quad(c, d, a, b), x, 6);
    c := FF(c, d, a, b, x[6], 17, 0xa8304613);
    assert Quad(b, c, d, a) == Steps(q, x, 7);
    MacroStep(Quad(b, c, d, a), x, 7);
    b := FF(b, c, d, a, x[7], 22, 0xfd469501);
    assert Quad(a, b, c, d) == Steps(q, x, 8);
    MacroStep(Quad(a, b, c, d), x, 8);
    a := FF(a, b, c, d, x[8], 7, 0x698098d8);
    assert Quad(d, a, b, c) == Steps(q, x, 9);
    MacroStep(Quad(d, a, b, c), x, 9);
    d := FF(d, a, b, c, x[9], 12, 0x8b44f7af);
    assert Quad(c, d, a, b) == Steps(q, x, 10);
    MacroStep(Quad(c, d, a, b), x, 10);
    c := FF(c, d, a, b, x[10], 17, 0xffff5bb1);
    assert Quad(b, c, d, a) == Steps(q, x, 11);
    MacroStep(Quad(b, c, d, a), x, 11);
    b := FF(b, c, d, a, x[11], 22, 0x895cd7be);
    assert Quad(a, b, c, d) == Steps(q, x, 12);
    MacroStep(Quad(a, b, c, d), x, 12);
    a := FF(a, b, c, d, x[12], 7, 0x6b901122);
    assert Quad(d, a, b, c) == Steps(q, x, 13);
    MacroStep(Quad(d, a, b, c), x, 13);
    d := FF(d, a, b, c, x[13], 12, 0xfd987193);
    assert Quad(c, d, a, b) == Steps(q, x, 14);
    MacroStep(Quad(c, d, a, b), x, 14);
    c := FF(c, d, a, b, x[14], 17, 0xa679438e);
    assert Quad(b, c, d, a) == Steps(q, x, 15);
    MacroStep(Quad(b, c, d, a), x, 15);
    b := FF(b, c, d, a, x[15], 22, 0x49b40821);
    assert Quad(a, b, c, d) == Steps(q, x, 16);
  }

  // Round 2, as the macros are written out.
  method Round2(x: seq<word>, ghost q: Quad, a0: word, b0: word, c0: word, d0: word)
    returns (a: word, b: word, c: word, d: word)
    requires |x| == 16 && Quad(a0, b0, c0, d0) == Steps(q, x, 16)
    ensures Quad(a, b, c, d) == Steps(q, x, 32)
  {
    hide FF, GG, HH, II, Step;
    a, b, c, d := a0, b0, c0, d0;
    MacroStep(Quad(a, b, c, d), x, 16);
    a := GG(a, b, c, d, x[1], 5, 0xf61e2562);
    assert Quad(d, a, b, c) == Steps(q, x, 17);
    MacroStep(Quad(d, a, b, c), x, 17);
    d := GG(d, a, b, c, x[6], 9, 0xc040b340);
    assert Quad(c, d, a, b) == Steps(q, x, 18);
    MacroStep(Quad(c, d, a, b), x, 18);
    c := GG(c, d, a, b, x[11], 14, 0x265e5a51);
    assert Quad(b, c, d, a) == Steps(q, x, 19);
    MacroStep(Quad(b, c, d, a), x, 19);
    b := GG(b, c, d, a, x[0], 20, 0xe9b6c7aa);
    assert Quad(a, b, c, d) == Steps(q, x, 20);
    MacroStep(Quad(a, b, c, d), x, 20);
    a := GG(a, b, c, d, x[5], 5, 0xd62f105d);
    assert Quad(d, a, b, c) == Steps(q, x, 21);
    MacroStep(Quad(d, a, b, c), x, 21);
    d := GG(d, a, b, c, x[10], 9, 0x2441453);
    assert Quad(c, d, a, b) == Steps(q, x, 22);
    MacroStep(Quad(c, d, a, b), x, 22);
    c := GG(c, d, a, b, x[15], 14, 0xd8a1e681);
    assert Quad(b, c, d, a) == Steps(q, x, 23);
    MacroStep(Quad(b, c, d, a), x, 23);
    b := GG(b, c, d, a, x[4], 20, 0xe7d3fbc8);
    assert Quad(a, b, c, d) == Steps(q, x, 24);
    MacroStep(Quad(a, b, c, d), x, 24);
    a := GG(a, b, c, d, x[9], 5, 0x21e1cde6);
    assert Quad(d, a, b, c) == Steps(q, x, 25);
    MacroStep(Quad(d, a, b, c), x, 25);
    d := GG(d, a, b, c, x[14], 9, 0xc33707d6);
    assert Quad(c, d, a, b) == Steps(q, x, 26);
    MacroStep(Quad(c, d, a, b), x, 26);
    c := GG(c, d, a, b, x[3], 14, 0xf4d50d87);
    assert Quad(b, c, d, a) == Steps(q, x, 27);
    MacroStep(Quad(b, c, d, a), x, 27);
    b := GG(b, c, d, a, x[8], 20, 0x455a14ed);
    assert Quad(a, b, c, d) == Steps(q, x, 28);
    MacroStep(Quad(a, b, c, d), x, 28);
    a := GG(a, b, c, d, x[13], 5, 0xa9e3e905);
    assert Quad(d, a, b, c) == Steps(q, x, 29);
    MacroStep(Quad(d, a, b, c), x, 29);
    d := GG(d, a, b, c, x[2], 9, 0xfcefa3f8);
    assert Quad(c, d, a, b) == Steps(q, x, 30);
    MacroStep(Quad(c, d, a, b), x, 30);
    c := GG(c, d, a, b, x[7], 14, 0x676f02d9);
    assert Quad(b, c, d, a) == Steps(q, x, 31);
    MacroStep(Quad(b, c, d, a), x, 31);
    b := GG(b, c, d, a, x[12], 20, 0x8d2a4c8a);
    assert Quad(a, b, c, d) == Steps(q, x, 32);
  }

  // Round 3, as the macros are written out.
  method Round3(x: seq<word>, ghost q: Quad, a0: word, b0: word, c0: word, d0: word)
    returns (a: word, b: word, c: word, d: word)
    requires |x| == 16 && Quad(a0, b0, c0, d0) == Steps(q, x, 32)
    ensures Quad(a, b, c, d) == Steps(q, x, 48)
  {
    hide FF, GG, HH, II, Step;
    a, b, c, d := a0, b0, c0, d0;
    MacroStep(Quad(a, b, c, d), x, 32);
    a := HH(a, b, c, d, x[5], 4, 0xfffa3942);
    assert Quad(d, a, b, c) == Steps(q, x, 33);
    MacroStep(Quad(d, a, b, c), x, 33);
    d := HH(d, a, b, c, x[8], 11, 0x8771f681);
    assert Quad(c, d, a, b) == Steps(q, x, 34);
    MacroStep(Quad(c, d, a, b), x, 34);
    c := HH(c, d, a, b, x[11], 16, 0x6d9d6122);
    assert Quad(b, c, d, a) == Steps(q, x, 35);
    MacroStep(Quad(b, c, d, a), x, 35);
    b := HH(b, c, d, a, x[14], 23, 0xfde5380c);
    assert Quad(a, b, c, d) == Steps(q, x, 36);
    MacroStep(Quad(a, b, c, d), x, 36);
    a := HH(a, b, c, d, x[1], 4, 0xa4beea44);
    assert Quad(d, a, b, c) == Steps(q, x, 37);
    MacroStep(Quad(d, a, b, c), x, 37);
    d := HH(d, a, b, c, x[4], 11, 0x4bdecfa9);
    assert Quad(c, d, a, b) == Steps(q, x, 38);
    MacroStep(Quad(c, d, a, b), x, 38);
    c := HH(c, d, a, b, x[7], 16, 0xf6bb4b60);
    assert Quad(b, c, d, a) == Steps(q, x, 39);
    MacroStep(Quad(b, c, d, a), x, 39);
    b := HH(b, c, d, a, x[10], 23, 0xbebfbc70);
    assert Quad(a, b, c, d) == Steps(q, x, 40);
    MacroStep(Quad(a, b, c, d), x, 40);
    a := HH(a, b, c, d, x[13], 4, 0x289b7ec6);
    assert Quad(d, a, b, c) == Steps(q, x, 41);
    MacroStep(Quad(d, a, b, c), x, 41);
    d := HH(d, a, b, c, x[0], 11, 0xeaa127fa);
    assert Quad(c, d, a, b) == Steps(q, x, 42);
    MacroStep(Quad(c, d, a, b), x, 42);
    c := HH(c, d, a, b, x[3], 16, 0xd4ef3085);
    assert Quad(b, c, d, a) == Steps(q, x, 43);
    MacroStep(Quad(b, c, d, a), x, 43);
    b := HH(b, c, d, a, x[6], 23, 0x4881d05);
    assert Quad(a, b, c, d) == Steps(q, x, 44);
    MacroStep(Quad(a, b, c, d), x, 44);
    a := HH(a, b, c, d, x[9], 4, 0xd9d4d039);
    assert Quad(d, a, b, c) == Steps(q, x, 45);
    MacroStep(Quad(d, a, b, c), x, 45);
    d := HH(d, a, b, c, x[12], 11, 0xe6db99e5);
    assert Quad(c, d, a, b) == Steps(q, x, 46);
    MacroStep(Quad(c, d, a, b), x, 46);
    c := HH(c, d, a, b, x[15], 16, 0x1fa27cf8);
    assert Quad(b, c, d, a) == Steps(q, x, 47);
    MacroStep(Quad(b, c, d, a), x, 47);
    b := HH(b, c, d, a, x[2], 23, 0xc4ac5665);
    assert Quad(a, b, c, d) == Steps(q, x, 48);
  }

  // Round 4, as the macros are written out.
  method Round4(x: seq<word>, ghost q: Quad, a0: word, b0: word, c0: word, d0: word)
    returns (a: word, b: word, c: word, d: word)
    requires |x| == 16 && Quad(a0, b0, c0, d0) == Steps(q, x, 48)
    ensures Quad(a, b, c, d) == Steps(q, x, 64)
  {
    hide FF, GG, HH, II, Step;
    a, b, c, d := a0, b0, c0, d0;
    MacroStep(Quad(a, b, c, d), x, 48);
    a := II(a, b, c, d, x[0], 6, 0xf4292244);
    assert Quad(d, a, b, c) == Steps(q, x, 49);
    MacroStep(Quad(d, a, b, c), x, 49);
    d := II(d, a, b, c, x[7], 10, 0x432aff97);
    assert Quad(c, d, a, b) == Steps(q, x, 50);
    MacroStep(Quad(c, d, a, b), x, 50);
    c := II(c, d, a, b, x[14], 15, 0xab9423a7);
    assert Quad(b, c, d, a) == Steps(q, x, 51);
    MacroStep(Quad(b, c, d, a), x, 51);
    b := II(b, c, d, a, x[5], 21, 0xfc93a039);
    assert Quad(a, b, c, d) == Steps(q, x, 52);
    MacroStep(Quad(a, b, c, d), x, 52);
    a := II(a, b, c, d, x[12], 6, 0x655b59c3);
    assert Quad(d, a, b, c) == Steps(q, x, 53);
    MacroStep(Quad(d, a, b, c), x, 53);
    d := II(d, a, b, c, x[3], 10, 0x8f0ccc92);
    assert Quad(c, d, a, b) == Steps(q, x, 54);
    MacroStep(Quad(c, d, a, b), x, 54);
    c := II(c, d, a, b, x[10], 15, 0xffeff47d);
    assert Quad(b, c, d, a) == Steps(q, x, 55);
    MacroStep(Quad(b, c, d, a), x, 55);
    b := II(b, c, d, a, x[1], 21, 0x85845dd1);
    assert Quad(a, b, c, d) == Steps(q, x, 56);
    MacroStep(Quad(a, b, c, d), x, 56);
    a := II(a, b, c, d, x[8], 6, 0x6fa87e4f);
    assert Quad(d, a, b, c) == Steps(q, x, 57);
    MacroStep(Quad(d, a, b, c), x, 57);
    d := II(d, a, b, c, x[15], 10, 0xfe2ce6e0);
    assert Quad(c, d, a, b) == Steps(q, x, 58);
    MacroStep(Quad(c, d, a, b), x, 58);
    c := II(c, d, a, b, x[6], 15, 0xa3014314);
    assert Quad(b, c, d, a) == Steps(q, x, 59);
    MacroStep(Quad(b, c, d, a), x, 59);
    b := II(b, c, d, a, x[13], 21, 0x4e0811a1);
    assert Quad(a, b, c, d) == Steps(q, x, 60);
    MacroStep(Quad(a, b, c, d), x, 60);
    a := II(a, b, c, d, x[4], 6, 0xf7537e82);
    assert Quad(d, a, b, c) == Steps(q, x, 61);
    MacroStep(Quad(d, a, b, c), x, 61);
    d := II(d, a, b, c, x[11], 10, 0xbd3af235);
    assert Quad(c, d, a, b) == Steps(q, x, 62);
    MacroStep(Quad(c, d, a, b), x, 62);
    c := II(c, d, a, b, x[2], 15, 0x2ad7d2bb);
    assert Quad(b, c, d, a) == Steps(q, x, 63);
    MacroStep(Quad(b, c, d, a), x, 63);
    b := II(b, c, d, a, x[9], 21, 0xeb86d391);
    assert Quad(a, b, c, d) == Steps(q, x, 64);
  }

  method Decode(block: seq<byte>) returns (output: array<word>)
    requires |block| == 64
    ensures fresh(output) && output[..] == Decoded(block)
  {
    hide Joined;
    output := new word[16];
    var i, j := 0, 0;
    while j < 64
      invariant i <= 16 && j == 4 * i
      invariant forall k :: 0 <= k < i ==> output[k] == WordAt(block, 4 * k)
    {
      output[i] := Joined(block[j], block[j + 1], block[j + 2], block[j + 3]);
      i, j := i + 1, j + 4;
    }
  }

  method Encode(input: seq<word>, len: nat) returns (output: array<byte>)
    requires len == 4 * |input|
    ensures fresh(output) && output[..] == Encoded(input)
  {
    output := new byte[len];
    var i, j := 0, 0;
    while j < len
      invariant i <= |input| && j == 4 * i
      invariant output[..j] == Encoded(input[..i])
    {
      output[j] := input[i] % 0x100;
      output[j + 1] := input[i] / 0x100 % 0x100;
      output[j + 2] := input[i] / 0x1_0000 % 0x100;
      output[j + 3] := input[i] / 0x100_0000 % 0x100;
      assert input[..i + 1][..i] == input[..i];
      assert output[..j + 4] == output[..j] + WordBytes(input[i]);
      i, j := i + 1, j + 4;
    }
    assert input[..i] == input && output[..j] == output[..];
  }

  /** MD5_Transform. */
  method Transform(state: array<word>, block: seq<byte>)
    requires state.Length == 4 && |block| == 64
    modifies state
    ensures Quad(state[0], state[1], state[2], state[3])
         == Compress(old(Quad(state[0], state[1], state[2], state[3])), block)
  {
    hide Steps, Decoded;
    var a, b, c, d := state[0], state[1], state[2], state[3];
    var output := Decode(block);
    var x := output[..];
    ghost var q := Quad(a, b, c, d);
    NoSteps(q, x);
    a, b, c, d := Round1(x, q, a, b, c, d);
    a, b, c, d := Round2(x, q, a, b, c, d);
    a, b, c, d := Round3(x, q, a, b, c, d);
    a, b, c, d := Round4(x, q, a, b, c, d);
    state[0] := Add(state[0], a);
    state[1] := Add(state[1], b);
    state[2] := Add(state[2], c);
    state[3] := Add(state[3], d);
  }

  lemma NoSteps(q: Quad, x: seq<word>)
    requires |x| == 16
    ensures Steps(q, x, 0) == q
  {
  }
}
