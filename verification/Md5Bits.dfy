/** What the operations of MD5 compute, bit by bit, and the bytes it starts from (RFC 1321, sections 3.3 and 3.4). */
module Md5Bits {
  import opened Md5Transform
  import opened Md5

  // A single bit, and whether a word has it.
  predicate IsBit(m: bv32) { m != 0 && m & (m - 1) == 0 }

  predicate Has(b: bv32, m: bv32) { b & m != 0 }

  lemma BackAgain(b: bv32)
    ensures (b as nat) as bv32 == b
  {
  }

  /** Every bit of F is that of y where x has the bit, and of z elsewhere. */
  lemma FChooses(x: word, y: word, z: word, m: bv32)
    requires IsBit(m)
    ensures Has(F(x, y, z) as bv32, m) <==> if Has(x as bv32, m) then Has(y as bv32, m) else Has(z as bv32, m)
  {
    hide FBits, Has, IsBit;
    FBit(x as bv32, y as bv32, z as bv32, m);
    BackAgain(FBits(x as bv32, y as bv32, z as bv32));
  }

  lemma FBit(a: bv32, b: bv32, c: bv32, m: bv32)
    requires IsBit(m)
    ensures Has(FBits(a, b, c), m) <==> if Has(a, m) then Has(b, m) else Has(c, m)
  {
    FMask(a, b, c, m);
  }

  lemma FMask(a: bv32, b: bv32, c: bv32, m: bv32)
    requires m != 0 && m & (m - 1) == 0
    ensures ((a & b) | (!a & c)) & m != 0 <==> if a & m != 0 then b & m != 0 else c & m != 0
  {
  }

  /** Every bit of G is that of x where z has the bit, and of y elsewhere. */
  lemma GChooses(x: word, y: word, z: word, m: bv32)
    requires IsBit(m)
    ensures Has(G(x, y, z) as bv32, m) <==> if Has(z as bv32, m) then Has(x as bv32, m) else Has(y as bv32, m)
  {
    hide GBits, Has, IsBit;
    GBit(x as bv32, y as bv32, z as bv32, m);
    BackAgain(GBits(x as bv32, y as bv32, z as bv32));
  }

  lemma GBit(a: bv32, b: bv32, c: bv32, m: bv32)
    requires IsBit(m)
    ensures Has(GBits(a, b, c), m) <==> if Has(c, m) then Has(a, m) else Has(b, m)
  {
    GMask(a, b, c, m);
  }

  lemma GMask(a: bv32, b: bv32, c: bv32, m: bv32)
    requires m != 0 && m & (m - 1) == 0
    ensures ((a & c) | (b & !c)) & m != 0 <==> if c & m != 0 then a & m != 0 else b & m != 0
  {
  }

  /** H has a bit where an odd number of the three have it. */
  lemma HIsParity(x: word, y: word, z: word, m: bv32)
    requires IsBit(m)
    ensures Has(H(x, y, z) as bv32, m) <==> (Has(x as bv32, m) != Has(y as bv32, m)) != Has(z as bv32, m)
  {
    hide HBits, Has, IsBit;
    HBit(x as bv32, y as bv32, z as bv32, m);
    BackAgain(HBits(x as bv32, y as bv32, z as bv32));
  }

  lemma HBit(a: bv32, b: bv32, c: bv32, m: bv32)
    requires IsBit(m)
    ensures Has(HBits(a, b, c), m) <==> (Has(a, m) != Has(b, m)) != Has(c, m)
  {
    HMask(a, b, c, m);
  }

  lemma HMask(a: bv32, b: bv32, c: bv32, m: bv32)
    requires m != 0 && m & (m - 1) == 0
    ensures (a ^ b ^ c) & m != 0 <==> ((a & m != 0) != (b & m != 0)) != (c & m != 0)
  {
  }

  /** I has the bit of y, turned where x has it or z has not. */
  lemma ITurns(x: word, y: word, z: word, m: bv32)
    requires IsBit(m)
    ensures Has(I(x, y, z) as bv32, m) <==> Has(y as bv32, m) != (Has(x as bv32, m) || !Has(z as bv32, m))
  {
    hide IBits, Has, IsBit;
    IBit(x as bv32, y as bv32, z as bv32, m);
    BackAgain(IBits(x as bv32, y as bv32, z as bv32));
  }

  lemma IBit(a: bv32, b: bv32, c: bv32, m: bv32)
    requires IsBit(m)
    ensures Has(IBits(a, b, c), m) <==> Has(b, m) != (Has(a, m) || !Has(c, m))
  {
    IMask(a, b, c, m);
  }

  lemma IMask(a: bv32, b: bv32, c: bv32, m: bv32)
    requires m != 0 && m & (m - 1) == 0
    ensures (b ^ (a | !c)) & m != 0 <==> (b & m != 0) != (a & m != 0 || c & m == 0)
  {
  }

  // ---- The rotation ----

  // The bit n places up, around the end.
  function Up(m: bv32, n: nat): bv32 {
    if n == 0 then m
    else
      var u := Up(m, n - 1);
      if u == 0x8000_0000 then 1 else u + u
  }

  lemma {:induction false} UpIsBit(m: bv32, n: nat)
    requires IsBit(m)
    ensures IsBit(Up(m, n))
  {
    if n > 0 {
      UpIsBit(m, n - 1);
      OneUp(Up(m, n - 1));
    }
  }

  lemma OneUp(m: bv32)
    requires IsBit(m)
    ensures IsBit(if m == 0x8000_0000 then 1 else m + m)
  {
  }

  function Once(b: bv32): bv32 { (b << 1) | (b >> 31) }

  lemma OnceMoves(b: bv32, m: bv32)
    requires IsBit(m)
    ensures Has(Once(b), if m == 0x8000_0000 then 1 else m + m) <==> Has(b, m)
  {
  }

  lemma By1(b: bv32)
    ensures RotateBits(b, 1) == Once(b)
  {
    var n := 1;
    assert RotateBits(b, n) == (b << 1) | (b >> 31);
  }

  lemma By2(b: bv32) ensures RotateBits(b, 2) == Once(RotateBits(b, 1)) {}

  lemma By3(b: bv32) ensures RotateBits(b, 3) == Once(RotateBits(b, 2)) {}

  lemma By4(b: bv32) ensures RotateBits(b, 4) == Once(RotateBits(b, 3)) {}

  lemma By5(b: bv32) ensures RotateBits(b, 5) == Once(RotateBits(b, 4)) {}

  lemma By6(b: bv32) ensures RotateBits(b, 6) == Once(RotateBits(b, 5)) {}

  lemma By7(b: bv32) ensures RotateBits(b, 7) == Once(RotateBits(b, 6)) {}

  lemma By8(b: bv32) ensures RotateBits(b, 8) == Once(RotateBits(b, 7)) {}

  lemma By9(b: bv32) ensures RotateBits(b, 9) == Once(RotateBits(b, 8)) {}

  lemma By10(b: bv32) ensures RotateBits(b, 10) == Once(RotateBits(b, 9)) {}

  lemma By11(b: bv32) ensures RotateBits(b, 11) == Once(RotateBits(b, 10)) {}

  lemma By12(b: bv32) ensures RotateBits(b, 12) == Once(RotateBits(b, 11)) {}

  lemma By13(b: bv32) ensures RotateBits(b, 13) == Once(RotateBits(b, 12)) {}

  lemma By14(b: bv32) ensures RotateBits(b, 14) == Once(RotateBits(b, 13)) {}

  lemma By15(b: bv32) ensures RotateBits(b, 15) == Once(RotateBits(b, 14)) {}

  lemma By16(b: bv32) ensures RotateBits(b, 16) == Once(RotateBits(b, 15)) {}

  lemma By17(b: bv32) ensures RotateBits(b, 17) == Once(RotateBits(b, 16)) {}

  lemma By18(b: bv32) ensures RotateBits(b, 18) == Once(RotateBits(b, 17)) {}

  lemma By19(b: bv32) ensures RotateBits(b, 19) == Once(RotateBits(b, 18)) {}

  lemma By20(b: bv32) ensures RotateBits(b, 20) == Once(RotateBits(b, 19)) {}

  lemma By21(b: bv32) ensures RotateBits(b, 21) == Once(RotateBits(b, 20)) {}

  lemma By22(b: bv32) ensures RotateBits(b, 22) == Once(RotateBits(b, 21)) {}

  lemma By23(b: bv32) ensures RotateBits(b, 23) == Once(RotateBits(b, 22)) {}

  lemma By24(b: bv32) ensures RotateBits(b, 24) == Once(RotateBits(b, 23)) {}

  lemma By25(b: bv32) ensures RotateBits(b, 25) == Once(RotateBits(b, 24)) {}

  lemma By26(b: bv32) ensures RotateBits(b, 26) == Once(RotateBits(b, 25)) {}

  lemma By27(b: bv32) ensures RotateBits(b, 27) == Once(RotateBits(b, 26)) {}

  lemma By28(b: bv32) ensures RotateBits(b, 28) == Once(RotateBits(b, 27)) {}

  lemma By29(b: bv32) ensures RotateBits(b, 29) == Once(RotateBits(b, 28)) {}

  lemma By30(b: bv32) ensures RotateBits(b, 30) == Once(RotateBits(b, 29)) {}

  lemma By31(b: bv32) ensures RotateBits(b, 31) == Once(RotateBits(b, 30)) {}

  lemma OneMore(b: bv32, n: nat)
    requires 0 < n < 32
    ensures n == 1 ==> RotateBits(b, 1) == Once(b)
    ensures n > 1 ==> RotateBits(b, n) == Once(RotateBits(b, n - 1))
  {
    hide Once;
    hide RotateBits;
    if n == 1 { By1(b); }
    else if n == 2 { By2(b); }
    else if n == 3 { By3(b); }
    else if n == 4 { By4(b); }
    else if n == 5 { By5(b); }
    else if n == 6 { By6(b); }
    else if n == 7 { By7(b); }
    else if n == 8 { By8(b); }
    else if n == 9 { By9(b); }
    else if n == 10 { By10(b); }
    else if n == 11 { By11(b); }
    else if n == 12 { By12(b); }
    else if n == 13 { By13(b); }
    else if n == 14 { By14(b); }
    else if n == 15 { By15(b); }
    else if n == 16 { By16(b); }
    else if n == 17 { By17(b); }
    else if n == 18 { By18(b); }
    else if n == 19 { By19(b); }
    else if n == 20 { By20(b); }
    else if n == 21 { By21(b); }
    else if n == 22 { By22(b); }
    else if n == 23 { By23(b); }
    else if n == 24 { By24(b); }
    else if n == 25 { By25(b); }
    else if n == 26 { By26(b); }
    else if n == 27 { By27(b); }
    else if n == 28 { By28(b); }
    else if n == 29 { By29(b); }
    else if n == 30 { By30(b); }
    else if n == 31 { By31(b); }
  }

  lemma {:induction false} BitsMove(b: bv32, n: nat, m: bv32)
    requires IsBit(m) && 0 < n < 32
    ensures Has(RotateBits(b, n), Up(m, n)) <==> Has(b, m)
  {
    hide Has, Once, RotateBits, IsBit;
    OneMore(b, n);
    UpIsBit(m, n - 1);
    if n == 1 {
      assert Up(m, 0) == m;
      OnceMoves(b, m);
    } else {
      BitsMove(b, n - 1, m);
      OnceMoves(RotateBits(b, n - 1), Up(m, n - 1));
    }
  }

  /** A rotation by n moves every bit up by n places, around the end. */
  lemma RotationMoves(x: word, n: nat, m: bv32)
    requires IsBit(m) && 0 < n < 32
    ensures Has(RotateLeft(x, n) as bv32, Up(m, n)) <==> Has(x as bv32, m)
  {
    hide Has, IsBit, Up, RotateBits;
    BitsMove(x as bv32, n, m);
    BackAgain(RotateBits(x as bv32, n));
  }

  // ---- The start ----

  /** The four words MD5 starts from are, byte by byte in memory, 01 to ef and back down to 10. */
  lemma StartBytes()
    ensures var q := Fold([]);
            Encoded([q.a, q.b, q.c, q.d])
            == [0x01, 0x23, 0x45, 0x67, 0x89, 0xab, 0xcd, 0xef, 0xfe, 0xdc, 0xba, 0x98, 0x76, 0x54, 0x32, 0x10]
  {
    var a, b, c, d := INIT.a, INIT.b, INIT.c, INIT.d;
    assert [a, b, c, d][..3] == [a, b, c] && [a, b, c][..2] == [a, b] && [a, b][..1] == [a] && [a][..0] == [];
    assert Encoded([a]) == WordBytes(a) == [0x01, 0x23, 0x45, 0x67];
    assert WordBytes(b) == [0x89, 0xab, 0xcd, 0xef];
    assert WordBytes(c) == [0xfe, 0xdc, 0xba, 0x98];
    assert WordBytes(d) == [0x76, 0x54, 0x32, 0x10];
    assert Encoded([a, b]) == WordBytes(a) + WordBytes(b);
    assert Encoded([a, b, c]) == WordBytes(a) + WordBytes(b) + WordBytes(c);
  }
}
