/** The S-box of section 5.1.1 of FIPS 197: an affine map of the inverse in GF(2^8). */
module AesSBox {
  import opened AesTables

  // v, if b has the bit.
  function Part(b: bv8, bit: bv8, v: bv8): bv8 { if b & bit != 0 then v else 0 }

  // The product in GF(2^8): the sum of a times x^i for the bits i of b (section 4.2).
  function Times(a: bv8, b: bv8): bv8 {
    var a1 := Xtime(a);
    var a2 := Xtime(a1);
    var a3 := Xtime(a2);
    var a4 := Xtime(a3);
    var a5 := Xtime(a4);
    var a6 := Xtime(a5);
    var a7 := Xtime(a6);
    Part(b, 0x01, a) ^ Part(b, 0x02, a1) ^ Part(b, 0x04, a2) ^ Part(b, 0x08, a3)
    ^ Part(b, 0x10, a4) ^ Part(b, 0x20, a5) ^ Part(b, 0x40, a6) ^ Part(b, 0x80, a7)
  }

  // b with each bit added to the four above it, around the end, and the constant 0x63.
  function Affine(b: bv8): bv8 {
    b ^ ((b << 1) | (b >> 7)) ^ ((b << 2) | (b >> 6)) ^ ((b << 3) | (b >> 5)) ^ ((b << 4) | (b >> 4)) ^ 0x63
  }

  function Unaffine(s: bv8): bv8 {
    ((s << 1) | (s >> 7)) ^ ((s << 3) | (s >> 5)) ^ ((s << 6) | (s >> 2)) ^ 0x05
  }

  lemma UnaffineAffine(b: bv8)
    ensures Affine(Unaffine(b)) == b
  {
  }

  lemma Row00(x: bv8) requires 0x00 <= x <= 0x0f && x != 0 ensures Times(x, Unaffine(SBox(x))) == 1 {}

  lemma Row10(x: bv8) requires 0x10 <= x <= 0x1f && x != 0 ensures Times(x, Unaffine(SBox(x))) == 1 {}

  lemma Row20(x: bv8) requires 0x20 <= x <= 0x2f && x != 0 ensures Times(x, Unaffine(SBox(x))) == 1 {}

  lemma Row30(x: bv8) requires 0x30 <= x <= 0x3f && x != 0 ensures Times(x, Unaffine(SBox(x))) == 1 {}

  lemma Row40(x: bv8) requires 0x40 <= x <= 0x4f && x != 0 ensures Times(x, Unaffine(SBox(x))) == 1 {}

  lemma Row50(x: bv8) requires 0x50 <= x <= 0x5f && x != 0 ensures Times(x, Unaffine(SBox(x))) == 1 {}

  lemma Row60(x: bv8) requires 0x60 <= x <= 0x6f && x != 0 ensures Times(x, Unaffine(SBox(x))) == 1 {}

  lemma Row70(x: bv8) requires 0x70 <= x <= 0x7f && x != 0 ensures Times(x, Unaffine(SBox(x))) == 1 {}

  lemma Row80(x: bv8) requires 0x80 <= x <= 0x8f && x != 0 ensures Times(x, Unaffine(SBox(x))) == 1 {}

  lemma Row90(x: bv8) requires 0x90 <= x <= 0x9f && x != 0 ensures Times(x, Unaffine(SBox(x))) == 1 {}

  lemma Rowa0(x: bv8) requires 0xa0 <= x <= 0xaf && x != 0 ensures Times(x, Unaffine(SBox(x))) == 1 {}

  lemma Rowb0(x: bv8) requires 0xb0 <= x <= 0xbf && x != 0 ensures Times(x, Unaffine(SBox(x))) == 1 {}

  lemma Rowc0(x: bv8) requires 0xc0 <= x <= 0xcf && x != 0 ensures Times(x, Unaffine(SBox(x))) == 1 {}

  lemma Rowd0(x: bv8) requires 0xd0 <= x <= 0xdf && x != 0 ensures Times(x, Unaffine(SBox(x))) == 1 {}

  lemma Rowe0(x: bv8) requires 0xe0 <= x <= 0xef && x != 0 ensures Times(x, Unaffine(SBox(x))) == 1 {}

  lemma Rowf0(x: bv8) requires 0xf0 <= x <= 0xff && x != 0 ensures Times(x, Unaffine(SBox(x))) == 1 {}

  lemma Back00(x: bv8, y: bv8) requires 0x00 <= x <= 0x0f && Times(x, y) == 1 ensures SBox(x) == Affine(y) {}

  lemma Back10(x: bv8, y: bv8) requires 0x10 <= x <= 0x1f && Times(x, y) == 1 ensures SBox(x) == Affine(y) {}

  lemma Back20(x: bv8, y: bv8) requires 0x20 <= x <= 0x2f && Times(x, y) == 1 ensures SBox(x) == Affine(y) {}

  lemma Back30(x: bv8, y: bv8) requires 0x30 <= x <= 0x3f && Times(x, y) == 1 ensures SBox(x) == Affine(y) {}

  lemma Back40(x: bv8, y: bv8) requires 0x40 <= x <= 0x4f && Times(x, y) == 1 ensures SBox(x) == Affine(y) {}

  lemma Back50(x: bv8, y: bv8) requires 0x50 <= x <= 0x5f && Times(x, y) == 1 ensures SBox(x) == Affine(y) {}

  lemma Back60(x: bv8, y: bv8) requires 0x60 <= x <= 0x6f && Times(x, y) == 1 ensures SBox(x) == Affine(y) {}

  lemma Back70(x: bv8, y: bv8) requires 0x70 <= x <= 0x7f && Times(x, y) == 1 ensures SBox(x) == Affine(y) {}

  lemma Back80(x: bv8, y: bv8) requires 0x80 <= x <= 0x8f && Times(x, y) == 1 ensures SBox(x) == Affine(y) {}

  lemma Back90(x: bv8, y: bv8) requires 0x90 <= x <= 0x9f && Times(x, y) == 1 ensures SBox(x) == Affine(y) {}

  lemma Backa0(x: bv8, y: bv8) requires 0xa0 <= x <= 0xaf && Times(x, y) == 1 ensures SBox(x) == Affine(y) {}

  lemma Backb0(x: bv8, y: bv8) requires 0xb0 <= x <= 0xbf && Times(x, y) == 1 ensures SBox(x) == Affine(y) {}

  lemma Backc0(x: bv8, y: bv8) requires 0xc0 <= x <= 0xcf && Times(x, y) == 1 ensures SBox(x) == Affine(y) {}

  lemma Backd0(x: bv8, y: bv8) requires 0xd0 <= x <= 0xdf && Times(x, y) == 1 ensures SBox(x) == Affine(y) {}

  lemma Backe0(x: bv8, y: bv8) requires 0xe0 <= x <= 0xef && Times(x, y) == 1 ensures SBox(x) == Affine(y) {}

  lemma Backf0(x: bv8, y: bv8) requires 0xf0 <= x <= 0xff && Times(x, y) == 1 ensures SBox(x) == Affine(y) {}

  /** The literal S-box takes x to the affine map of its inverse, and of no other byte; 0 has no inverse and counts
      for its own. */
  lemma SBoxIsAffineOfInverse(x: bv8, y: bv8)
    ensures SBox(0) == Affine(0)
    ensures x != 0 ==> (Times(x, y) == 1 <==> SBox(x) == Affine(y))
  {
    hide Times, SBox, Affine, Unaffine;
    SBoxOfZero();
    AffineUnaffine(y);
    UnaffineAffine(SBox(x));
    if x == 0 {
    }
    else if x < 0x10 { if Times(x, y) == 1 { Back00(x, y); } Row00(x); }
    else if x < 0x20 { if Times(x, y) == 1 { Back10(x, y); } Row10(x); }
    else if x < 0x30 { if Times(x, y) == 1 { Back20(x, y); } Row20(x); }
    else if x < 0x40 { if Times(x, y) == 1 { Back30(x, y); } Row30(x); }
    else if x < 0x50 { if Times(x, y) == 1 { Back40(x, y); } Row40(x); }
    else if x < 0x60 { if Times(x, y) == 1 { Back50(x, y); } Row50(x); }
    else if x < 0x70 { if Times(x, y) == 1 { Back60(x, y); } Row60(x); }
    else if x < 0x80 { if Times(x, y) == 1 { Back70(x, y); } Row70(x); }
    else if x < 0x90 { if Times(x, y) == 1 { Back80(x, y); } Row80(x); }
    else if x < 0xa0 { if Times(x, y) == 1 { Back90(x, y); } Row90(x); }
    else if x < 0xb0 { if Times(x, y) == 1 { Backa0(x, y); } Rowa0(x); }
    else if x < 0xc0 { if Times(x, y) == 1 { Backb0(x, y); } Rowb0(x); }
    else if x < 0xd0 { if Times(x, y) == 1 { Backc0(x, y); } Rowc0(x); }
    else if x < 0xe0 { if Times(x, y) == 1 { Backd0(x, y); } Rowd0(x); }
    else if x < 0xf0 { if Times(x, y) == 1 { Backe0(x, y); } Rowe0(x); }
    else { if Times(x, y) == 1 { Backf0(x, y); } Rowf0(x); }
  }

  lemma SBoxOfZero()
    ensures SBox(0) == Affine(0)
  {
  }

  /** Every byte but 0 has exactly one inverse. */
  lemma InverseExists(x: bv8, y: bv8)
    requires x != 0
    ensures Times(x, Unaffine(SBox(x))) == 1
    ensures Times(x, y) == 1 ==> y == Unaffine(SBox(x))
  {
    hide Times, SBox;
    SBoxIsAffineOfInverse(x, Unaffine(SBox(x)));
    SBoxIsAffineOfInverse(x, y);
    UnaffineAffine(SBox(x));
    AffineUnaffine(y);
  }

  lemma AffineUnaffine(b: bv8)
    ensures Unaffine(Affine(b)) == b
  {
  }
}
