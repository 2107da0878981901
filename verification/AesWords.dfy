/** The word expressions of aes_core.c, each tied to the columns of the byte-level cipher. */
module AesWords {
  import opened AesTables
  import opened AesSpec

  // One word of a full encryption round.
  function EncWord(a: bv32, b: bv32, c: bv32, d: bv32, k: bv32): bv32 {
    Xor(Xor4(Te0(Byte0(a)), Te1(Byte1(b)), Te2(Byte2(c)), Te3(Byte3(d))), k)
  }

  // One word of a full decryption round.
  function DecWord(a: bv32, b: bv32, c: bv32, d: bv32, k: bv32): bv32 {
    Xor(Xor4(Td0(Byte0(a)), Td1(Byte1(b)), Td2(Byte2(c)), Td3(Byte3(d))), k)
  }

  // Four S-box bytes picked out of the encryption tables, as the last round and the key schedule do.
  function SubBytesOf(a: bv8, b: bv8, c: bv8, d: bv8): bv32 {
    Xor4(Te2(a) & 0xff00_0000, Te3(b) & 0x00ff_0000, Te0(c) & 0x0000_ff00, Te1(d) & 0x0000_00ff)
  }

  function EncLastWord(a: bv32, b: bv32, c: bv32, d: bv32, k: bv32): bv32 {
    Xor(SubBytesOf(Byte0(a), Byte1(b), Byte2(c), Byte3(d)), k)
  }

  function DecLastWord(a: bv32, b: bv32, c: bv32, d: bv32, k: bv32): bv32 {
    Xor(Xor4(InvSBox(Byte0(a)) as bv32 << 24, InvSBox(Byte1(b)) as bv32 << 16,
             InvSBox(Byte2(c)) as bv32 << 8, InvSBox(Byte3(d)) as bv32), k)
  }

  // The inverse MixColumn of a round key word, read from the tables.
  function InvMixWord(w: bv32): bv32 {
    Xor4(Td0(Byte3(Te1(Byte0(w)))), Td1(Byte3(Te1(Byte1(w)))),
         Td2(Byte3(Te1(Byte2(w)))), Td3(Byte3(Te1(Byte3(w)))))
  }

  // ---- Exclusive or of words, byte by byte ----

  lemma XorByte0(v: bv32, w: bv32) ensures Byte0(Xor(v, w)) == Add(Byte0(v), Byte0(w)) {}

  lemma XorByte1(v: bv32, w: bv32) ensures Byte1(Xor(v, w)) == Add(Byte1(v), Byte1(w)) {}

  lemma XorByte2(v: bv32, w: bv32) ensures Byte2(Xor(v, w)) == Add(Byte2(v), Byte2(w)) {}

  lemma XorByte3(v: bv32, w: bv32) ensures Byte3(Xor(v, w)) == Add(Byte3(v), Byte3(w)) {}

  lemma XorColumns(v: bv32, w: bv32)
    ensures ColumnOf(Xor(v, w)) == XorColumn(ColumnOf(v), ColumnOf(w))
  {
    hide Xor, Byte0, Byte1, Byte2, Byte3, Add;
    XorByte0(v, w);
    XorByte1(v, w);
    XorByte2(v, w);
    XorByte3(v, w);
  }

  lemma Xor4Columns(a: Column, b: Column, c: Column, d: Column)
    ensures ColumnOf(Xor4(WordOf(a), WordOf(b), WordOf(c), WordOf(d)))
         == Column(Sum4(a.b0, b.b0, c.b0, d.b0), Sum4(a.b1, b.b1, c.b1, d.b1),
                   Sum4(a.b2, b.b2, c.b2, d.b2), Sum4(a.b3, b.b3, c.b3, d.b3))
  {
    hide Xor, Byte0, Byte1, Byte2, Byte3, Add, ColumnOf, WordOf;
    var wa, wb, wc, wd := WordOf(a), WordOf(b), WordOf(c), WordOf(d);
    ColumnWord(a, 0);
    ColumnWord(b, 0);
    ColumnWord(c, 0);
    ColumnWord(d, 0);
    XorColumns(wa, wb);
    XorColumns(Xor(wa, wb), wc);
    XorColumns(Xor(Xor(wa, wb), wc), wd);
  }

  // ---- The word expressions compute columns of the rounds ----

  lemma EncWordColumn(a: bv32, b: bv32, c: bv32, d: bv32, k: bv32)
    ensures ColumnOf(EncWord(a, b, c, d, k))
         == XorColumn(MixColumn(Column(SBox(Byte0(a)), SBox(Byte1(b)), SBox(Byte2(c)), SBox(Byte3(d)))), ColumnOf(k))
  {
    hide Te0, Te1, Te2, Te3, SBox, Byte0, Byte1, Byte2, Byte3, Word, Xor, Xor4;
    hide Mul2, Mul3, Sum4, Add, XorColumn, ColumnOf;
    TeTablesMatch(Byte0(a));
    TeTablesMatch(Byte1(b));
    TeTablesMatch(Byte2(c));
    TeTablesMatch(Byte3(d));
    var s0, s1, s2, s3 := SBox(Byte0(a)), SBox(Byte1(b)), SBox(Byte2(c)), SBox(Byte3(d));
    Xor4Columns(Column(Mul2(s0), s0, s0, Mul3(s0)), Column(Mul3(s1), Mul2(s1), s1, s1),
                Column(s2, Mul3(s2), Mul2(s2), s2), Column(s3, s3, Mul3(s3), Mul2(s3)));
    XorColumns(Xor4(Te0(Byte0(a)), Te1(Byte1(b)), Te2(Byte2(c)), Te3(Byte3(d))), k);
  }

  lemma DecWordColumn(a: bv32, b: bv32, c: bv32, d: bv32, k: bv32)
    ensures ColumnOf(DecWord(a, b, c, d, k))
         == XorColumn(InvMixColumn(Column(InvSBox(Byte0(a)), InvSBox(Byte1(b)), InvSBox(Byte2(c)), InvSBox(Byte3(d)))),
                      ColumnOf(k))
  {
    hide Td0, Td1, Td2, Td3, InvSBox, Byte0, Byte1, Byte2, Byte3, Word, Xor, Xor4;
    hide Mul9, Mulb, Muld, Mule, Sum4, Add, XorColumn, ColumnOf;
    var s0, s1, s2, s3 := InvSBox(Byte0(a)), InvSBox(Byte1(b)), InvSBox(Byte2(c)), InvSBox(Byte3(d));
    TdTablesMatch(Byte0(a));
    TdTablesMatch(Byte1(b));
    TdTablesMatch(Byte2(c));
    TdTablesMatch(Byte3(d));
    TdColumns(s0, s1, s2, s3);
    XorColumns(Xor4(Td0(Byte0(a)), Td1(Byte1(b)), Td2(Byte2(c)), Td3(Byte3(d))), k);
  }

  // The four products of Td0..Td3 add up to one inverse-mixed column.
  lemma TdColumns(s0: bv8, s1: bv8, s2: bv8, s3: bv8)
    ensures ColumnOf(Xor4(Word(Mule(s0), Mul9(s0), Muld(s0), Mulb(s0)), Word(Mulb(s1), Mule(s1), Mul9(s1), Muld(s1)),
                          Word(Muld(s2), Mulb(s2), Mule(s2), Mul9(s2)), Word(Mul9(s3), Muld(s3), Mulb(s3), Mule(s3))))
         == InvMixColumn(Column(s0, s1, s2, s3))
  {
    hide Word, Xor4, Mul9, Mulb, Muld, Mule, Sum4, ColumnOf;
    Xor4Columns(Column(Mule(s0), Mul9(s0), Muld(s0), Mulb(s0)), Column(Mulb(s1), Mule(s1), Mul9(s1), Muld(s1)),
                Column(Muld(s2), Mulb(s2), Mule(s2), Mul9(s2)), Column(Mul9(s3), Muld(s3), Mulb(s3), Mule(s3)));
  }

  lemma MaskedBytes(a: bv8, b: bv8, c: bv8, d: bv8)
    ensures Word(a, b, c, d) & 0xff00_0000 == Word(a, 0, 0, 0)
    ensures Word(a, b, c, d) & 0x00ff_0000 == Word(0, b, 0, 0)
    ensures Word(a, b, c, d) & 0x0000_ff00 == Word(0, 0, c, 0)
    ensures Word(a, b, c, d) & 0x0000_00ff == Word(0, 0, 0, d)
  {
  }

  lemma SubBytesOfColumn(a: bv8, b: bv8, c: bv8, d: bv8)
    ensures ColumnOf(SubBytesOf(a, b, c, d)) == Column(SBox(a), SBox(b), SBox(c), SBox(d))
  {
    hide Te0, Te1, Te2, Te3, SBox, Word, Xor4, Mul2, Mul3, Sum4, ColumnOf;
    TeTablesMatch(a);
    TeTablesMatch(b);
    TeTablesMatch(c);
    TeTablesMatch(d);
    var s0, s1, s2, s3 := SBox(a), SBox(b), SBox(c), SBox(d);
    MaskedBytes(s0, Mul3(s0), Mul2(s0), s0);
    MaskedBytes(s1, s1, Mul3(s1), Mul2(s1));
    MaskedBytes(Mul2(s2), s2, s2, Mul3(s2));
    MaskedBytes(Mul3(s3), Mul2(s3), s3, s3);
    Xor4Columns(Column(s0, 0, 0, 0), Column(0, s1, 0, 0), Column(0, 0, s2, 0), Column(0, 0, 0, s3));
    Sum4Zero(s0);
    Sum4Zero(s1);
    Sum4Zero(s2);
    Sum4Zero(s3);
  }

  lemma EncLastWordColumn(a: bv32, b: bv32, c: bv32, d: bv32, k: bv32)
    ensures ColumnOf(EncLastWord(a, b, c, d, k))
         == XorColumn(Column(SBox(Byte0(a)), SBox(Byte1(b)), SBox(Byte2(c)), SBox(Byte3(d))), ColumnOf(k))
  {
    hide SBox, Byte0, Byte1, Byte2, Byte3, Xor, SubBytesOf, ColumnOf, XorColumn;
    SubBytesOfColumn(Byte0(a), Byte1(b), Byte2(c), Byte3(d));
    XorColumns(SubBytesOf(Byte0(a), Byte1(b), Byte2(c), Byte3(d)), k);
  }

  lemma ShiftedBytes(a: bv8, b: bv8, c: bv8, d: bv8)
    ensures Xor4(a as bv32 << 24, b as bv32 << 16, c as bv32 << 8, d as bv32) == Word(a, b, c, d)
  {
  }

  lemma DecLastWordColumn(a: bv32, b: bv32, c: bv32, d: bv32, k: bv32)
    ensures ColumnOf(DecLastWord(a, b, c, d, k))
         == XorColumn(Column(InvSBox(Byte0(a)), InvSBox(Byte1(b)), InvSBox(Byte2(c)), InvSBox(Byte3(d))), ColumnOf(k))
  {
    hide InvSBox, Byte0, Byte1, Byte2, Byte3, Xor, Xor4, ColumnOf, XorColumn, Word;
    var s0, s1, s2, s3 := InvSBox(Byte0(a)), InvSBox(Byte1(b)), InvSBox(Byte2(c)), InvSBox(Byte3(d));
    ShiftedBytes(s0, s1, s2, s3);
    ColumnWord(Column(s0, s1, s2, s3), 0);
    XorColumns(Word(s0, s1, s2, s3), k);
  }

  /** Looking a key word up in Te1 and then Td0..Td3 applies InvMixColumn to it: the S-box and its inverse cancel. */
  lemma InvMixWordColumn(w: bv32)
    ensures ColumnOf(InvMixWord(w)) == InvMixColumn(ColumnOf(w))
  {
    hide Te1, Td0, Td1, Td2, Td3, SBox, InvSBox, Byte0, Byte1, Byte2, Byte3, Word, Xor4, Mul9, Mulb, Muld, Mule, Sum4;
    Te1LowByte(Byte0(w));
    Te1LowByte(Byte1(w));
    Te1LowByte(Byte2(w));
    Te1LowByte(Byte3(w));
    TdTablesMatch(SBox(Byte0(w)));
    TdTablesMatch(SBox(Byte1(w)));
    TdTablesMatch(SBox(Byte2(w)));
    TdTablesMatch(SBox(Byte3(w)));
    SBoxInverse(Byte0(w));
    SBoxInverse(Byte1(w));
    SBoxInverse(Byte2(w));
    SBoxInverse(Byte3(w));
    TdColumns(Byte0(w), Byte1(w), Byte2(w), Byte3(w));
  }

  lemma Te1LowByte(x: bv8)
    ensures Byte3(Te1(x)) == SBox(x)
  {
    hide Te0, Te1, Te2, Te3, SBox, Byte0, Byte1, Byte2, Byte3, Word, Mul2, Mul3;
    TeTablesMatch(x);
    WordBytes(Mul3(SBox(x)), Mul2(SBox(x)), SBox(x), SBox(x));
  }

  // ---- The packed build: four bytes doubled at once ----

  function PackedDouble(w: bv32): bv32 {
    var m := w & 0x8080_8080;
    Xor((w & 0x7f7f_7f7f) << 1, (m - (m >> 7)) & 0x1b1b_1b1b)
  }

  // ROTATE: left, by a number of bits.
  function Rotate8(w: bv32): bv32 { (w << 8) | (w >> 24) }

  function Rotate16(w: bv32): bv32 { (w << 16) | (w >> 16) }

  function Rotate24(w: bv32): bv32 { (w << 24) | (w >> 8) }

  function PackedInvMixWord(tp1: bv32): bv32 {
    var tp2 := PackedDouble(tp1);
    var tp4 := PackedDouble(tp2);
    var tp8 := PackedDouble(tp4);
    var tp9 := Xor(tp8, tp1);
    var tpb := Xor(tp9, tp2);
    var tpd := Xor(tp9, tp4);
    var tpe := Xor(Xor(tp8, tp4), tp2);
    Xor4(tpe, Rotate16(tpd), Rotate24(tp9), Rotate8(tpb))
  }

  lemma DoubleByte0(w: bv32) ensures Byte0(PackedDouble(w)) == Mul2(Byte0(w)) {}

  lemma DoubleByte1(w: bv32) ensures Byte1(PackedDouble(w)) == Mul2(Byte1(w)) {}

  lemma DoubleByte2(w: bv32) ensures Byte2(PackedDouble(w)) == Mul2(Byte2(w)) {}

  lemma DoubleByte3(w: bv32) ensures Byte3(PackedDouble(w)) == Mul2(Byte3(w)) {}

  lemma PackedDoubleColumn(w: bv32)
    ensures ColumnOf(PackedDouble(w)) == Column(Mul2(Byte0(w)), Mul2(Byte1(w)), Mul2(Byte2(w)), Mul2(Byte3(w)))
  {
    hide PackedDouble, Byte0, Byte1, Byte2, Byte3, Mul2;
    DoubleByte0(w);
    DoubleByte1(w);
    DoubleByte2(w);
    DoubleByte3(w);
  }

  lemma RotateColumns(w: bv32)
    ensures ColumnOf(Rotate8(w)) == Column(Byte1(w), Byte2(w), Byte3(w), Byte0(w))
    ensures ColumnOf(Rotate16(w)) == Column(Byte2(w), Byte3(w), Byte0(w), Byte1(w))
    ensures ColumnOf(Rotate24(w)) == Column(Byte3(w), Byte0(w), Byte1(w), Byte2(w))
  {
  }

  // The multiples of each byte of a word, as the packed code adds them up.
  lemma PackedMultiples(b: bv8)
    ensures Add(Mul8(b), b) == Mul9(b)
    ensures Add(Mul9(b), Mul2(b)) == Mulb(b)
    ensures Add(Mul9(b), Mul4(b)) == Muld(b)
    ensures Add(Add(Mul8(b), Mul4(b)), Mul2(b)) == Mule(b)
  {
    hide Add, Xtime;
    AddLaws(Mul8(b), b, Mul2(b));
    AddLaws(b, Mul2(b), b);
    AddLaws(Mul8(b), Mul2(b), b);
    AddLaws(Mul8(b), b, Mul4(b));
    AddLaws(b, Mul4(b), b);
    AddLaws(Mul8(b), Mul4(b), b);
  }

  lemma Sum4Reorder(a: bv8, b: bv8, c: bv8, d: bv8)
    ensures Sum4(a, c, d, b) == Sum4(a, b, c, d)
  {
    hide Add;
    AddLaws(Add(a, c), d, b);
    AddLaws(d, b, b);
    AddLaws(Add(a, c), b, d);
    AddLaws(a, c, b);
    AddLaws(c, b, b);
    AddLaws(a, b, c);
  }

  // The nine-, eleven-, thirteen- and fourteen-fold words of the packed code, as columns.
  lemma PackedColumns(w: bv32)
    ensures var tp2 := PackedDouble(w); var tp4 := PackedDouble(tp2); var tp8 := PackedDouble(tp4);
            var c := ColumnOf(w);
            && ColumnOf(tp2) == Column(Mul2(c.b0), Mul2(c.b1), Mul2(c.b2), Mul2(c.b3))
            && ColumnOf(tp4) == Column(Mul4(c.b0), Mul4(c.b1), Mul4(c.b2), Mul4(c.b3))
            && ColumnOf(tp8) == Column(Mul8(c.b0), Mul8(c.b1), Mul8(c.b2), Mul8(c.b3))
  {
    hide PackedDouble, Byte0, Byte1, Byte2, Byte3, Xtime;
    PackedDoubleColumn(w);
    PackedDoubleColumn(PackedDouble(w));
    PackedDoubleColumn(PackedDouble(PackedDouble(w)));
  }

  /** The packed arithmetic applies InvMixColumn to a word, just as the table look-ups do. */
  lemma PackedMatchesTables(w: bv32)
    ensures ColumnOf(PackedInvMixWord(w)) == InvMixColumn(ColumnOf(w))
    ensures PackedInvMixWord(w) == InvMixWord(w)
  {
    hide PackedDouble, Rotate8, Rotate16, Rotate24, Xor, Byte0, Byte1, Byte2, Byte3, Add, InvMixWord, WordOf;
    hide Mul2, Mul4, Mul8, Mul9, Mulb, Muld, Mule;
    var c := ColumnOf(w);
    var tp2 := PackedDouble(w);
    var tp4 := PackedDouble(tp2);
    var tp8 := PackedDouble(tp4);
    var tp9 := Xor(tp8, w);
    var tpb := Xor(tp9, tp2);
    var tpd := Xor(tp9, tp4);
    var tpe := Xor(Xor(tp8, tp4), tp2);
    PackedColumns(w);
    XorColumns(tp8, w);
    XorColumns(tp9, tp2);
    XorColumns(tp9, tp4);
    XorColumns(tp8, tp4);
    XorColumns(Xor(tp8, tp4), tp2);
    PackedMultiples(c.b0);
    PackedMultiples(c.b1);
    PackedMultiples(c.b2);
    PackedMultiples(c.b3);
    RotateColumns(tpd);
    RotateColumns(tp9);
    RotateColumns(tpb);
    XorColumns(tpe, Rotate16(tpd));
    XorColumns(Xor(tpe, Rotate16(tpd)), Rotate24(tp9));
    XorColumns(Xor(Xor(tpe, Rotate16(tpd)), Rotate24(tp9)), Rotate8(tpb));
    Sum4Reorder(Mule(c.b0), Mulb(c.b1), Muld(c.b2), Mul9(c.b3));
    Sum4Reorder(Mule(c.b1), Mulb(c.b2), Muld(c.b3), Mul9(c.b0));
    Sum4Reorder(Mule(c.b2), Mulb(c.b3), Muld(c.b0), Mul9(c.b1));
    Sum4Reorder(Mule(c.b3), Mulb(c.b0), Muld(c.b1), Mul9(c.b2));
    Sum4Rotate(Mule(c.b1), Mulb(c.b2), Muld(c.b3), Mul9(c.b0));
    Sum4Rotate(Mule(c.b2), Mulb(c.b3), Muld(c.b0), Mul9(c.b1));
    Sum4Rotate(Mul9(c.b1), Mule(c.b2), Mulb(c.b3), Muld(c.b0));
    Sum4Rotate(Mulb(c.b0), Muld(c.b1), Mul9(c.b2), Mule(c.b3));
    assert ColumnOf(PackedInvMixWord(w)) == InvMixColumn(c);
    InvMixWordColumn(w);
    ColumnWord(c, PackedInvMixWord(w));
    ColumnWord(c, InvMixWord(w));
  }

  function Down8(w: bv32): bv32 { w >> 8 }

  function Down16(w: bv32): bv32 { w >> 16 }

  function Down24(w: bv32): bv32 { w >> 24 }

  function Up8(w: bv32): bv32 { w << 8 }

  function Up16(w: bv32): bv32 { w << 16 }

  function Up24(w: bv32): bv32 { w << 24 }

  // The same without ROTATE: the two halves of each rotation are added one by one.
  function PackedShiftedWord(tp1: bv32): bv32 {
    var tp2 := PackedDouble(tp1);
    var tp4 := PackedDouble(tp2);
    var tp8 := PackedDouble(tp4);
    var tp9 := Xor(tp8, tp1);
    var tpb := Xor(tp9, tp2);
    var tpd := Xor(tp9, tp4);
    var tpe := Xor(Xor(tp8, tp4), tp2);
    Xor(Xor(Xor(Xor4(tpe, Down16(tpd), Up16(tpd), Down8(tp9)), Up24(tp9)), Down24(tpb)), Up8(tpb))
  }

  lemma HalvesRotate(w: bv32)
    ensures Xor(Down16(w), Up16(w)) == Rotate16(w)
    ensures Xor(Down8(w), Up24(w)) == Rotate24(w)
    ensures Xor(Down24(w), Up8(w)) == Rotate8(w)
  {
  }

  lemma XorAssociative(a: bv32, b: bv32, c: bv32)
    ensures Xor(Xor(a, b), c) == Xor(a, Xor(b, c))
  {
  }

  lemma ShiftsRotate(v: bv32, w: bv32)
    ensures Xor(Xor(v, Down16(w)), Up16(w)) == Xor(v, Rotate16(w))
    ensures Xor(Xor(v, Down8(w)), Up24(w)) == Xor(v, Rotate24(w))
    ensures Xor(Xor(v, Down24(w)), Up8(w)) == Xor(v, Rotate8(w))
  {
    hide Xor, Down8, Down16, Down24, Up8, Up16, Up24, Rotate8, Rotate16, Rotate24;
    HalvesRotate(w);
    XorAssociative(v, Down16(w), Up16(w));
    XorAssociative(v, Down8(w), Up24(w));
    XorAssociative(v, Down24(w), Up8(w));
  }

  /** Either form of the packed arithmetic gives the word of the table look-ups. */
  lemma PackedFormsAgree(w: bv32)
    ensures PackedShiftedWord(w) == PackedInvMixWord(w) == InvMixWord(w)
  {
    hide PackedDouble, Rotate8, Rotate16, Rotate24, Xor, InvMixWord, Down8, Down16, Down24, Up8, Up16, Up24;
    var tp2 := PackedDouble(w);
    var tp4 := PackedDouble(tp2);
    var tp8 := PackedDouble(tp4);
    var tp9 := Xor(tp8, w);
    var tpd := Xor(tp9, tp4);
    var tpe := Xor(Xor(tp8, tp4), tp2);
    ShiftsRotate(tpe, tpd);
    ShiftsRotate(Xor(tpe, Rotate16(tpd)), tp9);
    ShiftsRotate(Xor(Xor(tpe, Rotate16(tpd)), Rotate24(tp9)), Xor(tp9, tp2));
    PackedMatchesTables(w);
  }
}
