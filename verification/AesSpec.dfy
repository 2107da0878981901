/** The cipher of FIPS 197 at the level of bytes: the reference that the table-driven code refines. */
module AesSpec {
  import opened AesTables

  // A word holds one column of the state, most significant byte first (GETU32/PUTU32).
  datatype Column = Column(b0: bv8, b1: bv8, b2: bv8, b3: bv8)
  datatype State = State(c0: Column, c1: Column, c2: Column, c3: Column)

  function ColumnOf(w: bv32): Column {
    Column(Byte0(w), Byte1(w), Byte2(w), Byte3(w))
  }

  function WordOf(c: Column): bv32 {
    Word(c.b0, c.b1, c.b2, c.b3)
  }

  lemma ColumnWord(c: Column, w: bv32)
    ensures ColumnOf(WordOf(c)) == c
    ensures WordOf(ColumnOf(w)) == w
  {
    WordBytes(c.b0, c.b1, c.b2, c.b3);
    BytesWord(w);
  }

  // ---- The transformations of section 5.1 and their inverses of section 5.3 ----

  function SubColumn(c: Column): Column {
    Column(SBox(c.b0), SBox(c.b1), SBox(c.b2), SBox(c.b3))
  }

  function InvSubColumn(c: Column): Column {
    Column(InvSBox(c.b0), InvSBox(c.b1), InvSBox(c.b2), InvSBox(c.b3))
  }

  function SubBytes(s: State): State {
    State(SubColumn(s.c0), SubColumn(s.c1), SubColumn(s.c2), SubColumn(s.c3))
  }

  function InvSubBytes(s: State): State {
    State(InvSubColumn(s.c0), InvSubColumn(s.c1), InvSubColumn(s.c2), InvSubColumn(s.c3))
  }

  function ShiftRows(s: State): State {
    State(Column(s.c0.b0, s.c1.b1, s.c2.b2, s.c3.b3),
          Column(s.c1.b0, s.c2.b1, s.c3.b2, s.c0.b3),
          Column(s.c2.b0, s.c3.b1, s.c0.b2, s.c1.b3),
          Column(s.c3.b0, s.c0.b1, s.c1.b2, s.c2.b3))
  }

  function InvShiftRows(s: State): State {
    State(Column(s.c0.b0, s.c3.b1, s.c2.b2, s.c1.b3),
          Column(s.c1.b0, s.c0.b1, s.c3.b2, s.c2.b3),
          Column(s.c2.b0, s.c1.b1, s.c0.b2, s.c3.b3),
          Column(s.c3.b0, s.c2.b1, s.c1.b2, s.c0.b3))
  }

  function MixColumn(c: Column): Column {
    Column(Sum4(Mul2(c.b0), Mul3(c.b1), c.b2, c.b3),
           Sum4(c.b0, Mul2(c.b1), Mul3(c.b2), c.b3),
           Sum4(c.b0, c.b1, Mul2(c.b2), Mul3(c.b3)),
           Sum4(Mul3(c.b0), c.b1, c.b2, Mul2(c.b3)))
  }

  function InvMixColumn(c: Column): Column {
    Column(Sum4(Mule(c.b0), Mulb(c.b1), Muld(c.b2), Mul9(c.b3)),
           Sum4(Mul9(c.b0), Mule(c.b1), Mulb(c.b2), Muld(c.b3)),
           Sum4(Muld(c.b0), Mul9(c.b1), Mule(c.b2), Mulb(c.b3)),
           Sum4(Mulb(c.b0), Muld(c.b1), Mul9(c.b2), Mule(c.b3)))
  }

  function MixColumns(s: State): State {
    State(MixColumn(s.c0), MixColumn(s.c1), MixColumn(s.c2), MixColumn(s.c3))
  }

  function InvMixColumns(s: State): State {
    State(InvMixColumn(s.c0), InvMixColumn(s.c1), InvMixColumn(s.c2), InvMixColumn(s.c3))
  }

  function XorColumn(c: Column, k: Column): Column {
    Column(Add(c.b0, k.b0), Add(c.b1, k.b1), Add(c.b2, k.b2), Add(c.b3, k.b3))
  }

  function AddRoundKey(s: State, k: State): State {
    State(XorColumn(s.c0, k.c0), XorColumn(s.c1, k.c1), XorColumn(s.c2, k.c2), XorColumn(s.c3, k.c3))
  }

  // ---- Each transformation undoes its inverse, and the two commutations of section 5.3.5 ----

  lemma SubBytesInverse(s: State)
    ensures InvSubBytes(SubBytes(s)) == s
  {
    hide SubColumn, InvSubColumn;
    SubColumnInverse(s.c0);
    SubColumnInverse(s.c1);
    SubColumnInverse(s.c2);
    SubColumnInverse(s.c3);
  }

  lemma SubColumnInverse(c: Column)
    ensures InvSubColumn(SubColumn(c)) == c
  {
    hide SBox, InvSBox;
    SBoxInverse(c.b0);
    SBoxInverse(c.b1);
    SBoxInverse(c.b2);
    SBoxInverse(c.b3);
  }

  lemma ShiftRowsInverse(s: State)
    ensures InvShiftRows(ShiftRows(s)) == s
  {
  }

  /** InvMixColumns undoes MixColumns: both are linear, so it is enough on one byte at a time. */
  lemma MixColumnInverse(c: Column)
    ensures InvMixColumn(MixColumn(c)) == c
  {
    var u0, u1 := Column(c.b0, 0, 0, 0), Column(0, c.b1, 0, 0);
    var u2, u3 := Column(0, 0, c.b2, 0), Column(0, 0, 0, c.b3);
    assert c == XorColumn(XorColumn(u0, u1), XorColumn(u2, u3));
    MixThenInvLinear(u0, u1);
    MixThenInvLinear(u2, u3);
    MixThenInvLinear(XorColumn(u0, u1), XorColumn(u2, u3));
    UnitColumns(c.b0);
    UnitColumns(c.b1);
    UnitColumns(c.b2);
    UnitColumns(c.b3);
    hide MixColumn, InvMixColumn;
  }

  lemma UnitColumns(x: bv8)
    ensures InvMixColumn(MixColumn(Column(x, 0, 0, 0))) == Column(x, 0, 0, 0)
    ensures InvMixColumn(MixColumn(Column(0, x, 0, 0))) == Column(0, x, 0, 0)
    ensures InvMixColumn(MixColumn(Column(0, 0, x, 0))) == Column(0, 0, x, 0)
    ensures InvMixColumn(MixColumn(Column(0, 0, 0, x))) == Column(0, 0, 0, x)
  {
    hide MixColumn, InvMixColumn;
    UnitColumn(x);
    RotateTwice(Column(x, 0, 0, 0));
    RotateTwice(Column(0, x, 0, 0));
    RotateTwice(Column(0, 0, x, 0));
  }

  lemma UnitColumn(x: bv8)
    ensures InvMixColumn(MixColumn(Column(x, 0, 0, 0))) == Column(x, 0, 0, 0)
  {
    ProductDiagonal(x);
    ProductOff1(x);
    ProductOff2(x);
    ProductOff3(x);
    assert Mul2(0) == Mul3(0) == 0;
    Sum4Zero(x);
    Sum4Zero(Mul2(x));
    Sum4Zero(Mul3(x));
    hide Sum4, Mul2, Mul3, Mul9, Mulb, Muld, Mule;
  }

  lemma Sum4Zero(x: bv8)
    ensures Sum4(x, 0, 0, 0) == x
    ensures Sum4(0, x, 0, 0) == x
    ensures Sum4(0, 0, x, 0) == x
    ensures Sum4(0, 0, 0, x) == x
  {
  }

  // The first column of the product of the circulant matrices {02 03 01 01} and {0e 0b 0d 09}.
  lemma ProductDiagonal(x: bv8)
    ensures Sum4(Mule(Mul2(x)), Mulb(x), Muld(x), Mul9(Mul3(x))) == x
  {
  }

  lemma ProductOff1(x: bv8)
    ensures Sum4(Mul9(Mul2(x)), Mule(x), Mulb(x), Muld(Mul3(x))) == 0
  {
  }

  lemma ProductOff2(x: bv8)
    ensures Sum4(Muld(Mul2(x)), Mul9(x), Mule(x), Mulb(Mul3(x))) == 0
  {
  }

  lemma ProductOff3(x: bv8)
    ensures Sum4(Mulb(Mul2(x)), Muld(x), Mul9(x), Mule(Mul3(x))) == 0
  {
  }

  // Both matrices are circulant, so they commute with rotating a column.
  function RotateColumn(c: Column): Column {
    Column(c.b3, c.b0, c.b1, c.b2)
  }

  lemma RotateTwice(c: Column)
    ensures InvMixColumn(MixColumn(RotateColumn(c))) == RotateColumn(InvMixColumn(MixColumn(c)))
  {
    hide MixColumn, InvMixColumn;
    MixColumnRotate(c);
    InvMixColumnRotate(MixColumn(c));
  }

  lemma Sum4Rotate(a: bv8, b: bv8, c: bv8, d: bv8)
    ensures Sum4(d, a, b, c) == Sum4(a, b, c, d)
  {
  }

  lemma MixColumnRotate(c: Column)
    ensures MixColumn(RotateColumn(c)) == RotateColumn(MixColumn(c))
  {
    hide Sum4, Mul2, Mul3;
    Sum4Rotate(Mul2(c.b0), Mul3(c.b1), c.b2, c.b3);
    Sum4Rotate(c.b0, Mul2(c.b1), Mul3(c.b2), c.b3);
    Sum4Rotate(c.b0, c.b1, Mul2(c.b2), Mul3(c.b3));
    Sum4Rotate(Mul3(c.b0), c.b1, c.b2, Mul2(c.b3));
  }

  lemma InvMixColumnRotate(c: Column)
    ensures InvMixColumn(RotateColumn(c)) == RotateColumn(InvMixColumn(c))
  {
    hide Sum4, Mul9, Mulb, Muld, Mule;
    Sum4Rotate(Mule(c.b0), Mulb(c.b1), Muld(c.b2), Mul9(c.b3));
    Sum4Rotate(Mul9(c.b0), Mule(c.b1), Mulb(c.b2), Muld(c.b3));
    Sum4Rotate(Muld(c.b0), Mul9(c.b1), Mule(c.b2), Mulb(c.b3));
    Sum4Rotate(Mulb(c.b0), Muld(c.b1), Mul9(c.b2), Mule(c.b3));
  }

  lemma MixThenInvLinear(c: Column, k: Column)
    ensures InvMixColumn(MixColumn(XorColumn(c, k)))
         == XorColumn(InvMixColumn(MixColumn(c)), InvMixColumn(MixColumn(k)))
  {
    hide MixColumn, InvMixColumn;
    MixColumnLinear(c, k);
    InvMixColumnLinear(MixColumn(c), MixColumn(k));
  }

  lemma XtimeLinear(a: bv8, b: bv8)
    ensures Xtime(Add(a, b)) == Add(Xtime(a), Xtime(b))
  {
    if a & 0x80 != 0 {
    } else if b & 0x80 != 0 {
    } else {
    }
  }

  lemma AddLaws(a: bv8, b: bv8, c: bv8)
    ensures Add(Add(a, b), c) == Add(a, Add(b, c))
    ensures Add(a, b) == Add(b, a)
  {
  }

  lemma AddSwap(a: bv8, b: bv8, c: bv8, d: bv8)
    ensures Add(Add(a, b), Add(c, d)) == Add(Add(a, c), Add(b, d))
  {
    hide Add;
    AddLaws(a, b, Add(c, d));
    AddLaws(b, c, d);
    AddLaws(c, b, d);
    AddLaws(a, c, Add(b, d));
  }

  lemma Sum4Linear(a: bv8, b: bv8, c: bv8, d: bv8, e: bv8, f: bv8, g: bv8, h: bv8)
    ensures Sum4(Add(a, e), Add(b, f), Add(c, g), Add(d, h)) == Add(Sum4(a, b, c, d), Sum4(e, f, g, h))
  {
    hide Add;
    AddSwap(a, e, b, f);
    AddSwap(Add(a, b), Add(e, f), c, g);
    AddSwap(Add(Add(a, b), c), Add(Add(e, f), g), d, h);
  }

  lemma MulLinear(a: bv8, b: bv8)
    ensures Mul2(Add(a, b)) == Add(Mul2(a), Mul2(b))
    ensures Mul3(Add(a, b)) == Add(Mul3(a), Mul3(b))
    ensures Mul9(Add(a, b)) == Add(Mul9(a), Mul9(b))
    ensures Mulb(Add(a, b)) == Add(Mulb(a), Mulb(b))
    ensures Muld(Add(a, b)) == Add(Muld(a), Muld(b))
    ensures Mule(Add(a, b)) == Add(Mule(a), Mule(b))
  {
    hide Add, Xtime;
    XtimeLinear(a, b);
    XtimeLinear(Mul2(a), Mul2(b));
    XtimeLinear(Mul4(a), Mul4(b));
    AddSwap(Mul2(a), Mul2(b), a, b);
    AddSwap(Mul8(a), Mul8(b), a, b);
    AddSwap(Mul8(a), Mul8(b), Mul2(a), Mul2(b));
    AddSwap(Add(Mul8(a), Mul2(a)), Add(Mul8(b), Mul2(b)), a, b);
    AddSwap(Mul8(a), Mul8(b), Mul4(a), Mul4(b));
    AddSwap(Add(Mul8(a), Mul4(a)), Add(Mul8(b), Mul4(b)), a, b);
    AddSwap(Add(Mul8(a), Mul4(a)), Add(Mul8(b), Mul4(b)), Mul2(a), Mul2(b));
  }

  lemma MixColumnLinear(c: Column, k: Column)
    ensures MixColumn(XorColumn(c, k)) == XorColumn(MixColumn(c), MixColumn(k))
  {
    hide Add, Sum4, Mul2, Mul3;
    MulLinear(c.b0, k.b0);
    MulLinear(c.b1, k.b1);
    MulLinear(c.b2, k.b2);
    MulLinear(c.b3, k.b3);
    Sum4Linear(Mul2(c.b0), Mul3(c.b1), c.b2, c.b3, Mul2(k.b0), Mul3(k.b1), k.b2, k.b3);
    Sum4Linear(c.b0, Mul2(c.b1), Mul3(c.b2), c.b3, k.b0, Mul2(k.b1), Mul3(k.b2), k.b3);
    Sum4Linear(c.b0, c.b1, Mul2(c.b2), Mul3(c.b3), k.b0, k.b1, Mul2(k.b2), Mul3(k.b3));
    Sum4Linear(Mul3(c.b0), c.b1, c.b2, Mul2(c.b3), Mul3(k.b0), k.b1, k.b2, Mul2(k.b3));
  }

  lemma InvMixColumnLinear(c: Column, k: Column)
    ensures InvMixColumn(XorColumn(c, k)) == XorColumn(InvMixColumn(c), InvMixColumn(k))
  {
    hide Add, Sum4, Mul9, Mulb, Muld, Mule;
    MulLinear(c.b0, k.b0);
    MulLinear(c.b1, k.b1);
    MulLinear(c.b2, k.b2);
    MulLinear(c.b3, k.b3);
    Sum4Linear(Mule(c.b0), Mulb(c.b1), Muld(c.b2), Mul9(c.b3), Mule(k.b0), Mulb(k.b1), Muld(k.b2), Mul9(k.b3));
    Sum4Linear(Mul9(c.b0), Mule(c.b1), Mulb(c.b2), Muld(c.b3), Mul9(k.b0), Mule(k.b1), Mulb(k.b2), Muld(k.b3));
    Sum4Linear(Muld(c.b0), Mul9(c.b1), Mule(c.b2), Mulb(c.b3), Muld(k.b0), Mul9(k.b1), Mule(k.b2), Mulb(k.b3));
    Sum4Linear(Mulb(c.b0), Muld(c.b1), Mul9(c.b2), Mule(c.b3), Mulb(k.b0), Muld(k.b1), Mul9(k.b2), Mule(k.b3));
  }

  lemma MixColumnsInverse(s: State)
    ensures InvMixColumns(MixColumns(s)) == s
  {
    hide MixColumn, InvMixColumn;
    MixColumnInverse(s.c0);
    MixColumnInverse(s.c1);
    MixColumnInverse(s.c2);
    MixColumnInverse(s.c3);
  }

  lemma InvMixColumnsLinear(s: State, k: State)
    ensures InvMixColumns(AddRoundKey(s, k)) == AddRoundKey(InvMixColumns(s), InvMixColumns(k))
  {
    hide InvMixColumn, XorColumn;
    InvMixColumnLinear(s.c0, k.c0);
    InvMixColumnLinear(s.c1, k.c1);
    InvMixColumnLinear(s.c2, k.c2);
    InvMixColumnLinear(s.c3, k.c3);
  }

  lemma AddRoundKeyInvolution(s: State, k: State)
    ensures AddRoundKey(AddRoundKey(s, k), k) == s
  {
    hide XorColumn;
    XorColumnInvolution(s.c0, k.c0);
    XorColumnInvolution(s.c1, k.c1);
    XorColumnInvolution(s.c2, k.c2);
    XorColumnInvolution(s.c3, k.c3);
  }

  lemma XorColumnInvolution(c: Column, k: Column)
    ensures XorColumn(XorColumn(c, k), k) == c
  {
  }

  lemma SubShiftCommute(s: State)
    ensures InvSubBytes(InvShiftRows(s)) == InvShiftRows(InvSubBytes(s))
  {
    hide InvSBox;
  }

  // ---- The cipher (section 5.1), its inverse (5.3) and the equivalent inverse (5.3.5) ----

  function RoundKey(rk: seq<bv32>, r: nat): State
    requires 4 * r + 4 <= |rk|
  {
    State(ColumnOf(rk[4 * r]), ColumnOf(rk[4 * r + 1]), ColumnOf(rk[4 * r + 2]), ColumnOf(rk[4 * r + 3]))
  }

  // The state after the initial key addition and r full rounds.
  function Rounds(s: State, rk: seq<bv32>, r: nat): State
    requires 4 * r + 4 <= |rk|
  {
    if r == 0 then AddRoundKey(s, RoundKey(rk, 0))
    else AddRoundKey(MixColumns(ShiftRows(SubBytes(Rounds(s, rk, r - 1)))), RoundKey(rk, r))
  }

  function Cipher(s: State, rk: seq<bv32>, nr: nat): State
    requires 0 < nr && 4 * nr + 4 <= |rk|
  {
    AddRoundKey(ShiftRows(SubBytes(Rounds(s, rk, nr - 1))), RoundKey(rk, nr))
  }

  // The inverse cipher's state once the rounds nr - 1 down to r are undone.
  function InvRounds(s: State, rk: seq<bv32>, nr: nat, r: nat): State
    requires 0 < r <= nr && 4 * nr + 4 <= |rk|
    decreases nr - r
  {
    if r == nr then AddRoundKey(s, RoundKey(rk, nr))
    else InvMixColumns(AddRoundKey(InvSubBytes(InvShiftRows(InvRounds(s, rk, nr, r + 1))), RoundKey(rk, r)))
  }

  function InvCipher(s: State, rk: seq<bv32>, nr: nat): State
    requires 0 < nr && 4 * nr + 4 <= |rk|
  {
    AddRoundKey(InvSubBytes(InvShiftRows(InvRounds(s, rk, nr, 1))), RoundKey(rk, 0))
  }

  // The equivalent inverse cipher has the shape of Rounds and takes its own schedule.
  function EqInvRounds(s: State, dk: seq<bv32>, r: nat): State
    requires 4 * r + 4 <= |dk|
  {
    if r == 0 then AddRoundKey(s, RoundKey(dk, 0))
    else AddRoundKey(InvMixColumns(InvShiftRows(InvSubBytes(EqInvRounds(s, dk, r - 1)))), RoundKey(dk, r))
  }

  function EqInvCipher(s: State, dk: seq<bv32>, nr: nat): State
    requires 0 < nr && 4 * nr + 4 <= |dk|
  {
    AddRoundKey(InvShiftRows(InvSubBytes(EqInvRounds(s, dk, nr - 1))), RoundKey(dk, nr))
  }

  // dk is rk with the round keys in reverse order and InvMixColumns on all but the first and last.
  ghost predicate IsDecryptSchedule(rk: seq<bv32>, dk: seq<bv32>, nr: nat)
    requires 0 < nr && 4 * nr + 4 <= |rk| && 4 * nr + 4 <= |dk|
  {
    forall r: nat | r <= nr ::
      RoundKey(dk, r) == if r == 0 || r == nr then RoundKey(rk, nr - r) else InvMixColumns(RoundKey(rk, nr - r))
  }

  /** Undoing rounds nr - 1 .. r of a ciphertext leaves the state the cipher had before them. */
  lemma {:induction false} InvRoundsUndo(s: State, rk: seq<bv32>, nr: nat, r: nat)
    requires 0 < r <= nr && 4 * nr + 4 <= |rk|
    ensures InvRounds(Cipher(s, rk, nr), rk, nr, r) == ShiftRows(SubBytes(Rounds(s, rk, r - 1)))
    decreases nr - r
  {
    hide SubBytes, InvSubBytes, ShiftRows, InvShiftRows, MixColumns, InvMixColumns, AddRoundKey;
    if r == nr {
      AddRoundKeyInvolution(ShiftRows(SubBytes(Rounds(s, rk, nr - 1))), RoundKey(rk, nr));
    } else {
      InvRoundsUndo(s, rk, nr, r + 1);
      RoundUndo(Rounds(s, rk, r));
      var mixed := ShiftRows(SubBytes(Rounds(s, rk, r - 1)));
      AddRoundKeyInvolution(MixColumns(mixed), RoundKey(rk, r));
      MixColumnsInverse(mixed);
    }
  }

  lemma RoundUndo(s: State)
    ensures InvSubBytes(InvShiftRows(ShiftRows(SubBytes(s)))) == s
  {
    hide SubBytes, InvSubBytes, ShiftRows, InvShiftRows, MixColumns, InvMixColumns, AddRoundKey;
    ShiftRowsInverse(SubBytes(s));
    SubBytesInverse(s);
  }

  /** The inverse cipher undoes the cipher under every key schedule and number of rounds. */
  lemma InvCipherUndoesCipher(s: State, rk: seq<bv32>, nr: nat)
    requires 0 < nr && 4 * nr + 4 <= |rk|
    ensures InvCipher(Cipher(s, rk, nr), rk, nr) == s
  {
    hide SubBytes, InvSubBytes, ShiftRows, InvShiftRows, MixColumns, InvMixColumns, AddRoundKey;
    InvRoundsUndo(s, rk, nr, 1);
    RoundUndo(Rounds(s, rk, 0));
    AddRoundKeyInvolution(s, RoundKey(rk, 0));
  }

  lemma {:induction false} EqInvRoundsMatch(s: State, rk: seq<bv32>, dk: seq<bv32>, nr: nat, r: nat)
    requires r < nr && 4 * nr + 4 <= |rk| && 4 * nr + 4 <= |dk|
    requires IsDecryptSchedule(rk, dk, nr)
    ensures EqInvRounds(s, dk, r) == InvRounds(s, rk, nr, nr - r)
  {
    hide SubBytes, InvSubBytes, ShiftRows, InvShiftRows, MixColumns, InvMixColumns, AddRoundKey;
    if r > 0 {
      EqInvRoundsMatch(s, rk, dk, nr, r - 1);
      var prev := InvRounds(s, rk, nr, nr - r + 1);
      SubShiftCommute(prev);
      InvMixColumnsLinear(InvSubBytes(InvShiftRows(prev)), RoundKey(rk, nr - r));
    }
  }

  /** The equivalent inverse cipher under the derived schedule is the inverse cipher (section 5.3.5). */
  lemma EqInvCipherIsInvCipher(s: State, rk: seq<bv32>, dk: seq<bv32>, nr: nat)
    requires 0 < nr && 4 * nr + 4 <= |rk| && 4 * nr + 4 <= |dk|
    requires IsDecryptSchedule(rk, dk, nr)
    ensures EqInvCipher(s, dk, nr) == InvCipher(s, rk, nr)
  {
    hide SubBytes, InvSubBytes, ShiftRows, InvShiftRows, MixColumns, InvMixColumns, AddRoundKey;
    EqInvRoundsMatch(s, rk, dk, nr, nr - 1);
    SubShiftCommute(InvRounds(s, rk, nr, 1));
  }
}
