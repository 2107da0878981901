/** The cipher of section 5.1 of FIPS 197 on arrays of sixteen bytes, by index: byte r + 4 * c is row r of column c. */
module AesBytes {
  import opened AesTables
  import opened AesSpec
  import opened AesKeySchedule
  import opened AesCore

  // MixColumns multiplies by this row, turned by one place for each row of the result.
  function Coefficient(n: nat, v: bv8): bv8
    requires n < 4
  {
    if n == 0 then Mul2(v) else if n == 1 then Mul3(v) else v
  }

  // ShiftRows brings row i of column c from column c + i.
  function From(i: nat, c: nat): (k: nat)
    requires i < 4 && c < 4
    ensures k < 16
  {
    i + 4 * (if c + i < 4 then c + i else c + i - 4)
  }

  // Byte k of the round of a block.
  function RoundByte(b: seq<bv8>, k: nat): bv8
    requires IsBlock(b) && k < 16
  {
    var r, c := k % 4, k / 4;
    Sum4(Coefficient((4 - r) % 4, SBox(b[From(0, c)])), Coefficient((5 - r) % 4, SBox(b[From(1, c)])),
         Coefficient((6 - r) % 4, SBox(b[From(2, c)])), Coefficient((7 - r) % 4, SBox(b[From(3, c)])))
  }

  function Added(b: seq<bv8>, key: seq<bv8>): (r: seq<bv8>)
    requires IsBlock(b) && IsBlock(key)
    ensures IsBlock(r)
  {
    seq(16, k requires 0 <= k < 16 => Add(b[k], key[k]))
  }

  function FullRound(b: seq<bv8>): (r: seq<bv8>)
    requires IsBlock(b)
    ensures IsBlock(r)
  {
    seq(16, k requires 0 <= k < 16 => RoundByte(b, k))
  }

  function LastRound(b: seq<bv8>): (r: seq<bv8>)
    requires IsBlock(b)
    ensures IsBlock(r)
  {
    seq(16, k requires 0 <= k < 16 => SBox(b[From(k % 4, k / 4)]))
  }

  // The sixteen bytes of round key r.
  function KeyBytes(w: seq<bv32>, r: nat): (key: seq<bv8>)
    requires 4 * r + 4 <= |w|
    ensures IsBlock(key)
  {
    seq(16, k requires 0 <= k < 16 => ByteOf(w[4 * r + k / 4], k % 4))
  }

  function FirstRounds(b: seq<bv8>, w: seq<bv32>, n: nat): (r: seq<bv8>)
    requires IsBlock(b) && 4 * n + 4 <= |w|
    ensures IsBlock(r)
  {
    if n == 0 then Added(b, KeyBytes(w, 0)) else Added(FullRound(FirstRounds(b, w, n - 1)), KeyBytes(w, n))
  }

  function CipherBytes(b: seq<bv8>, w: seq<bv32>, nr: nat): (r: seq<bv8>)
    requires IsBlock(b) && 0 < nr && 4 * nr + 4 <= |w|
    ensures IsBlock(r)
  {
    Added(LastRound(FirstRounds(b, w, nr - 1)), KeyBytes(w, nr))
  }

  lemma AddedIsKeyAddition(b: seq<bv8>, key: seq<bv8>)
    requires IsBlock(b) && IsBlock(key)
    ensures StateOf(Added(b, key)) == AddRoundKey(StateOf(b), StateOf(key))
  {
    hide Add;
  }

  lemma FullRoundIsRound(b: seq<bv8>)
    requires IsBlock(b)
    ensures StateOf(FullRound(b)) == MixColumns(ShiftRows(SubBytes(StateOf(b))))
  {
    hide SBox, MixColumn, RoundByte;
    FullColumn(b, 0);
    FullColumn(b, 1);
    FullColumn(b, 2);
    FullColumn(b, 3);
  }

  // Column c of what ShiftRows makes of the substituted bytes, mixed.
  lemma FullColumn(b: seq<bv8>, c: nat)
    requires IsBlock(b) && c < 4
    ensures var s := Column(SBox(b[From(0, c)]), SBox(b[From(1, c)]), SBox(b[From(2, c)]), SBox(b[From(3, c)]));
            MixColumn(s)
            == Column(RoundByte(b, 4 * c), RoundByte(b, 4 * c + 1), RoundByte(b, 4 * c + 2), RoundByte(b, 4 * c + 3))
  {
    hide SBox, Mul2, Mul3, Sum4, From, RoundByte;
    Row(b, c, 0);
    Row(b, c, 1);
    Row(b, c, 2);
    Row(b, c, 3);
  }

  lemma Row(b: seq<bv8>, c: nat, r: nat)
    requires IsBlock(b) && c < 4 && r < 4
    ensures RoundByte(b, 4 * c + r)
         == Sum4(Coefficient((4 - r) % 4, SBox(b[From(0, c)])), Coefficient((5 - r) % 4, SBox(b[From(1, c)])),
                 Coefficient((6 - r) % 4, SBox(b[From(2, c)])), Coefficient((7 - r) % 4, SBox(b[From(3, c)])))
  {
    hide SBox, Sum4, From, Coefficient;
    assert (4 * c + r) % 4 == r && (4 * c + r) / 4 == c;
  }

  lemma LastRoundIsRound(b: seq<bv8>)
    requires IsBlock(b)
    ensures StateOf(LastRound(b)) == ShiftRows(SubBytes(StateOf(b)))
  {
    hide SBox;
  }

  lemma KeyBytesAreRoundKey(w: seq<bv32>, r: nat)
    requires 4 * r + 4 <= |w|
    ensures StateOf(KeyBytes(w, r)) == RoundKey(w, r)
  {
    hide Byte0, Byte1, Byte2, Byte3;
  }

  lemma {:induction false} FirstRoundsAreRounds(b: seq<bv8>, w: seq<bv32>, n: nat)
    requires IsBlock(b) && 4 * n + 4 <= |w|
    ensures StateOf(FirstRounds(b, w, n)) == Rounds(StateOf(b), w, n)
  {
    hide StateOf, Added, FullRound, KeyBytes, AddRoundKey, MixColumns, ShiftRows, SubBytes, RoundKey;
    KeyBytesAreRoundKey(w, n);
    if n == 0 {
      AddedIsKeyAddition(b, KeyBytes(w, 0));
    } else {
      var s := FirstRounds(b, w, n - 1);
      FirstRoundsAreRounds(b, w, n - 1);
      FullRoundIsRound(s);
      AddedIsKeyAddition(FullRound(s), KeyBytes(w, n));
    }
  }

  /** Encryption is the cipher on sixteen bytes. */
  lemma EncryptsByBytes(b: seq<bv8>, w: seq<bv32>, nr: nat)
    requires IsBlock(b) && 0 < nr && 4 * nr + 4 <= |w|
    ensures EncryptedBlock(b, w, nr) == CipherBytes(b, w, nr)
  {
    hide StateOf, BytesOf, Added, LastRound, KeyBytes, AddRoundKey, ShiftRows, SubBytes, RoundKey, Rounds, FirstRounds;
    var s := FirstRounds(b, w, nr - 1);
    FirstRoundsAreRounds(b, w, nr - 1);
    LastRoundIsRound(s);
    KeyBytesAreRoundKey(w, nr);
    AddedIsKeyAddition(LastRound(s), KeyBytes(w, nr));
    BytesOfState(CipherBytes(b, w, nr));
  }
}
