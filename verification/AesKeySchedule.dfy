/** Key expansion: the words of section 5.2 of FIPS 197, and the three loops that write them. */
module AesKeySchedule {
  import opened AesTables
  import opened AesSpec
  import opened AesWords

  // rd_key holds a schedule of at most 14 rounds.
  const RD_KEY_WORDS: nat := 60

  predicate ValidBits(bits: int) { bits == 128 || bits == 192 || bits == 256 }

  function GetWord(s: seq<bv8>, i: nat): bv32
    requires i + 4 <= |s|
  {
    Word(s[i], s[i + 1], s[i + 2], s[i + 3])
  }

  // ---- The expansion of section 5.2, one word at a time ----

  // x to the power of j - 1 in GF(2^8).
  function RconByte(j: nat): bv8
    requires j > 0
  {
    if j == 1 then 1 else Xtime(RconByte(j - 1))
  }

  function SubWord(w: bv32): bv32 { WordOf(SubColumn(ColumnOf(w))) }

  function RotWord(w: bv32): bv32 { Word(Byte1(w), Byte2(w), Byte3(w), Byte0(w)) }

  predicate IsKey(key: seq<bv8>) { |key| == 16 || |key| == 24 || |key| == 32 }

  function KeyWord(key: seq<bv8>, i: nat): bv32
    requires IsKey(key)
  {
    var nk := |key| / 4;
    if i < nk then GetWord(key, 4 * i)
    else
      var temp := KeyWord(key, i - 1);
      Xor(KeyWord(key, i - nk),
          if i % nk == 0 then Xor(SubWord(RotWord(temp)), Word(RconByte(i / nk), 0, 0, 0))
          else if nk > 6 && i % nk == 4 then SubWord(temp)
          else temp)
  }

  function KeySchedule(key: seq<bv8>): (rk: seq<bv32>)
    requires IsKey(key)
    ensures |rk| == |key| + 28
  {
    seq(|key| + 28, i requires 0 <= i => KeyWord(key, i))
  }

  // ---- The word expressions of the expansion loops ----

  const RCON: seq<bv32> := [
    0x01000000, 0x02000000, 0x04000000, 0x08000000,
    0x10000000, 0x20000000, 0x40000000, 0x80000000,
    0x1B000000, 0x36000000
  ]

  function Rcon(i: nat): bv32
    requires i < 10
  {
    RCON[i]
  }

  // The word that opens each group of a schedule: S-box of the rotated temp, masked out of the tables.
  function GroupWord(k: bv32, temp: bv32, rcon: bv32): bv32 {
    Xor(Xor(k, SubBytesOf(Byte1(temp), Byte2(temp), Byte3(temp), Byte0(temp))), rcon)
  }

  // The middle word of a 256-bit group.
  function HalfGroupWord(k: bv32, temp: bv32): bv32 {
    Xor(k, SubBytesOf(Byte0(temp), Byte1(temp), Byte2(temp), Byte3(temp)))
  }

  lemma SubBytesOfWord(w: bv32)
    ensures SubBytesOf(Byte0(w), Byte1(w), Byte2(w), Byte3(w)) == SubWord(w)
    ensures SubBytesOf(Byte1(w), Byte2(w), Byte3(w), Byte0(w)) == SubWord(RotWord(w))
  {
    hide Byte0, Byte1, Byte2, Byte3, SBox, SubBytesOf, Word;
    var b0, b1, b2, b3 := Byte0(w), Byte1(w), Byte2(w), Byte3(w);
    SubBytesOfColumn(b0, b1, b2, b3);
    SubBytesOfColumn(b1, b2, b3, b0);
    ColumnWord(Column(b0, b1, b2, b3), SubBytesOf(b0, b1, b2, b3));
    ColumnWord(Column(b1, b2, b3, b0), SubBytesOf(b1, b2, b3, b0));
  }

  /** The literal round constants are the powers of x. */
  lemma RconMatches(i: nat)
    requires i < 10
    ensures Rcon(i) == Word(RconByte(i + 1), 0, 0, 0)
  {
    assert RconByte(1) == 0x01;
    assert RconByte(2) == 0x02;
    assert RconByte(3) == 0x04;
    assert RconByte(4) == 0x08;
    assert RconByte(5) == 0x10;
    assert RconByte(6) == 0x20;
    assert RconByte(7) == 0x40;
    assert RconByte(8) == 0x80;
    assert RconByte(9) == 0x1b;
    assert RconByte(10) == 0x36;
  }

  lemma GroupWordIsKeyWord(key: seq<bv8>, nk: nat, g: nat)
    requires IsKey(key) && g < 10 && |key| == 4 * nk
    ensures GroupWord(KeyWord(key, nk * g), KeyWord(key, nk * g + nk - 1), Rcon(g)) == KeyWord(key, nk * g + nk)
  {
    hide Xor, SubBytesOf, SubWord, RotWord, Word, RconByte, Rcon;
    var i := nk * g + nk;
    GroupStart(nk, g);
    var k, temp := KeyWord(key, i - nk), KeyWord(key, i - 1);
    RconMatches(g);
    SubBytesOfWord(temp);
    XorAssociative(k, SubWord(RotWord(temp)), Word(RconByte(g + 1), 0, 0, 0));
  }

  lemma GroupStart(nk: nat, g: nat)
    requires nk == 4 || nk == 6 || nk == 8
    ensures (nk * g + nk) % nk == 0 && (nk * g + nk) / nk == g + 1
  {
    if nk == 4 {
    } else if nk == 6 {
    } else {
    }
  }

  lemma HalfGroupWordIsKeyWord(key: seq<bv8>, i: nat)
    requires |key| == 32 && i >= 8 && i % 8 == 4
    ensures HalfGroupWord(KeyWord(key, i - 8), KeyWord(key, i - 1)) == KeyWord(key, i)
  {
    hide Xor, SubBytesOf, SubWord;
    SubBytesOfWord(KeyWord(key, i - 1));
  }

  lemma InnerWordIsKeyWord(key: seq<bv8>, i: nat)
    requires IsKey(key) && i >= |key| / 4
    requires i % (|key| / 4) != 0 && !(|key| == 32 && i % 8 == 4)
    ensures Xor(KeyWord(key, i - |key| / 4), KeyWord(key, i - 1)) == KeyWord(key, i)
  {
  }

  // ---- The schedule byte by byte ----

  // The round constants of section 5.2.
  const ROUND_CONSTANTS: seq<bv8> := [0x01, 0x02, 0x04, 0x08, 0x10, 0x20, 0x40, 0x80, 0x1b, 0x36]

  function ByteOf(w: bv32, j: nat): bv8
    requires j < 4
  {
    if j == 0 then Byte0(w) else if j == 1 then Byte1(w) else if j == 2 then Byte2(w) else Byte3(w)
  }

  // The first words are the bytes of the key in their order.
  ghost predicate BeginsWith(key: seq<bv8>, w: seq<bv32>) {
    && |key| <= 4 * |w|
    && forall i: nat, j: nat | 4 * i + 4 <= |key| && j < 4 :: ByteOf(w[i], j) == key[4 * i + j]
  }

  // Each byte of a later word is the one nk words back, with the byte before it in the schedule added: through the
  // S-box and a byte further on, with a round constant, where a group starts; through the S-box in the middle of a
  // 256-bit group; and as it is elsewhere.
  predicate Recurs(nk: nat, w: seq<bv32>, i: nat, j: nat)
    requires 0 < nk <= i < |w| && j < 4
  {
    0 < i / nk <= 10 &&
    var back, temp := w[i - nk], w[i - 1];
    ByteOf(w[i], j)
    == if i % nk == 0 then
         Add(Add(ByteOf(back, j), SBox(ByteOf(temp, (j + 1) % 4))), if j == 0 then ROUND_CONSTANTS[i / nk - 1] else 0)
       else if nk == 8 && i % 8 == 4 then Add(ByteOf(back, j), SBox(ByteOf(temp, j)))
       else Add(ByteOf(back, j), ByteOf(temp, j))
  }

  ghost predicate IsScheduleOf(key: seq<bv8>, w: seq<bv32>)
    requires IsKey(key)
  {
    var nk := |key| / 4;
    && |w| == |key| + 28
    && BeginsWith(key, w)
    && forall i: nat, j: nat | nk <= i < |w| && j < 4 :: Recurs(nk, w, i, j)
  }

  lemma XorBytes(v: bv32, w: bv32, j: nat)
    requires j < 4
    ensures ByteOf(Xor(v, w), j) == Add(ByteOf(v, j), ByteOf(w, j))
  {
    hide Xor, Add, Byte0, Byte1, Byte2, Byte3;
    XorByte0(v, w);
    XorByte1(v, w);
    XorByte2(v, w);
    XorByte3(v, w);
  }

  lemma WordByteOf(a: bv8, b: bv8, c: bv8, d: bv8, j: nat)
    requires j < 4
    ensures ByteOf(Word(a, b, c, d), j) == [a, b, c, d][j]
  {
    hide Word, Byte0, Byte1, Byte2, Byte3;
    WordBytes(a, b, c, d);
  }

  lemma SubBytesOfWords(w: bv32, j: nat)
    requires j < 4
    ensures ByteOf(SubWord(w), j) == SBox(ByteOf(w, j))
    ensures ByteOf(RotWord(w), j) == ByteOf(w, (j + 1) % 4)
  {
    hide Word, SBox, Byte0, Byte1, Byte2, Byte3;
    WordByteOf(Byte1(w), Byte2(w), Byte3(w), Byte0(w), j);
    WordByteOf(SBox(Byte0(w)), SBox(Byte1(w)), SBox(Byte2(w)), SBox(Byte3(w)), j);
  }

  lemma ConstantsArePowers(g: nat)
    requires 0 < g <= 10
    ensures ROUND_CONSTANTS[g - 1] == RconByte(g)
  {
    PowersBelow();
  }

  lemma PowersBelow()
    ensures RconByte(1) == 0x01 && RconByte(2) == 0x02 && RconByte(3) == 0x04 && RconByte(4) == 0x08
    ensures RconByte(5) == 0x10 && RconByte(6) == 0x20 && RconByte(7) == 0x40 && RconByte(8) == 0x80
    ensures RconByte(9) == 0x1b && RconByte(10) == 0x36
  {
    assert RconByte(2) == 0x02;
    assert RconByte(4) == 0x08;
    assert RconByte(6) == 0x20;
    assert RconByte(8) == 0x80;
  }

  lemma GroupIndex(nk: nat, i: nat)
    requires (nk == 4 || nk == 6 || nk == 8) && nk <= i < 4 * nk + 28
    ensures 0 < i / nk <= 10
  {
  }

  lemma KeyWordRecurs(key: seq<bv8>, i: nat, j: nat)
    requires IsKey(key) && |key| / 4 <= i < |key| + 28 && j < 4
    ensures Recurs(|key| / 4, KeySchedule(key), i, j)
  {
    hide Xor, Add, SBox, SubWord, RotWord, ByteOf, RconByte, Word, KeyWord;
    var nk := |key| / 4;
    GroupIndex(nk, i);
    KeyWordAt(key, i);
    var back, temp := KeyWord(key, i - nk), KeyWord(key, i - 1);
    if i % nk == 0 {
      GroupBytes(back, temp, i / nk, j);
    } else if nk == 8 && i % 8 == 4 {
      XorBytes(back, SubWord(temp), j);
      SubBytesOfWords(temp, j);
    } else {
      XorBytes(back, temp, j);
    }
  }

  lemma KeyWordAt(key: seq<bv8>, i: nat)
    requires IsKey(key) && |key| / 4 <= i
    ensures var nk := |key| / 4;
            var back, temp := KeyWord(key, i - nk), KeyWord(key, i - 1);
            KeyWord(key, i)
            == if i % nk == 0 then Xor(back, Xor(SubWord(RotWord(temp)), Word(RconByte(i / nk), 0, 0, 0)))
               else if nk == 8 && i % nk == 4 then Xor(back, SubWord(temp))
               else Xor(back, temp)
  {
    hide Xor, SubWord, RotWord, Word, RconByte;
  }

  lemma GroupBytes(back: bv32, temp: bv32, g: nat, j: nat)
    requires 0 < g <= 10 && j < 4
    ensures ByteOf(Xor(back, Xor(SubWord(RotWord(temp)), Word(RconByte(g), 0, 0, 0))), j)
         == Add(Add(ByteOf(back, j), SBox(ByteOf(temp, (j + 1) % 4))), if j == 0 then ROUND_CONSTANTS[g - 1] else 0)
  {
    hide Xor, Add, SBox, SubWord, RotWord, ByteOf, RconByte, Word;
    var s, c := SubWord(RotWord(temp)), Word(RconByte(g), 0, 0, 0);
    ConstantsArePowers(g);
    XorBytes(back, Xor(s, c), j);
    XorBytes(s, c, j);
    SubBytesOfWords(RotWord(temp), j);
    SubBytesOfWords(temp, j);
    WordByteOf(RconByte(g), 0, 0, 0, j);
    AddTogether(ByteOf(back, j), ByteOf(s, j), ByteOf(c, j));
  }

  lemma AddTogether(a: bv8, b: bv8, c: bv8)
    ensures Add(a, Add(b, c)) == Add(Add(a, b), c)
  {
  }

  /** The schedule begins with the bytes of the key, and goes on by the recurrence of section 5.2 at every byte. */
  lemma ScheduleByBytes(key: seq<bv8>)
    requires IsKey(key)
    ensures IsScheduleOf(key, KeySchedule(key))
  {
    hide KeyWord, Recurs, ByteOf, Word;
    var w := KeySchedule(key);
    forall i: nat, j: nat | 4 * i + 4 <= |key| && j < 4
      ensures ByteOf(w[i], j) == key[4 * i + j]
    {
      FirstWords(key, i, j);
    }
    forall i: nat, j: nat | |key| / 4 <= i < |w| && j < 4
      ensures Recurs(|key| / 4, w, i, j)
    {
      KeyWordRecurs(key, i, j);
    }
  }

  lemma FirstWords(key: seq<bv8>, i: nat, j: nat)
    requires IsKey(key) && 4 * i + 4 <= |key| && j < 4
    ensures ByteOf(KeyWord(key, i), j) == key[4 * i + j]
  {
    hide Word, ByteOf;
    WordByteOf(key[4 * i], key[4 * i + 1], key[4 * i + 2], key[4 * i + 3], j);
  }

  // ---- The key structure and the two schedule functions ----

  class AesKey {
    const rdKey: array<bv32>
    var rounds: nat

    constructor ()
      ensures fresh(rdKey) && rdKey.Length == RD_KEY_WORDS
    {
      rdKey := new bv32[RD_KEY_WORDS];
      rounds := 0;
    }

    ghost predicate Valid()
      reads this
    {
      rdKey.Length == RD_KEY_WORDS
    }
  }

  // The words rd[0 .. n) are the first n words of the expansion, and the rest is as it was.
  ghost predicate Expanded(key: seq<bv8>, rd: seq<bv32>, was: seq<bv32>, n: nat)
    requires IsKey(key)
  {
    && |rd| == |was| && n <= |rd|
    && (forall j: nat | j < n :: rd[j] == KeyWord(key, j))
    && rd[n..] == was[n..]
  }

  lemma ExpandedOne(key: seq<bv8>, rd: seq<bv32>, was: seq<bv32>, n: nat)
    requires IsKey(key) && Expanded(key, rd, was, n) && n < |rd|
    ensures Expanded(key, rd[n := KeyWord(key, n)], was, n + 1)
  {
    var rd' := rd[n := KeyWord(key, n)];
    assert rd'[n + 1..] == rd[n..][1..];
    assert was[n + 1..] == was[n..][1..];
  }

  // Store word n of the expansion after the n words before it.
  method StoreWord(ghost key: seq<bv8>, rd: array<bv32>, ghost was: seq<bv32>, n: nat, w: bv32)
    requires IsKey(key) && n < rd.Length && Expanded(key, rd[..], was, n) && w == KeyWord(key, n)
    modifies rd
    ensures Expanded(key, rd[..], was, n + 1)
  {
    hide KeyWord, Expanded;
    ghost var before := rd[..];
    rd[n] := w;
    assert rd[..] == before[n := w];
    ExpandedOne(key, before, was, n);
  }

  // Store the four bytes of the user key that make word n.
  method StoreKeyWord(userKey: array<bv8>, ghost key: seq<bv8>, rd: array<bv32>, ghost was: seq<bv32>, n: nat)
    requires IsKey(key) && |key| <= userKey.Length && key == userKey[..|key|]
    requires n < |key| / 4 && n < rd.Length && Expanded(key, rd[..], was, n)
    modifies rd
    ensures Expanded(key, rd[..], was, n + 1)
  {
    hide Word, Expanded;
    var p := 4 * n;
    StoreWord(key, rd, was, n, Word(userKey[p], userKey[p + 1], userKey[p + 2], userKey[p + 3]));
  }

  // rk[n] = rk[n - nk] ^ rk[n - 1], inside a group.
  method StoreInnerWord(ghost key: seq<bv8>, rd: array<bv32>, ghost was: seq<bv32>, nk: nat, n: nat)
    requires IsKey(key) && |key| == 4 * nk && nk <= n < rd.Length && Expanded(key, rd[..], was, n)
    requires n % nk != 0 && !(nk == 8 && n % 8 == 4)
    modifies rd
    ensures Expanded(key, rd[..], was, n + 1)
  {
    hide Xor, KeyWord;
    InnerWordIsKeyWord(key, n);
    StoreWord(key, rd, was, n, Xor(rd[n - nk], rd[n - 1]));
  }

  // rk[n] for the first word of group g, from temp = rk[n - 1].
  method StoreGroupWord(ghost key: seq<bv8>, rd: array<bv32>, ghost was: seq<bv32>, nk: nat, g: nat)
    requires IsKey(key) && |key| == 4 * nk && g < 10
    requires nk * g + nk < rd.Length && Expanded(key, rd[..], was, nk * g + nk)
    modifies rd
    ensures Expanded(key, rd[..], was, nk * g + nk + 1)
  {
    hide Xor, KeyWord, GroupWord, Rcon;
    var n := nk * g + nk;
    var temp := rd[n - 1];
    GroupWordIsKeyWord(key, nk, g);
    StoreWord(key, rd, was, n, GroupWord(rd[n - nk], temp, Rcon(g)));
  }

  // rk[n] for the fifth word of a 256-bit group, from temp = rk[n - 1].
  method StoreHalfGroupWord(ghost key: seq<bv8>, rd: array<bv32>, ghost was: seq<bv32>, n: nat)
    requires |key| == 32 && 8 <= n < rd.Length && n % 8 == 4 && Expanded(key, rd[..], was, n)
    modifies rd
    ensures Expanded(key, rd[..], was, n + 1)
  {
    hide Xor, KeyWord, HalfGroupWord;
    var temp := rd[n - 1];
    HalfGroupWordIsKeyWord(key, n);
    StoreWord(key, rd, was, n, HalfGroupWord(rd[n - 8], temp));
  }

  // The loop for 128 bits; off is how far the source has advanced rk.
  method Expand128(ghost key: seq<bv8>, rd: array<bv32>, ghost was: seq<bv32>)
    requires |key| == 16 && rd.Length == RD_KEY_WORDS && Expanded(key, rd[..], was, 4)
    modifies rd
    ensures Expanded(key, rd[..], was, 44)
  {
    hide Expanded;
    var i, off := 0, 0;
    while true
      invariant i < 10 && off == 4 * i
      invariant Expanded(key, rd[..], was, off + 4)
      decreases 10 - i
    {
      StoreGroupWord(key, rd, was, 4, i);
      StoreInnerWord(key, rd, was, 4, off + 5);
      StoreInnerWord(key, rd, was, 4, off + 6);
      StoreInnerWord(key, rd, was, 4, off + 7);
      i := i + 1;
      if i == 10 {
        return;
      }
      off := off + 4;
    }
  }

  // The loop for 192 bits, which stops in the middle of its last group.
  method Expand192(ghost key: seq<bv8>, rd: array<bv32>, ghost was: seq<bv32>)
    requires |key| == 24 && rd.Length == RD_KEY_WORDS && Expanded(key, rd[..], was, 6)
    modifies rd
    ensures Expanded(key, rd[..], was, 52)
  {
    hide Expanded;
    var i, off := 0, 0;
    while true
      invariant i < 8 && off == 6 * i
      invariant Expanded(key, rd[..], was, off + 6)
      decreases 8 - i
    {
      StoreGroupWord(key, rd, was, 6, i);
      StoreInnerWord(key, rd, was, 6, off + 7);
      StoreInnerWord(key, rd, was, 6, off + 8);
      StoreInnerWord(key, rd, was, 6, off + 9);
      i := i + 1;
      if i == 8 {
        return;
      }
      StoreInnerWord(key, rd, was, 6, off + 10);
      StoreInnerWord(key, rd, was, 6, off + 11);
      off := off + 6;
    }
  }

  // The loop for 256 bits, which stops in the middle of its last group.
  method Expand256(ghost key: seq<bv8>, rd: array<bv32>, ghost was: seq<bv32>)
    requires |key| == 32 && rd.Length == RD_KEY_WORDS && Expanded(key, rd[..], was, 8)
    modifies rd
    ensures Expanded(key, rd[..], was, 60)
  {
    hide Expanded;
    var i, off := 0, 0;
    while true
      invariant i < 7 && off == 8 * i
      invariant Expanded(key, rd[..], was, off + 8)
      decreases 7 - i
    {
      StoreGroupWord(key, rd, was, 8, i);
      StoreInnerWord(key, rd, was, 8, off + 9);
      StoreInnerWord(key, rd, was, 8, off + 10);
      StoreInnerWord(key, rd, was, 8, off + 11);
      i := i + 1;
      if i == 7 {
        return;
      }
      StoreHalfGroupWord(key, rd, was, off + 12);
      StoreInnerWord(key, rd, was, 8, off + 13);
      StoreInnerWord(key, rd, was, 8, off + 14);
      StoreInnerWord(key, rd, was, 8, off + 15);
      off := off + 8;
    }
  }

  /** AES_set_encrypt_key: the schedule of section 5.2 in exactly the first 4 * (rounds + 1) words. */
  method SetEncryptKey(userKey: array?<bv8>, bits: int, key: AesKey?) returns (status: int)
    requires key != null ==> key.Valid()
    requires userKey != null && ValidBits(bits) ==> bits / 8 <= userKey.Length
    modifies if key == null then {} else {key, key.rdKey}
    ensures status == if userKey == null || key == null then -1 else if bits !in {128, 192, 256} then -2 else 0
    ensures status == 0 ==>
              && key.rounds == bits / 32 + 6
              && key.rdKey[..4 * (key.rounds + 1)] == KeySchedule(userKey[..bits / 8])
              && key.rdKey[4 * (key.rounds + 1)..] == old(key.rdKey[4 * (bits / 32 + 7)..])
    ensures status == 0 ==> IsScheduleOf(userKey[..bits / 8], key.rdKey[..4 * (key.rounds + 1)])
    ensures status != 0 && key != null ==> key.rounds == old(key.rounds) && key.rdKey[..] == old(key.rdKey[..])
  {
    hide KeyWord, IsScheduleOf;
    if userKey == null || key == null {
      return -1;
    }
    if bits != 128 && bits != 192 && bits != 256 {
      return -2;
    }
    var rk := key.rdKey;
    if bits == 128 {
      key.rounds := 10;
    } else if bits == 192 {
      key.rounds := 12;
    } else {
      key.rounds := 14;
    }
    ghost var k := userKey[..bits / 8];
    ScheduleByBytes(k);
    ghost var was := rk[..];
    StoreKeyWord(userKey, k, rk, was, 0);
    StoreKeyWord(userKey, k, rk, was, 1);
    StoreKeyWord(userKey, k, rk, was, 2);
    StoreKeyWord(userKey, k, rk, was, 3);
    if bits == 128 {
      Expand128(k, rk, was);
      return 0;
    }
    StoreKeyWord(userKey, k, rk, was, 4);
    StoreKeyWord(userKey, k, rk, was, 5);
    if bits == 192 {
      Expand192(k, rk, was);
      return 0;
    }
    StoreKeyWord(userKey, k, rk, was, 6);
    StoreKeyWord(userKey, k, rk, was, 7);
    Expand256(k, rk, was);
    return 0;
  }
}
