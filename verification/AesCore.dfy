/** AES_set_decrypt_key, AES_encrypt and AES_decrypt: the table-driven code, on arrays. */
module AesCore {
  import opened AesTables
  import opened AesSpec
  import opened AesWords
  import opened AesKeySchedule

  // ---- The decryption schedule ----

  // Where word k comes from once the order of the round keys is reversed.
  function Mirror(k: nat, nr: nat): (m: nat)
    requires k < 4 * nr + 4
    ensures m < 4 * nr + 4
    ensures m / 4 == nr - k / 4 && m % 4 == k % 4
  {
    4 * (nr - k / 4) + k % 4
  }

  function InvMixed(w: bv32): bv32 { WordOf(InvMixColumn(ColumnOf(w))) }

  function Reversed(rk: seq<bv32>, nr: nat): (s: seq<bv32>)
    requires |rk| == 4 * nr + 4
    ensures |s| == |rk|
  {
    seq(|rk|, k requires 0 <= k < |rk| => rk[Mirror(k, nr)])
  }

  function InnerMixed(rk: seq<bv32>, nr: nat): (s: seq<bv32>)
    requires |rk| == 4 * nr + 4
    ensures |s| == |rk|
  {
    seq(|rk|, k requires 0 <= k < |rk| => if k < 4 || k >= 4 * nr then rk[k] else InvMixed(rk[k]))
  }

  /** The schedule of section 5.3.5. */
  function DecryptSchedule(rk: seq<bv32>, nr: nat): (dk: seq<bv32>)
    requires |rk| == 4 * nr + 4
    ensures |dk| == |rk|
  {
    InnerMixed(Reversed(rk, nr), nr)
  }

  lemma DecryptScheduleIsOne(rk: seq<bv32>, nr: nat)
    requires 0 < nr && |rk| == 4 * nr + 4
    ensures IsDecryptSchedule(rk, DecryptSchedule(rk, nr), nr)
  {
    hide InvMixColumn, ColumnOf, WordOf;
    var dk := DecryptSchedule(rk, nr);
    forall r: nat | r <= nr
      ensures RoundKey(dk, r)
           == if r == 0 || r == nr then RoundKey(rk, nr - r) else InvMixColumns(RoundKey(rk, nr - r))
    {
      var p, q := 4 * r, 4 * (nr - r);
      assert Mirror(p, nr) == q && Mirror(p + 1, nr) == q + 1;
      assert Mirror(p + 2, nr) == q + 2 && Mirror(p + 3, nr) == q + 3;
      ColumnWord(InvMixColumn(ColumnOf(rk[q])), 0);
      ColumnWord(InvMixColumn(ColumnOf(rk[q + 1])), 0);
      ColumnWord(InvMixColumn(ColumnOf(rk[q + 2])), 0);
      ColumnWord(InvMixColumn(ColumnOf(rk[q + 3])), 0);
    }
  }

  lemma InvMixWordIsInvMixed(w: bv32)
    ensures InvMixWord(w) == InvMixed(w)
  {
    hide InvMixColumn, ColumnOf, WordOf, InvMixWord;
    InvMixWordColumn(w);
    ColumnWord(ColumnOf(w), InvMixWord(w));
  }

  // The first m words and their mirror images have changed places.
  ghost predicate ReversedUpTo(s: seq<bv32>, was: seq<bv32>, nr: nat, m: nat)
    requires |s| == |was| >= 4 * nr + 4
  {
    && s[4 * nr + 4..] == was[4 * nr + 4..]
    && forall k: nat | k < 4 * nr + 4 ::
         s[k] == if k < m || Mirror(k, nr) < m then was[Mirror(k, nr)] else was[k]
  }

  lemma SwapExtends(s: seq<bv32>, was: seq<bv32>, nr: nat, m: nat)
    requires |s| == |was| >= 4 * nr + 4 && m < 4 * nr + 4
    requires ReversedUpTo(s, was, nr, m) && m / 4 < Mirror(m, nr) / 4
    ensures ReversedUpTo(s[m := s[Mirror(m, nr)]][Mirror(m, nr) := s[m]], was, nr, m + 1)
  {
    var n := Mirror(m, nr);
    var t := s[m := s[n]][n := s[m]];
    assert Mirror(n, nr) == m;
    assert t[4 * nr + 4..] == s[4 * nr + 4..];
    forall k: nat | k < 4 * nr + 4
      ensures t[k] == if k < m + 1 || Mirror(k, nr) < m + 1 then was[Mirror(k, nr)] else was[k]
    {
      assert Mirror(Mirror(k, nr), nr) == k;
    }
  }

  method SwapWords(rk: array<bv32>, ghost was: seq<bv32>, ghost nr: nat, a: nat, b: nat)
    requires rk.Length == |was| >= 4 * nr + 4 && a < 4 * nr + 4 && b == Mirror(a, nr) && a / 4 < b / 4
    requires ReversedUpTo(rk[..], was, nr, a)
    modifies rk
    ensures ReversedUpTo(rk[..], was, nr, a + 1)
  {
    hide ReversedUpTo, Mirror;
    ghost var before := rk[..];
    var temp := rk[a];
    rk[a] := rk[b];
    rk[b] := temp;
    assert rk[..] == before[a := before[b]][b := before[a]];
    SwapExtends(before, was, nr, a);
  }

  // Reverse the order of the round keys in place.
  method ReverseRoundKeys(rk: array<bv32>, nr: nat)
    requires nr % 2 == 0 && 4 * nr + 4 <= rk.Length
    modifies rk
    ensures rk[..4 * nr + 4] == Reversed(old(rk[..4 * nr + 4]), nr)
    ensures rk[4 * nr + 4..] == old(rk[4 * nr + 4..])
  {
    hide ReversedUpTo, Reversed, Mirror;
    ghost var was := rk[..];
    NoneReversed(was, nr);
    var i, j := 0, 4 * nr;
    while i < j
      invariant i % 4 == 0 && i + j == 4 * nr && i <= j
      invariant ReversedUpTo(rk[..], was, nr, i)
    {
      MirrorGroup(nr, i, j);
      SwapWords(rk, was, nr, i, j);
      SwapWords(rk, was, nr, i + 1, j + 1);
      SwapWords(rk, was, nr, i + 2, j + 2);
      SwapWords(rk, was, nr, i + 3, j + 3);
      i, j := i + 4, j - 4;
    }
    AllReversed(rk[..], was, nr);
    assert was[..4 * nr + 4] == old(rk[..4 * nr + 4]) && was[4 * nr + 4..] == old(rk[4 * nr + 4..]);
    assert rk[..][..4 * nr + 4] == rk[..4 * nr + 4] && rk[..][4 * nr + 4..] == rk[4 * nr + 4..];
  }

  lemma MirrorGroup(nr: nat, i: nat, j: nat)
    requires i % 4 == 0 && i + j == 4 * nr && i < j
    ensures Mirror(i, nr) == j && Mirror(i + 1, nr) == j + 1
    ensures Mirror(i + 2, nr) == j + 2 && Mirror(i + 3, nr) == j + 3
    ensures i / 4 < j / 4 && (i + 1) / 4 < (j + 1) / 4 && (i + 2) / 4 < (j + 2) / 4 && (i + 3) / 4 < (j + 3) / 4
    ensures nr % 2 == 0 ==> i + 4 <= j - 4
  {
    var a := i / 4;
    assert i == 4 * a && j == 4 * (nr - a);
  }

  lemma NoneReversed(was: seq<bv32>, nr: nat)
    requires |was| >= 4 * nr + 4
    ensures ReversedUpTo(was, was, nr, 0)
  {
  }

  lemma AllReversed(s: seq<bv32>, was: seq<bv32>, nr: nat)
    requires nr % 2 == 0 && |s| == |was| >= 4 * nr + 4
    requires ReversedUpTo(s, was, nr, 2 * nr)
    ensures s[..4 * nr + 4] == Reversed(was[..4 * nr + 4], nr)
    ensures s[4 * nr + 4..] == was[4 * nr + 4..]
  {
    forall k: nat | k < 4 * nr + 4
      ensures s[k] == was[Mirror(k, nr)]
    {
      if k / 4 == nr / 2 {
        assert Mirror(k, nr) == k;
      }
    }
  }

  // Apply the inverse MixColumn to all round keys but the first and the last.
  method InvMixRoundKeys(rk: array<bv32>, nr: nat)
    requires 0 < nr && 4 * nr + 4 <= rk.Length
    modifies rk
    ensures rk[..4 * nr + 4] == InnerMixed(old(rk[..4 * nr + 4]), nr)
    ensures rk[4 * nr + 4..] == old(rk[4 * nr + 4..])
  {
    hide InvMixWord, InvMixed;
    var off := 0;
    for i := 1 to nr
      invariant off == 4 * (i - 1)
      invariant forall k: nat | k < rk.Length ::
                  rk[k] == if 4 <= k < 4 * i then InvMixed(old(rk[k])) else old(rk[k])
    {
      off := off + 4;
      InvMixWordIsInvMixed(rk[off]);
      InvMixWordIsInvMixed(rk[off + 1]);
      InvMixWordIsInvMixed(rk[off + 2]);
      InvMixWordIsInvMixed(rk[off + 3]);
      rk[off] := InvMixWord(rk[off]);
      rk[off + 1] := InvMixWord(rk[off + 1]);
      rk[off + 2] := InvMixWord(rk[off + 2]);
      rk[off + 3] := InvMixWord(rk[off + 3]);
    }
  }

  /** AES_set_decrypt_key: the encryption schedule turned into the schedule of section 5.3.5. */
  method SetDecryptKey(userKey: array?<bv8>, bits: int, key: AesKey?) returns (status: int)
    requires key != null ==> key.Valid()
    requires userKey != null && ValidBits(bits) ==> bits / 8 <= userKey.Length
    modifies if key == null then {} else {key, key.rdKey}
    ensures status == if userKey == null || key == null then -1 else if bits !in {128, 192, 256} then -2 else 0
    ensures status == 0 ==>
              && key.rounds == bits / 32 + 6
              && key.rdKey[..4 * (key.rounds + 1)] == DecryptSchedule(KeySchedule(userKey[..bits / 8]), key.rounds)
              && key.rdKey[4 * (key.rounds + 1)..] == old(key.rdKey[4 * (bits / 32 + 7)..])
    ensures status != 0 && key != null ==> key.rounds == old(key.rounds) && key.rdKey[..] == old(key.rdKey[..])
  {
    hide KeySchedule, Reversed, InnerMixed;
    status := SetEncryptKey(userKey, bits, key);
    if status < 0 {
      return;
    }
    ReverseRoundKeys(key.rdKey, key.rounds);
    InvMixRoundKeys(key.rdKey, key.rounds);
  }

  // ---- One block ----

  predicate IsBlock(b: seq<bv8>) { |b| == 16 }

  function StateOf(b: seq<bv8>): State
    requires IsBlock(b)
  {
    State(Column(b[0], b[1], b[2], b[3]), Column(b[4], b[5], b[6], b[7]),
          Column(b[8], b[9], b[10], b[11]), Column(b[12], b[13], b[14], b[15]))
  }

  function BytesOf(s: State): (b: seq<bv8>)
    ensures IsBlock(b) && StateOf(b) == s
  {
    [s.c0.b0, s.c0.b1, s.c0.b2, s.c0.b3, s.c1.b0, s.c1.b1, s.c1.b2, s.c1.b3,
     s.c2.b0, s.c2.b1, s.c2.b2, s.c2.b3, s.c3.b0, s.c3.b1, s.c3.b2, s.c3.b3]
  }

  lemma BytesOfState(b: seq<bv8>)
    requires IsBlock(b)
    ensures BytesOf(StateOf(b)) == b
  {
  }

  predicate ValidRounds(nr: int) { nr == 10 || nr == 12 || nr == 14 }

  // What AES_encrypt and AES_decrypt compute under a schedule.
  function EncryptedBlock(b: seq<bv8>, rk: seq<bv32>, nr: nat): (c: seq<bv8>)
    requires IsBlock(b) && 0 < nr && 4 * nr + 4 <= |rk|
    ensures IsBlock(c)
  {
    BytesOf(Cipher(StateOf(b), rk, nr))
  }

  function DecryptedBlock(b: seq<bv8>, dk: seq<bv32>, nr: nat): (c: seq<bv8>)
    requires IsBlock(b) && 0 < nr && 4 * nr + 4 <= |dk|
    ensures IsBlock(c)
  {
    BytesOf(EqInvCipher(StateOf(b), dk, nr))
  }

  // One block under a key of 16, 24 or 32 bytes.
  function EncryptBlock(b: seq<bv8>, key: seq<bv8>): (c: seq<bv8>)
    requires IsBlock(b) && IsKey(key)
    ensures IsBlock(c)
  {
    EncryptedBlock(b, KeySchedule(key), |key| / 4 + 6)
  }

  function DecryptBlock(b: seq<bv8>, key: seq<bv8>): (c: seq<bv8>)
    requires IsBlock(b) && IsKey(key)
    ensures IsBlock(c)
  {
    DecryptedBlock(b, DecryptSchedule(KeySchedule(key), |key| / 4 + 6), |key| / 4 + 6)
  }

  /** For every key and block, decrypting under the decryption schedule undoes encrypting. */
  lemma DecryptUndoesEncrypt(b: seq<bv8>, key: seq<bv8>)
    requires IsBlock(b) && IsKey(key)
    ensures DecryptBlock(EncryptBlock(b, key), key) == b
  {
    hide Cipher, InvCipher, EqInvCipher, KeySchedule, DecryptSchedule, StateOf, BytesOf;
    var rk, nr := KeySchedule(key), |key| / 4 + 6;
    var s := StateOf(b);
    DecryptScheduleIsOne(rk, nr);
    EqInvCipherIsInvCipher(Cipher(s, rk, nr), rk, DecryptSchedule(rk, nr), nr);
    InvCipherUndoesCipher(s, rk, nr);
    BytesOfState(b);
  }

  function GetU32(b: array<bv8>, i: nat): bv32
    requires i + 4 <= b.Length
    reads b
  {
    Word(b[i], b[i + 1], b[i + 2], b[i + 3])
  }

  method PutU32(b: array<bv8>, i: nat, w: bv32)
    requires i + 4 <= b.Length
    modifies b
    ensures b[i] == Byte0(w) && b[i + 1] == Byte1(w) && b[i + 2] == Byte2(w) && b[i + 3] == Byte3(w)
    ensures forall k: nat | k < b.Length && !(i <= k < i + 4) :: b[k] == old(b[k])
  {
    hide Byte0, Byte1, Byte2, Byte3;
    b[i] := Byte0(w);
    b[i + 1] := Byte1(w);
    b[i + 2] := Byte2(w);
    b[i + 3] := Byte3(w);
  }

  // The four words of a state.
  function Words(s0: bv32, s1: bv32, s2: bv32, s3: bv32): State {
    State(ColumnOf(s0), ColumnOf(s1), ColumnOf(s2), ColumnOf(s3))
  }

  lemma FirstAddition(b: seq<bv8>, p: nat, rk: seq<bv32>)
    requires p + 16 <= |b| && 4 <= |rk|
    ensures Words(Xor(GetWord(b, p), rk[0]), Xor(GetWord(b, p + 4), rk[1]),
                  Xor(GetWord(b, p + 8), rk[2]), Xor(GetWord(b, p + 12), rk[3]))
         == AddRoundKey(StateOf(b[p..p + 16]), RoundKey(rk, 0))
  {
    hide Word, Xor, ColumnOf, XorColumn;
    var s := StateOf(b[p..p + 16]);
    XorColumns(WordOf(s.c0), rk[0]);
    XorColumns(WordOf(s.c1), rk[1]);
    XorColumns(WordOf(s.c2), rk[2]);
    XorColumns(WordOf(s.c3), rk[3]);
    ColumnWord(s.c0, 0);
    ColumnWord(s.c1, 0);
    ColumnWord(s.c2, 0);
    ColumnWord(s.c3, 0);
  }

  lemma EncWordsRound(s0: bv32, s1: bv32, s2: bv32, s3: bv32, rk: seq<bv32>, r: nat)
    requires 4 * r + 4 <= |rk|
    ensures Words(EncWord(s0, s1, s2, s3, rk[4 * r]), EncWord(s1, s2, s3, s0, rk[4 * r + 1]),
                  EncWord(s2, s3, s0, s1, rk[4 * r + 2]), EncWord(s3, s0, s1, s2, rk[4 * r + 3]))
         == AddRoundKey(MixColumns(ShiftRows(SubBytes(Words(s0, s1, s2, s3)))), RoundKey(rk, r))
  {
    EncWordColumn(s0, s1, s2, s3, rk[4 * r]);
    EncWordColumn(s1, s2, s3, s0, rk[4 * r + 1]);
    EncWordColumn(s2, s3, s0, s1, rk[4 * r + 2]);
    EncWordColumn(s3, s0, s1, s2, rk[4 * r + 3]);
    hide EncWord, MixColumn, XorColumn, SBox, Byte0, Byte1, Byte2, Byte3;
  }

  lemma DecWordsRound(s0: bv32, s1: bv32, s2: bv32, s3: bv32, dk: seq<bv32>, r: nat)
    requires 4 * r + 4 <= |dk|
    ensures Words(DecWord(s0, s3, s2, s1, dk[4 * r]), DecWord(s1, s0, s3, s2, dk[4 * r + 1]),
                  DecWord(s2, s1, s0, s3, dk[4 * r + 2]), DecWord(s3, s2, s1, s0, dk[4 * r + 3]))
         == AddRoundKey(InvMixColumns(InvShiftRows(InvSubBytes(Words(s0, s1, s2, s3)))), RoundKey(dk, r))
  {
    DecWordColumn(s0, s3, s2, s1, dk[4 * r]);
    DecWordColumn(s1, s0, s3, s2, dk[4 * r + 1]);
    DecWordColumn(s2, s1, s0, s3, dk[4 * r + 2]);
    DecWordColumn(s3, s2, s1, s0, dk[4 * r + 3]);
    hide DecWord, InvMixColumn, XorColumn, InvSBox, Byte0, Byte1, Byte2, Byte3;
  }

  lemma EncLastWords(t0: bv32, t1: bv32, t2: bv32, t3: bv32, rk: seq<bv32>, r: nat)
    requires 4 * r + 4 <= |rk|
    ensures Words(EncLastWord(t0, t1, t2, t3, rk[4 * r]), EncLastWord(t1, t2, t3, t0, rk[4 * r + 1]),
                  EncLastWord(t2, t3, t0, t1, rk[4 * r + 2]), EncLastWord(t3, t0, t1, t2, rk[4 * r + 3]))
         == AddRoundKey(ShiftRows(SubBytes(Words(t0, t1, t2, t3))), RoundKey(rk, r))
  {
    EncLastWordColumn(t0, t1, t2, t3, rk[4 * r]);
    EncLastWordColumn(t1, t2, t3, t0, rk[4 * r + 1]);
    EncLastWordColumn(t2, t3, t0, t1, rk[4 * r + 2]);
    EncLastWordColumn(t3, t0, t1, t2, rk[4 * r + 3]);
    hide EncLastWord, XorColumn, SBox, Byte0, Byte1, Byte2, Byte3;
  }

  lemma DecLastWords(t0: bv32, t1: bv32, t2: bv32, t3: bv32, dk: seq<bv32>, r: nat)
    requires 4 * r + 4 <= |dk|
    ensures Words(DecLastWord(t0, t3, t2, t1, dk[4 * r]), DecLastWord(t1, t0, t3, t2, dk[4 * r + 1]),
                  DecLastWord(t2, t1, t0, t3, dk[4 * r + 2]), DecLastWord(t3, t2, t1, t0, dk[4 * r + 3]))
         == AddRoundKey(InvShiftRows(InvSubBytes(Words(t0, t1, t2, t3))), RoundKey(dk, r))
  {
    DecLastWordColumn(t0, t3, t2, t1, dk[4 * r]);
    DecLastWordColumn(t1, t0, t3, t2, dk[4 * r + 1]);
    DecLastWordColumn(t2, t1, t0, t3, dk[4 * r + 2]);
    DecLastWordColumn(t3, t2, t1, t0, dk[4 * r + 3]);
    hide DecLastWord, XorColumn, InvSBox, Byte0, Byte1, Byte2, Byte3;
  }

  // PUTU32 of the four words of a state.
  method PutState(out: array<bv8>, q: nat, s0: bv32, s1: bv32, s2: bv32, s3: bv32)
    requires q + 16 <= out.Length
    modifies out
    ensures out[q..q + 16] == BytesOf(Words(s0, s1, s2, s3))
    ensures out[..q] == old(out[..q]) && out[q + 16..] == old(out[q + 16..])
  {
    hide Byte0, Byte1, Byte2, Byte3;
    PutU32(out, q, s0);
    PutU32(out, q + 4, s1);
    PutU32(out, q + 8, s2);
    PutU32(out, q + 12, s3);
  }

  lemma EncFirstStep(b: seq<bv8>, p: nat, rk: seq<bv32>)
    requires p + 16 <= |b| && 4 <= |rk|
    ensures Words(Xor(GetWord(b, p), rk[0]), Xor(GetWord(b, p + 4), rk[1]),
                  Xor(GetWord(b, p + 8), rk[2]), Xor(GetWord(b, p + 12), rk[3]))
         == Rounds(StateOf(b[p..p + 16]), rk, 0)
  {
    hide Word, Xor, Words, AddRoundKey, RoundKey, StateOf;
    FirstAddition(b, p, rk);
  }

  lemma EncRoundsStep(s0: bv32, s1: bv32, s2: bv32, s3: bv32, b: State, rk: seq<bv32>, n: nat)
    requires 4 * n + 8 <= |rk| && Words(s0, s1, s2, s3) == Rounds(b, rk, n)
    ensures Words(EncWord(s0, s1, s2, s3, rk[4 * n + 4]),
                  EncWord(s1, s2, s3, s0, rk[4 * n + 5]),
                  EncWord(s2, s3, s0, s1, rk[4 * n + 6]),
                  EncWord(s3, s0, s1, s2, rk[4 * n + 7]))
         == Rounds(b, rk, n + 1)
  {
    hide EncWord, Words, AddRoundKey, MixColumns, ShiftRows, SubBytes, RoundKey;
    EncWordsRound(s0, s1, s2, s3, rk, n + 1);
  }

  lemma EncLastStep(t0: bv32, t1: bv32, t2: bv32, t3: bv32, b: State, rk: seq<bv32>, nr: nat)
    requires 0 < nr && 4 * nr + 4 <= |rk| && Words(t0, t1, t2, t3) == Rounds(b, rk, nr - 1)
    ensures Words(EncLastWord(t0, t1, t2, t3, rk[4 * nr]),
                  EncLastWord(t1, t2, t3, t0, rk[4 * nr + 1]),
                  EncLastWord(t2, t3, t0, t1, rk[4 * nr + 2]),
                  EncLastWord(t3, t0, t1, t2, rk[4 * nr + 3]))
         == Cipher(b, rk, nr)
  {
    hide EncLastWord, Words, AddRoundKey, MixColumns, ShiftRows, SubBytes, RoundKey;
    EncLastWords(t0, t1, t2, t3, rk, nr);
  }

  // Four words of one full round, under the round key at rk[off..].
  method EncRound(
    s0: bv32, s1: bv32, s2: bv32, s3: bv32, rk: array<bv32>, off: nat, ghost b: State, ghost ks: seq<bv32>)
    returns (t0: bv32, t1: bv32, t2: bv32, t3: bv32)
    requires 4 <= off && off % 4 == 0 && off + 4 <= |ks| <= rk.Length && ks == rk[..|ks|]
    requires Words(s0, s1, s2, s3) == Rounds(b, ks, off / 4 - 1)
    ensures Words(t0, t1, t2, t3) == Rounds(b, ks, off / 4)
  {
    hide EncWord, Words, Rounds;
    EncRoundsStep(s0, s1, s2, s3, b, ks, off / 4 - 1);
    t0 := EncWord(s0, s1, s2, s3, rk[off]);
    t1 := EncWord(s1, s2, s3, s0, rk[off + 1]);
    t2 := EncWord(s2, s3, s0, s1, rk[off + 2]);
    t3 := EncWord(s3, s0, s1, s2, rk[off + 3]);
  }

  // The rounds of AES_encrypt, two to an iteration; off is how far the source has advanced rk.
  method EncryptWords(input: array<bv8>, p: nat, key: AesKey) returns (s0: bv32, s1: bv32, s2: bv32, s3: bv32)
    requires p + 16 <= input.Length && key.Valid() && ValidRounds(key.rounds)
    ensures Words(s0, s1, s2, s3) == Cipher(StateOf(input[p..p + 16]), key.rdKey[..4 * key.rounds + 4], key.rounds)
  {
    hide Word, EncWord, EncLastWord, Xor, Words, Rounds, Cipher, AddRoundKey, RoundKey, StateOf;
    var rk := key.rdKey;
    ghost var ks := rk[..4 * key.rounds + 4];
    ghost var b := StateOf(input[p..p + 16]);
    ghost var n := 0;
    EncFirstStep(input[..], p, ks);
    assert input[..][p..p + 16] == input[p..p + 16];
    s0 := Xor(GetU32(input, p), rk[0]);
    s1 := Xor(GetU32(input, p + 4), rk[1]);
    s2 := Xor(GetU32(input, p + 8), rk[2]);
    s3 := Xor(GetU32(input, p + 12), rk[3]);
    var t0, t1, t2, t3 := 0, 0, 0, 0;
    var r := key.rounds / 2;
    var off := 0;
    while true
      invariant 0 < r && n + 2 * r == key.rounds && off == 4 * n
      invariant Words(s0, s1, s2, s3) == Rounds(b, ks, n)
      decreases r
    {
      t0, t1, t2, t3 := EncRound(s0, s1, s2, s3, rk, off + 4, b, ks);
      off := off + 8;
      r := r - 1;
      if r == 0 {
        n := n + 1;
        break;
      }
      s0, s1, s2, s3 := EncRound(t0, t1, t2, t3, rk, off, b, ks);
      n := n + 2;
    }
    EncLastStep(t0, t1, t2, t3, b, ks, key.rounds);
    s0 := EncLastWord(t0, t1, t2, t3, rk[off]);
    s1 := EncLastWord(t1, t2, t3, t0, rk[off + 1]);
    s2 := EncLastWord(t2, t3, t0, t1, rk[off + 2]);
    s3 := EncLastWord(t3, t0, t1, t2, rk[off + 3]);
  }

  // Rounds 10 to 13 written out, as far as the key asks for them.
  method EncLateRounds(
    r0: bv32, r1: bv32, r2: bv32, r3: bv32, rk: array<bv32>, rounds: int, ghost b: State, ghost ks: seq<bv32>)
    returns (t0: bv32, t1: bv32, t2: bv32, t3: bv32)
    requires ValidRounds(rounds) && |ks| == 4 * rounds + 4 <= rk.Length && ks == rk[..|ks|]
    requires Words(r0, r1, r2, r3) == Rounds(b, ks, 9)
    ensures Words(t0, t1, t2, t3) == Rounds(b, ks, rounds - 1)
  {
    hide Words, Rounds;
    t0, t1, t2, t3 := r0, r1, r2, r3;
    if rounds > 10 {
      var s0, s1, s2, s3 := EncRound(t0, t1, t2, t3, rk, 40, b, ks);
      t0, t1, t2, t3 := EncRound(s0, s1, s2, s3, rk, 44, b, ks);
      if rounds > 12 {
        s0, s1, s2, s3 := EncRound(t0, t1, t2, t3, rk, 48, b, ks);
        t0, t1, t2, t3 := EncRound(s0, s1, s2, s3, rk, 52, b, ks);
      }
    }
  }

  /** The rounds of AES_encrypt written out, as FULL_UNROLL has them: the same words as the loop. */
  method EncryptUnrolled(input: array<bv8>, p: nat, key: AesKey) returns (s0: bv32, s1: bv32, s2: bv32, s3: bv32)
    requires p + 16 <= input.Length && key.Valid() && ValidRounds(key.rounds)
    ensures Words(s0, s1, s2, s3) == Cipher(StateOf(input[p..p + 16]), key.rdKey[..4 * key.rounds + 4], key.rounds)
  {
    hide Word, EncWord, EncLastWord, Xor, Words, Rounds, Cipher, AddRoundKey, RoundKey, StateOf;
    var rk := key.rdKey;
    ghost var ks := rk[..4 * key.rounds + 4];
    ghost var b := StateOf(input[p..p + 16]);
    EncFirstStep(input[..], p, ks);
    assert input[..][p..p + 16] == input[p..p + 16];
    s0 := Xor(GetU32(input, p), rk[0]);
    s1 := Xor(GetU32(input, p + 4), rk[1]);
    s2 := Xor(GetU32(input, p + 8), rk[2]);
    s3 := Xor(GetU32(input, p + 12), rk[3]);
    var t0, t1, t2, t3 := EncRound(s0, s1, s2, s3, rk, 4, b, ks);
    s0, s1, s2, s3 := EncRound(t0, t1, t2, t3, rk, 8, b, ks);
    t0, t1, t2, t3 := EncRound(s0, s1, s2, s3, rk, 12, b, ks);
    s0, s1, s2, s3 := EncRound(t0, t1, t2, t3, rk, 16, b, ks);
    t0, t1, t2, t3 := EncRound(s0, s1, s2, s3, rk, 20, b, ks);
    s0, s1, s2, s3 := EncRound(t0, t1, t2, t3, rk, 24, b, ks);
    t0, t1, t2, t3 := EncRound(s0, s1, s2, s3, rk, 28, b, ks);
    s0, s1, s2, s3 := EncRound(t0, t1, t2, t3, rk, 32, b, ks);
    t0, t1, t2, t3 := EncRound(s0, s1, s2, s3, rk, 36, b, ks);
    t0, t1, t2, t3 := EncLateRounds(t0, t1, t2, t3, rk, key.rounds, b, ks);
    var off := key.rounds * 4;
    EncLastStep(t0, t1, t2, t3, b, ks, key.rounds);
    s0 := EncLastWord(t0, t1, t2, t3, rk[off]);
    s1 := EncLastWord(t1, t2, t3, t0, rk[off + 1]);
    s2 := EncLastWord(t2, t3, t0, t1, rk[off + 2]);
    s3 := EncLastWord(t3, t0, t1, t2, rk[off + 3]);
  }

  /** AES_encrypt on the 16 bytes at input[p..]; the two buffers may be the same and may overlap. */
  method Encrypt(input: array<bv8>, p: nat, out: array<bv8>, q: nat, key: AesKey)
    requires p + 16 <= input.Length && q + 16 <= out.Length
    requires key.Valid() && ValidRounds(key.rounds)
    modifies out
    ensures out[q..q + 16] == EncryptedBlock(old(input[p..p + 16]), key.rdKey[..4 * key.rounds + 4], key.rounds)
    ensures out[..q] == old(out[..q]) && out[q + 16..] == old(out[q + 16..])
  {
    hide Words, Cipher, EqInvCipher, StateOf, BytesOf;
    var s0, s1, s2, s3 := EncryptWords(input, p, key);
    PutState(out, q, s0, s1, s2, s3);
  }

  lemma DecFirstStep(b: seq<bv8>, p: nat, rk: seq<bv32>)
    requires p + 16 <= |b| && 4 <= |rk|
    ensures Words(Xor(GetWord(b, p), rk[0]), Xor(GetWord(b, p + 4), rk[1]),
                  Xor(GetWord(b, p + 8), rk[2]), Xor(GetWord(b, p + 12), rk[3]))
         == EqInvRounds(StateOf(b[p..p + 16]), rk, 0)
  {
    hide Word, Xor, Words, AddRoundKey, RoundKey, StateOf;
    FirstAddition(b, p, rk);
  }

  lemma DecRoundsStep(s0: bv32, s1: bv32, s2: bv32, s3: bv32, b: State, rk: seq<bv32>, n: nat)
    requires 4 * n + 8 <= |rk| && Words(s0, s1, s2, s3) == EqInvRounds(b, rk, n)
    ensures Words(DecWord(s0, s3, s2, s1, rk[4 * n + 4]),
                  DecWord(s1, s0, s3, s2, rk[4 * n + 5]),
                  DecWord(s2, s1, s0, s3, rk[4 * n + 6]),
                  DecWord(s3, s2, s1, s0, rk[4 * n + 7]))
         == EqInvRounds(b, rk, n + 1)
  {
    hide DecWord, Words, AddRoundKey, InvMixColumns, InvShiftRows, InvSubBytes, RoundKey;
    DecWordsRound(s0, s1, s2, s3, rk, n + 1);
  }

  lemma DecLastStep(t0: bv32, t1: bv32, t2: bv32, t3: bv32, b: State, rk: seq<bv32>, nr: nat)
    requires 0 < nr && 4 * nr + 4 <= |rk| && Words(t0, t1, t2, t3) == EqInvRounds(b, rk, nr - 1)
    ensures Words(DecLastWord(t0, t3, t2, t1, rk[4 * nr]),
                  DecLastWord(t1, t0, t3, t2, rk[4 * nr + 1]),
                  DecLastWord(t2, t1, t0, t3, rk[4 * nr + 2]),
                  DecLastWord(t3, t2, t1, t0, rk[4 * nr + 3]))
         == EqInvCipher(b, rk, nr)
  {
    hide DecLastWord, Words, AddRoundKey, InvMixColumns, InvShiftRows, InvSubBytes, RoundKey;
    DecLastWords(t0, t1, t2, t3, rk, nr);
  }

  // Four words of one full round, under the round key at rk[off..].
  method DecRound(
    s0: bv32, s1: bv32, s2: bv32, s3: bv32, rk: array<bv32>, off: nat, ghost b: State, ghost ks: seq<bv32>)
    returns (t0: bv32, t1: bv32, t2: bv32, t3: bv32)
    requires 4 <= off && off % 4 == 0 && off + 4 <= |ks| <= rk.Length && ks == rk[..|ks|]
    requires Words(s0, s1, s2, s3) == EqInvRounds(b, ks, off / 4 - 1)
    ensures Words(t0, t1, t2, t3) == EqInvRounds(b, ks, off / 4)
  {
    hide DecWord, Words, EqInvRounds;
    DecRoundsStep(s0, s1, s2, s3, b, ks, off / 4 - 1);
    t0 := DecWord(s0, s3, s2, s1, rk[off]);
    t1 := DecWord(s1, s0, s3, s2, rk[off + 1]);
    t2 := DecWord(s2, s1, s0, s3, rk[off + 2]);
    t3 := DecWord(s3, s2, s1, s0, rk[off + 3]);
  }

  // The rounds of AES_decrypt, two to an iteration; off is how far the source has advanced rk.
  method DecryptWords(input: array<bv8>, p: nat, key: AesKey) returns (s0: bv32, s1: bv32, s2: bv32, s3: bv32)
    requires p + 16 <= input.Length && key.Valid() && ValidRounds(key.rounds)
    ensures Words(s0, s1, s2, s3) == EqInvCipher(StateOf(input[p..p + 16]), key.rdKey[..4 * key.rounds + 4], key.rounds)
  {
    hide Word, DecWord, DecLastWord, Xor, Words, EqInvRounds, EqInvCipher, AddRoundKey, RoundKey, StateOf;
    var rk := key.rdKey;
    ghost var ks := rk[..4 * key.rounds + 4];
    ghost var b := StateOf(input[p..p + 16]);
    ghost var n := 0;
    DecFirstStep(input[..], p, ks);
    assert input[..][p..p + 16] == input[p..p + 16];
    s0 := Xor(GetU32(input, p), rk[0]);
    s1 := Xor(GetU32(input, p + 4), rk[1]);
    s2 := Xor(GetU32(input, p + 8), rk[2]);
    s3 := Xor(GetU32(input, p + 12), rk[3]);
    var t0, t1, t2, t3 := 0, 0, 0, 0;
    var r := key.rounds / 2;
    var off := 0;
    while true
      invariant 0 < r && n + 2 * r == key.rounds && off == 4 * n
      invariant Words(s0, s1, s2, s3) == EqInvRounds(b, ks, n)
      decreases r
    {
      t0, t1, t2, t3 := DecRound(s0, s1, s2, s3, rk, off + 4, b, ks);
      off := off + 8;
      r := r - 1;
      if r == 0 {
        n := n + 1;
        break;
      }
      s0, s1, s2, s3 := DecRound(t0, t1, t2, t3, rk, off, b, ks);
      n := n + 2;
    }
    DecLastStep(t0, t1, t2, t3, b, ks, key.rounds);
    s0 := DecLastWord(t0, t3, t2, t1, rk[off]);
    s1 := DecLastWord(t1, t0, t3, t2, rk[off + 1]);
    s2 := DecLastWord(t2, t1, t0, t3, rk[off + 2]);
    s3 := DecLastWord(t3, t2, t1, t0, rk[off + 3]);
  }

  // Rounds 10 to 13 written out, as far as the key asks for them.
  method DecLateRounds(
    r0: bv32, r1: bv32, r2: bv32, r3: bv32, rk: array<bv32>, rounds: int, ghost b: State, ghost ks: seq<bv32>)
    returns (t0: bv32, t1: bv32, t2: bv32, t3: bv32)
    requires ValidRounds(rounds) && |ks| == 4 * rounds + 4 <= rk.Length && ks == rk[..|ks|]
    requires Words(r0, r1, r2, r3) == EqInvRounds(b, ks, 9)
    ensures Words(t0, t1, t2, t3) == EqInvRounds(b, ks, rounds - 1)
  {
    hide Words, EqInvRounds;
    t0, t1, t2, t3 := r0, r1, r2, r3;
    if rounds > 10 {
      var s0, s1, s2, s3 := DecRound(t0, t1, t2, t3, rk, 40, b, ks);
      t0, t1, t2, t3 := DecRound(s0, s1, s2, s3, rk, 44, b, ks);
      if rounds > 12 {
        s0, s1, s2, s3 := DecRound(t0, t1, t2, t3, rk, 48, b, ks);
        t0, t1, t2, t3 := DecRound(s0, s1, s2, s3, rk, 52, b, ks);
      }
    }
  }

  /** The rounds of AES_decrypt written out, as FULL_UNROLL has them: the same words as the loop. */
  method DecryptUnrolled(input: array<bv8>, p: nat, key: AesKey) returns (s0: bv32, s1: bv32, s2: bv32, s3: bv32)
    requires p + 16 <= input.Length && key.Valid() && ValidRounds(key.rounds)
    ensures Words(s0, s1, s2, s3) == EqInvCipher(StateOf(input[p..p + 16]), key.rdKey[..4 * key.rounds + 4], key.rounds)
  {
    hide Word, DecWord, DecLastWord, Xor, Words, EqInvRounds, EqInvCipher, AddRoundKey, RoundKey, StateOf;
    var rk := key.rdKey;
    ghost var ks := rk[..4 * key.rounds + 4];
    ghost var b := StateOf(input[p..p + 16]);
    DecFirstStep(input[..], p, ks);
    assert input[..][p..p + 16] == input[p..p + 16];
    s0 := Xor(GetU32(input, p), rk[0]);
    s1 := Xor(GetU32(input, p + 4), rk[1]);
    s2 := Xor(GetU32(input, p + 8), rk[2]);
    s3 := Xor(GetU32(input, p + 12), rk[3]);
    var t0, t1, t2, t3 := DecRound(s0, s1, s2, s3, rk, 4, b, ks);
    s0, s1, s2, s3 := DecRound(t0, t1, t2, t3, rk, 8, b, ks);
    t0, t1, t2, t3 := DecRound(s0, s1, s2, s3, rk, 12, b, ks);
    s0, s1, s2, s3 := DecRound(t0, t1, t2, t3, rk, 16, b, ks);
    t0, t1, t2, t3 := DecRound(s0, s1, s2, s3, rk, 20, b, ks);
    s0, s1, s2, s3 := DecRound(t0, t1, t2, t3, rk, 24, b, ks);
    t0, t1, t2, t3 := DecRound(s0, s1, s2, s3, rk, 28, b, ks);
    s0, s1, s2, s3 := DecRound(t0, t1, t2, t3, rk, 32, b, ks);
    t0, t1, t2, t3 := DecRound(s0, s1, s2, s3, rk, 36, b, ks);
    t0, t1, t2, t3 := DecLateRounds(t0, t1, t2, t3, rk, key.rounds, b, ks);
    var off := key.rounds * 4;
    DecLastStep(t0, t1, t2, t3, b, ks, key.rounds);
    s0 := DecLastWord(t0, t3, t2, t1, rk[off]);
    s1 := DecLastWord(t1, t0, t3, t2, rk[off + 1]);
    s2 := DecLastWord(t2, t1, t0, t3, rk[off + 2]);
    s3 := DecLastWord(t3, t2, t1, t0, rk[off + 3]);
  }

  /** AES_decrypt on the 16 bytes at input[p..]; the two buffers may be the same and may overlap. */
  method Decrypt(input: array<bv8>, p: nat, out: array<bv8>, q: nat, key: AesKey)
    requires p + 16 <= input.Length && q + 16 <= out.Length
    requires key.Valid() && ValidRounds(key.rounds)
    modifies out
    ensures out[q..q + 16] == DecryptedBlock(old(input[p..p + 16]), key.rdKey[..4 * key.rounds + 4], key.rounds)
    ensures out[..q] == old(out[..q]) && out[q + 16..] == old(out[q + 16..])
  {
    hide Words, Cipher, EqInvCipher, StateOf, BytesOf;
    var s0, s1, s2, s3 := DecryptWords(input, p, key);
    PutState(out, q, s0, s1, s2, s3);
  }
}
