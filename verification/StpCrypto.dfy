/** EncryptPlain and DecryptCipher: padding to blocks with a length trailer, AES-256 on each block, base64. */
module StpCrypto {
  import opened Wrappers
  import opened ByteOrder
  import opened AesKeySchedule
  import opened AesCore
  import Base64

  const KEY_BITS: int := 256

  // ---- The padded length, in 32-bit arithmetic ----

  function BlocksFor(plainLen: nat): nat {
    var remain := plainLen % 16;
    var blocks := (plainLen + 15) % U32 / 16;
    if remain > 12 || remain == 0 then (blocks + 1) % U32 else blocks
  }

  function EncryptLen(plainLen: nat): nat { BlocksFor(plainLen) * 16 % U32 }

  // The longest text whose padded length still fits in 32 bits.
  const MAX_PLAIN: nat := U32 - 20

  /** encrypt_len is the least multiple of 16 with room for the trailer, exactly while nothing wraps. */
  lemma EncryptLenIsLeast(n: nat)
    requires 0 < n < U32
    ensures n <= MAX_PLAIN ==>
              && EncryptLen(n) % 16 == 0 && EncryptLen(n) == 16 * BlocksFor(n) && n + 4 <= EncryptLen(n) < U32
              && forall m: nat | m % 16 == 0 && n + 4 <= m :: EncryptLen(n) <= m
    ensures n + 4 <= EncryptLen(n) <==> n <= MAX_PLAIN
  {
    if n <= MAX_PLAIN {
      var q, r := n / 16, n % 16;
      assert n == 16 * q + r;
      if r == 0 {
        assert (n + 15) / 16 == q;
      } else {
        assert (n + 15) / 16 == q + 1;
      }
    } else if n > U32 - 16 {
      assert (n + 15) % U32 == n + 15 - U32 < 16;
    }
  }

  // ---- The sealed message ----

  predicate Whole(data: bytes) { |data| % 16 == 0 }

  function Padded(plain: bytes): (r: bytes)
    requires 0 < |plain| <= MAX_PLAIN
    ensures |r| == EncryptLen(|plain|) && Whole(r) && |plain| + 4 <= |r|
  {
    EncryptLenIsLeast(|plain|);
    var n := EncryptLen(|plain|);
    plain + seq(n - 4 - |plain|, _ => 0) + U32Bytes(|plain|)
  }

  function EncryptBlocks(data: bytes, key: bytes): (r: bytes)
    requires Whole(data) && IsKey(key)
    ensures |r| == |data|
  {
    if data == [] then []
    else
      var n := |data| - 16;
      EncryptBlocks(data[..n], key) + EncryptBlock(data[n..], key)
  }

  function DecryptBlocks(data: bytes, key: bytes): (r: bytes)
    requires Whole(data) && IsKey(key)
    ensures |r| == |data|
  {
    if data == [] then []
    else
      var n := |data| - 16;
      DecryptBlocks(data[..n], key) + DecryptBlock(data[n..], key)
  }

  lemma {:induction false} BlocksRoundTrip(data: bytes, key: bytes)
    requires Whole(data) && IsKey(key)
    ensures DecryptBlocks(EncryptBlocks(data, key), key) == data
  {
    hide EncryptBlock, DecryptBlock;
    if data != [] {
      var n := |data| - 16;
      BlocksRoundTrip(data[..n], key);
      DecryptUndoesEncrypt(data[n..], key);
      var e := EncryptBlocks(data, key);
      assert e[..n] == EncryptBlocks(data[..n], key);
      assert e[n..] == EncryptBlock(data[n..], key);
    }
  }

  /** Every block is enciphered by itself, and stays in its place. */
  lemma {:induction false} EncryptedAt(data: bytes, key: bytes, k: nat)
    requires Whole(data) && IsKey(key) && 16 * k + 16 <= |data|
    ensures EncryptBlocks(data, key)[16 * k..16 * k + 16] == EncryptBlock(data[16 * k..16 * k + 16], key)
  {
    hide EncryptBlock;
    var n := |data| - 16;
    var before, last := EncryptBlocks(data[..n], key), EncryptBlock(data[n..], key);
    assert EncryptBlocks(data, key) == before + last;
    if 16 * k < n {
      EncryptedAt(data[..n], key, k);
      assert data[..n][16 * k..16 * k + 16] == data[16 * k..16 * k + 16];
      assert (before + last)[16 * k..16 * k + 16] == before[16 * k..16 * k + 16];
    } else {
      assert (before + last)[n..n + 16] == last && data[n..] == data[n..n + 16];
    }
  }

  /** And so is it deciphered. */
  lemma {:induction false} DecryptedAt(data: bytes, key: bytes, k: nat)
    requires Whole(data) && IsKey(key) && 16 * k + 16 <= |data|
    ensures DecryptBlocks(data, key)[16 * k..16 * k + 16] == DecryptBlock(data[16 * k..16 * k + 16], key)
  {
    hide DecryptBlock;
    var n := |data| - 16;
    var before, last := DecryptBlocks(data[..n], key), DecryptBlock(data[n..], key);
    assert DecryptBlocks(data, key) == before + last;
    if 16 * k < n {
      DecryptedAt(data[..n], key, k);
      assert data[..n][16 * k..16 * k + 16] == data[16 * k..16 * k + 16];
      assert (before + last)[16 * k..16 * k + 16] == before[16 * k..16 * k + 16];
    } else {
      assert (before + last)[n..n + 16] == last && data[n..] == data[n..n + 16];
    }
  }

  function Seal(plain: bytes, key: bytes): (r: bytes)
    requires 0 < |plain| <= MAX_PLAIN && IsKey(key)
    ensures |r| == Base64.EncodedLength(EncryptLen(|plain|))
  {
    Base64.Encode(EncryptBlocks(Padded(plain), key))
  }

  // The return codes -1 to -4, or the text.
  datatype Opened = Failed(code: int) | Text(plain: bytes)

  function Open(cipher: bytes, key: bytes): Opened
    requires IsKey(key)
  {
    if cipher == [] then Failed(-1)
    else
      var data := Base64.Decode(cipher);
      if data == [] then Failed(-2)
      else if !Whole(data) then Failed(-3)
      else
        var text := DecryptBlocks(data, key);
        var plainLen := U32Of(text[|text| - 4..]);
        if plainLen > |text| then Failed(-4) else Text(text[..plainLen])
  }

  /** Opening a sealed message gives the text back, for every text and key. */
  lemma OpenSeal(plain: bytes, key: bytes)
    requires 0 < |plain| <= MAX_PLAIN && IsKey(key)
    ensures Open(Seal(plain, key), key) == Text(plain)
  {
    hide EncryptBlocks, DecryptBlocks, Base64.Decode, Base64.Encode, U32Bytes, U32Of, EncryptLen;
    var data := Padded(plain);
    var n := |data|;
    EncryptLenIsLeast(|plain|);
    BlocksRoundTrip(data, key);
    Base64.DecodeEncode(EncryptBlocks(data, key));
    U32RoundTrip(|plain|);
    assert data[n - 4..] == U32Bytes(|plain|);
    assert data[..|plain|] == plain;
  }

  /** Which failure a text meets: -1 when it is empty, -2 when it has a foreign character or fewer than two letters,
      -3 when its letters do not make whole blocks, and -4 when the trailer says more than there is. */
  lemma FailsExactly(cipher: bytes, key: bytes)
    requires IsKey(key)
    ensures var n := if Base64.HasForeign(cipher) then 0 else 3 * Base64.LetterCount(cipher) / 4;
            var o := Open(cipher, key);
            && n == |Base64.Decode(cipher)|
            && (o == Failed(-1) <==> cipher == [])
            && (o == Failed(-2) <==> cipher != [] && n == 0)
            && (o == Failed(-3) <==> n % 16 != 0)
            && (o == Failed(-4) <==> n > 0 && n % 16 == 0 && Trailer(cipher, key) > n)
            && (o.Text? <==> n > 0 && n % 16 == 0 && Trailer(cipher, key) <= n)
  {
    hide Base64.Decode, DecryptBlocks, U32Of, Base64.HasForeign, Base64.LetterCount;
    Base64.DecodedSize(cipher);
    if cipher == [] {
      NothingDecoded();
    }
  }

  // The number in the last four bytes of the decrypted blocks.
  function Trailer(cipher: bytes, key: bytes): nat
    requires IsKey(key)
  {
    var data := Base64.Decode(cipher);
    if data == [] || !Whole(data) then 0
    else
      var text := DecryptBlocks(data, key);
      U32Of(text[|text| - 4..])
  }

  lemma NothingDecoded()
    ensures Base64.Decode([]) == []
  {
  }

  /** The padded text is the text, zeros, and the length in the last four bytes. */
  lemma PaddedAt(plain: bytes, i: nat)
    requires 0 < |plain| <= MAX_PLAIN && i < |Padded(plain)|
    ensures var n := |Padded(plain)|;
            Padded(plain)[i]
            == if i < |plain| then plain[i] else if i < n - 4 then 0 else U32Bytes(|plain|)[i - (n - 4)]
  {
    hide U32Bytes;
  }

  // ---- What the 32-bit length of the cipher text costs ----

  // The first bytes, as many as the length taken modulo 2^32.
  function Cut(s: bytes): bytes { s[..|s| % U32] }

  // What EncryptPlain hands out: the length is cut to 32 bits, and the text with it.
  function Delivered(plain: bytes, key: bytes): (r: bytes)
    requires 0 < |plain| <= MAX_PLAIN && IsKey(key)
  {
    Cut(Seal(plain, key))
  }

  // The longest text whose base64 length fits in 32 bits.
  const MAX_SEALABLE: nat := 3221225452

  lemma SealedLength(n: nat)
    requires 0 < n <= MAX_PLAIN
    ensures var len := Base64.EncodedLength(EncryptLen(n));
            && len % 4 == 0 && len < 2 * U32 && 0 < len
            && (len < U32 <==> n <= MAX_SEALABLE)
            && (len >= U32 ==> 3 * (len - U32) / 4 < n)
  {
    hide EncryptLen, Base64.EncodedLength;
    EncryptLenIsLeast(n);
    var p := EncryptLen(n);
    var least := LeastBlocks(n);
    BlockLimit(n, p);
    ThirdsOf(p);
  }

  lemma LeastBlocks(n: nat) returns (m: nat)
    ensures m % 16 == 0 && n + 4 <= m <= n + 19
  {
    m := (n + 19) / 16 * 16;
  }

  lemma BlockLimit(n: nat, p: nat)
    requires p % 16 == 0 && n + 4 <= p <= n + 19
    ensures p <= 3221225456 <==> n <= MAX_SEALABLE
  {
    if n <= MAX_SEALABLE {
      assert p / 16 <= 3221225471 / 16;
    }
  }

  lemma ThirdsOf(p: nat)
    requires 0 < p < U32
    ensures var len := Base64.EncodedLength(p);
            && len % 4 == 0 && len < 2 * U32 && 0 < len
            && (len < U32 <==> p <= 3221225469)
            && (len >= U32 ==> 3 * (len - U32) / 4 + 19 < p)
  {
  }

  lemma {:induction false} DecodedLength(asc: bytes)
    ensures |Base64.Decode(asc)| <= 3 * |asc| / 4
  {
    SextetsLength(asc);
  }

  lemma {:induction false} SextetsLength(asc: bytes)
    ensures Base64.Sextets(asc).Some? ==> |Base64.Sextets(asc).value| <= |asc|
  {
    if asc != [] {
      SextetsLength(asc[..|asc| - 1]);
    }
  }

  lemma OpenedLength(cipher: bytes, key: bytes)
    requires IsKey(key)
    ensures Open(cipher, key).Text? ==> |Open(cipher, key).plain| <= 3 * |cipher| / 4
  {
    hide DecryptBlocks, Base64.Decode, U32Of;
    DecodedLength(cipher);
  }

  /** What EncryptPlain hands out opens to the original exactly when the text is at most 3221225452 bytes. */
  lemma RoundTripExactly(plain: bytes, key: bytes)
    requires 0 < |plain| <= MAX_PLAIN && IsKey(key)
    ensures Open(Delivered(plain, key), key) == Text(plain) <==> |plain| <= 3221225452
  {
    hide Open, Seal, EncryptLen;
    SealedLength(|plain|);
    var sealed := Seal(plain, key);
    if |plain| <= MAX_SEALABLE {
      assert sealed[..|sealed|] == sealed;
      OpenSeal(plain, key);
    } else {
      OpenedLength(Delivered(plain, key), key);
    }
  }

  // ---- The two entry points ----

  // g_clnt_or_svr and the functions that look at it; the key of GetStpCryptKey is a parameter.
  class Session {
    var mode: int

    constructor ()
      ensures mode == -1
    {
      mode := -1;
    }

    /** InitStpCrypto checks its argument and, whatever it is, leaves the mode as it was. */
    method Init(clntOrSvr: int) returns (res: int)
      modifies this
      ensures res == if clntOrSvr == 0 || clntOrSvr == 1 then 0 else -1
      ensures mode == old(mode)
    {
      res := if clntOrSvr == 0 || clntOrSvr == 1 then 0 else -1;
    }

    /** EncryptPlain: it refuses a null or empty text, and every text while the mode is unset. */
    method EncryptPlain(plain: array?<bv8>, plainLen: nat, key: array<bv8>)
      returns (code: int, cipher: array?<bv8>, cipherLen: nat)
      requires plain != null ==> plainLen <= plain.Length
      requires plain != null && mode != -1 ==> plainLen <= MAX_PLAIN
      requires key.Length >= 32
      ensures code == if plain == null || plainLen == 0 || mode == -1 then -1 else 0
      ensures code == 0 ==>
                && cipher != null && cipherLen < U32 && cipher.Length == cipherLen + 1
                && cipher[..cipherLen] == Delivered(plain[..plainLen], key[..32])
                && cipher[cipherLen] == 0
    {
      hide Base64.Encode, EncryptBlocks, EncryptBlock, U32Bytes, EncryptLen, KeySchedule;
      cipher, cipherLen := null, 0;
      if plain == null || plainLen <= 0 {
        return -1, null, 0;
      }
      if mode == -1 {
        return -1, null, 0;
      }
      EncryptLenIsLeast(plainLen);
      var blocks := BlocksFor(plainLen);
      var encryptLen := EncryptLen(plainLen);
      ghost var text, k := plain[..plainLen], key[..32];
      var pData := PadPlain(plain, plainLen, encryptLen);
      var pEncData := EncryptAll(pData, blocks, key);
      var strDec := Base64.EncodeString(pEncData[..]);
      cipherLen := |strDec| % U32;
      var pTmp := new bv8[cipherLen + 1];
      forall i | 0 <= i < cipherLen {
        pTmp[i] := strDec[i];
      }
      pTmp[cipherLen] := 0;
      assert pTmp[..cipherLen] == strDec[..cipherLen];
      assert pEncData[..] == EncryptBlocks(Padded(text), k);
      assert strDec == Seal(text, k);
      assert Cut(strDec) == strDec[..cipherLen];
      assert pTmp[..cipherLen] == Delivered(text, k);
      assert text == plain[..plainLen] && k == key[..32];
      return 0, pTmp, cipherLen;
    }
  }

  method PadPlain(plain: array<bv8>, plainLen: nat, encryptLen: nat) returns (pData: array<bv8>)
    requires 0 < plainLen <= plain.Length && plainLen <= MAX_PLAIN && encryptLen == EncryptLen(plainLen)
    ensures fresh(pData) && pData[..] == Padded(plain[..plainLen])
  {
    EncryptLenIsLeast(plainLen);
    hide EncryptLen, U32Bytes;
    pData := new bv8[encryptLen](_ => 0);
    forall i | 0 <= i < plainLen {
      pData[i] := plain[i];
    }
    var trailer := U32Bytes(plainLen);
    forall i | 0 <= i < 4 {
      pData[encryptLen - 4 + i] := trailer[i];
    }
  }

  // The blocks of pData, one AES_encrypt after another.
  method EncryptAll(pData: array<bv8>, blocks: nat, key: array<bv8>) returns (pEncData: array<bv8>)
    requires pData.Length == 16 * blocks && key.Length >= 32
    ensures fresh(pEncData) && pEncData[..] == EncryptBlocks(pData[..], key[..32])
  {
    hide EncryptedBlock, KeySchedule, EncryptBlocks;
    ghost var k, data := key[..32], pData[..];
    pEncData := new bv8[16 * blocks];
    var aesKey := new AesKey();
    var status := SetEncryptKey(key, KEY_BITS, aesKey);
    EncryptBlocksStep(data, k, 0);
    for i := 0 to blocks
      invariant pEncData[..16 * i] == EncryptBlocks(data[..16 * i], k)
      invariant aesKey.rounds == 14 && aesKey.rdKey[..60] == KeySchedule(k)
      modifies pEncData
    {
      Encrypt(pData, i * 16, pEncData, i * 16, aesKey);
      EncryptBlocksStep(data, k, i);
      Joined(pEncData[..], 16 * i, 16 * i + 16);
      assert pEncData[..16 * i + 16] == pEncData[..16 * i] + pEncData[16 * i..16 * i + 16];
      assert data[16 * i..16 * i + 16] == pData[16 * i..16 * i + 16];
      assert pEncData[16 * i..16 * i + 16] == EncryptBlock(data[16 * i..16 * i + 16], k);
    }
    assert data[..16 * blocks] == data && pEncData[..16 * blocks] == pEncData[..];
  }

  lemma Joined(s: bytes, a: nat, b: nat)
    requires a <= b <= |s|
    ensures s[..b] == s[..a] + s[a..b]
  {
  }

  lemma EncryptBlocksStep(data: bytes, key: bytes, i: nat)
    requires IsKey(key) && Whole(data)
    ensures EncryptBlocks(data[..0], key) == []
    ensures 16 * i + 16 > |data| || EncryptBlocks(data[..16 * i + 16], key)
         == EncryptBlocks(data[..16 * i], key) + EncryptBlock(data[16 * i..16 * i + 16], key)
  {
    hide EncryptBlock;
    if 16 * i + 16 <= |data| {
      assert data[..16 * i + 16][..16 * i] == data[..16 * i];
      assert data[..16 * i + 16][16 * i..] == data[16 * i..16 * i + 16];
    }
  }

  // The blocks of data, one AES_decrypt after another, into the front of pTmp.
  method DecryptAll(data: array<bv8>, blocks: nat, pTmp: array<bv8>, key: array<bv8>)
    requires data.Length == 16 * blocks < pTmp.Length && data != pTmp && key != pTmp && key.Length >= 32
    modifies pTmp
    ensures pTmp[..16 * blocks] == DecryptBlocks(data[..], key[..32])
  {
    hide DecryptedBlock, KeySchedule, DecryptSchedule, DecryptBlocks;
    ghost var k, d := key[..32], data[..];
    var aesKey := new AesKey();
    var status := SetDecryptKey(key, KEY_BITS, aesKey);
    DecryptBlocksStep(d, k, 0);
    for i := 0 to blocks
      invariant pTmp[..16 * i] == DecryptBlocks(d[..16 * i], k)
      invariant aesKey.rounds == 14 && aesKey.rdKey[..60] == DecryptSchedule(KeySchedule(k), 14)
      modifies pTmp
    {
      Decrypt(data, i * 16, pTmp, i * 16, aesKey);
      DecryptBlocksStep(d, k, i);
      Joined(pTmp[..], 16 * i, 16 * i + 16);
      assert pTmp[..16 * i + 16] == pTmp[..16 * i] + pTmp[16 * i..16 * i + 16];
      assert d[16 * i..16 * i + 16] == data[16 * i..16 * i + 16];
      assert pTmp[16 * i..16 * i + 16] == DecryptBlock(d[16 * i..16 * i + 16], k);
    }
    assert d[..16 * blocks] == d;
  }

  lemma DecryptBlocksStep(data: bytes, key: bytes, i: nat)
    requires IsKey(key) && Whole(data)
    ensures DecryptBlocks(data[..0], key) == []
    ensures 16 * i + 16 > |data| || DecryptBlocks(data[..16 * i + 16], key)
         == DecryptBlocks(data[..16 * i], key) + DecryptBlock(data[16 * i..16 * i + 16], key)
  {
    hide DecryptBlock;
    if 16 * i + 16 <= |data| {
      assert data[..16 * i + 16][..16 * i] == data[..16 * i];
      assert data[..16 * i + 16][16 * i..] == data[16 * i..16 * i + 16];
    }
  }

  /** DecryptCipher: Open on any input, in a buffer one byte longer than the decoded text. */
  method DecryptCipher(cipher: array?<bv8>, cipherLen: nat, key: array<bv8>)
    returns (code: int, plain: array?<bv8>, plainLen: nat)
    requires cipher != null ==> cipherLen <= cipher.Length
    requires cipherLen < U32 && key.Length >= 32
    ensures cipher == null ==> code == -1
    ensures cipher != null ==>
              var result := Open(cipher[..cipherLen], key[..32]);
              && (result.Failed? ==> code == result.code < 0)
              && (result.Text? ==>
                    && code == 0 && plain != null && plainLen < U32
                    && plain.Length == |Base64.Decode(cipher[..cipherLen])| + 1
                    && plainLen < plain.Length
                    && plain[..plainLen] == result.plain && plain[plainLen] == 0)
  {
    hide Base64.Decode, DecryptBlocks, U32Of;
    if cipher == null || cipherLen <= 0 {
      return -1, null, 0;
    }
    ghost var text, k := cipher[..cipherLen], key[..32];
    var strResult := Base64.DecodeString(cipher[..cipherLen]);
    DecodedLength(text);
    var nLen := |strResult| % U32;
    if nLen == 0 {
      return -2, null, 0;
    }
    var pData := new bv8[nLen](i requires 0 <= i < nLen => strResult[i]);
    assert pData[..] == strResult;
    if nLen % 16 != 0 {
      return -3, null, 0;
    }
    var pTmp := new bv8[nLen + 1];
    var blocks := nLen / 16;
    DecryptAll(pData, blocks, pTmp, key);
    assert pTmp[nLen - 4..nLen] == DecryptBlocks(strResult, k)[nLen - 4..];
    plainLen := U32Of(pTmp[nLen - 4..nLen]);
    if plainLen > nLen {
      return -4, null, plainLen;
    }
    pTmp[plainLen] := 0;
    assert pTmp[..plainLen] == DecryptBlocks(strResult, k)[..plainLen];
    return 0, pTmp, plainLen;
  }
}
