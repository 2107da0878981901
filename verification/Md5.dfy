/** Incremental MD5: however a message is fed in, the digest is that of the padded message (RFC 1321). */
module Md5 {
  import opened Md5Transform

  type bytes = seq<byte>

  const U64: nat := 0x1_0000_0000_0000_0000

  const INIT := Quad(0x67452301, 0xefcdab89, 0x98badcfe, 0x10325476)

  // ---- The one-shot definition ----

  function Fold(data: bytes): (q: Quad)
    requires |data| % 64 == 0
  {
    if data == [] then INIT
    else
      var n := |data| - 64;
      Compress(Fold(data[..n]), data[n..])
  }

  // The zero bytes of section 3.1, the fewest that leave the length 56 modulo 64.
  function ZeroCount(n: nat): (k: nat)
    ensures k < 64 && (n + 1 + k) % 64 == 56 && (n + 9 + k) % 64 == 0
  {
    (119 - n % 64) % 64
  }

  function Zeros(k: nat): (z: bytes)
    ensures |z| == k
  {
    seq(k, _ => 0)
  }

  // The 64-bit length of section 3.2, low word first.
  function LengthBytes(n: nat): (b: bytes)
    ensures |b| == 8
  {
    var bits := 8 * n % U64;
    Encoded([bits % U32, bits / U32])
  }

  function Padded(m: bytes): (r: bytes)
    ensures |r| % 64 == 0
  {
    var k := ZeroCount(|m|);
    var r := m + [0x80] + Zeros(k) + LengthBytes(|m|);
    assert |r| == |m| + 9 + k;
    r
  }

  function Digest(m: bytes): (d: bytes)
    ensures |d| == 16
  {
    var q := Fold(Padded(m));
    Encoded([q.a, q.b, q.c, q.d])
  }

  lemma FoldBlock(data: bytes, block: bytes)
    requires |data| % 64 == 0 && |block| == 64
    ensures Fold(data + block) == Compress(Fold(data), block)
  {
    hide Compress;
    assert (data + block)[..|data|] == data && (data + block)[|data|..] == block;
  }

  // ---- The bit count in two words ----

  // count[0] += len << 3, with a carry into count[1] when it wraps, and then count[1] += len >> 29.
  function AddCount(c0: word, c1: word, len: word): (word, word) {
    var low := len * 8 % U32;
    var c0' := (c0 + low) % U32;
    var c1' := if c0' < low then (c1 + 1) % U32 else c1;
    (c0', (c1' + len / 0x2000_0000) % U32)
  }

  // The two words hold the 64-bit number of bits in n bytes.
  predicate CountIs(c0: word, c1: word, n: nat) { c1 * U32 + c0 == 8 * n % U64 }

  /** The manual carry adds the bits of len bytes modulo 2^64. */
  lemma AddCountIsExact(c0: word, c1: word, len: word, n: nat)
    requires CountIs(c0, c1, n)
    ensures CountIs(AddCount(c0, c1, len).0, AddCount(c0, c1, len).1, n + len)
  {
    AddCountValue(c0, c1, len);
    ModTwice(8 * n, 8 * len, U64);
    assert 8 * n + 8 * len == 8 * (n + len);
    hide AddCount;
  }

  lemma AddCountValue(c0: word, c1: word, len: word)
    ensures var (d0, d1) := AddCount(c0, c1, len);
            d1 * U32 + d0 == (c1 * U32 + c0 + 8 * len) % U64
  {
    var low, high := len * 8 % U32, len / 0x2000_0000;
    SplitBits(len);
    var (d0, d1) := AddCount(c0, c1, len);
    var carry := if c0 + low >= U32 then 1 else 0;
    CarryOf(c0, low);
    var total := c1 + carry + high;
    ModTwice(c1 + carry, high, U32);
    ScaledMod(total, d0);
    assert total * U32 + d0 == c1 * U32 + c0 + 8 * len;
  }

  lemma SplitBits(len: word)
    ensures 8 * len == len / 0x2000_0000 * U32 + len * 8 % U32
  {
  }

  lemma CarryOf(c: word, low: word)
    ensures (c + low) % U32 == if c + low >= U32 then c + low - U32 else c + low
    ensures (c + low) % U32 < low <==> c + low >= U32
  {
  }

  lemma ModTwice(x: nat, y: nat, m: nat)
    requires m == U32 || m == U64
    ensures (x % m + y) % m == (x + y) % m
  {
  }

  lemma ScaledMod(t: nat, r: nat)
    requires r < U32
    ensures t % U32 * U32 + r == (t * U32 + r) % U64
  {
    var q := t / U32;
    assert t == q * U32 + t % U32;
    assert t * U32 + r == q * U64 + (t % U32 * U32 + r);
  }

  // index: the bytes waiting in the buffer.
  function IndexOf(c0: word): nat { c0 / 8 % 64 }

  lemma IndexIsRemainder(c0: word, c1: word, n: nat)
    requires CountIs(c0, c1, n)
    ensures IndexOf(c0) == n % 64
  {
    var q := 8 * n / U64;
    assert 8 * n == q * U64 + c1 * U32 + c0;
    assert n == q * 0x2000_0000_0000_0000 + c1 * 0x2000_0000 + c0 / 8;
  }

  // ---- The loop guard of MD5_Update in 32-bit arithmetic ----

  /** At every i the loop can reach, its guard is decided as in exact arithmetic, just when index + len fits in 32
      bits. */
  lemma GuardIsExact(index: nat, len: word)
    requires index < 64 && len >= 64 - index
    ensures (forall k: nat :: 64 - index + 64 * k <= len ==>
               ((64 - index + 64 * k + 63) % U32 < len <==> 64 - index + 64 * k + 63 < len))
        <==> index + len < U32
  {
    if index + len >= U32 {
      var k := (index + len) / 64 - 1;
      assert 64 - index + 64 * k <= len;
      assert (64 - index + 64 * k + 63) % U32 < len;
      assert !(64 - index + 64 * k + 63 < len);
    }
  }

  // ---- The context ----

  class Context {
    const state: array<word>
    var count0: word
    var count1: word
    const buffer: array<byte>
    ghost var fed: bytes  // everything passed to Update so far

    // All whole blocks fed are in the state, the rest in the front of the buffer, and the count is right.
    ghost predicate Valid()
      reads this, state, buffer
    {
      && state as object != buffer as object
      && CountIs(count0, count1, |fed|)
      && Holds(fed)
    }

    /** MD5_Init. */
    constructor ()
      ensures Valid() && fresh(state) && fresh(buffer) && fed == []
    {
      state := new word[4](i => if i == 0 then 0x67452301 else if i == 1 then 0xefcdab89
                                else if i == 2 then 0x98badcfe else 0x10325476);
      buffer := new byte[64];
      count0, count1 := 0, 0;
      fed := [];
    }
  
    // The chaining words are those of the blocks of data.
    ghost predicate StateIs(data: bytes)
      reads state
    {
      state.Length == 4 && |data| % 64 == 0 && Quad(state[0], state[1], state[2], state[3]) == Fold(data)
    }

    // MD5_Transform on the context's buffer, or on 64 bytes of the input.
    method Absorb(block: bytes, ghost data: bytes)
      requires StateIs(data) && |block| == 64
      modifies state
      ensures StateIs(data + block)
    {
      hide Compress, Fold;
      FoldBlock(data, block);
      Transform(state, block);
    }

    // The middle of MD5_Update, from a full buffer on: whole blocks go through the state.
    method AbsorbBlocks(buf: bytes, len: word, partLen: word, ghost before: bytes) returns (i: nat)
      requires len <= |buf| && 0 < partLen <= len && partLen <= 64 && 64 - partLen + len < U32
      requires StateIs(before + buf[..partLen])
      modifies state
      ensures partLen <= i <= len < i + 64 && StateIs(before + buf[..i])
    {
      hide Fold, StateIs;
      i := partLen;
      while (i + 63) % U32 < len
        invariant partLen <= i <= len && (i - partLen) % 64 == 0
        invariant StateIs(before + buf[..i])
        decreases len - i
      {
        GuardAt(64 - partLen, len, i);
        Absorb(buf[i..i + 64], before + buf[..i]);
        assert before + buf[..i] + buf[i..i + 64] == before + buf[..i + 64];
        i := i + 64;
      }
      GuardAt(64 - partLen, len, i);
    }

    // The blocks of data are in the state, and what is left of it in the buffer.
    ghost predicate Holds(data: bytes)
      reads state, buffer
    {
      var n := |data|;
      buffer.Length == 64 && StateIs(data[..n - n % 64]) && buffer[..n % 64] == data[n - n % 64..]
    }

    // The branch of MD5_Update that fills the buffer.
    method UpdateFull(buf: bytes, len: word, index: nat, ghost before: bytes)
      requires state as object != buffer as object
      requires Holds(before) && index == |before| % 64 && len <= |buf| && 64 - index <= len && index + len < U32
      modifies state, buffer
      ensures Holds(before + buf[..len])
    {
      hide Fold, StateIs;
      ghost var n := |before|;
      var partLen := 64 - index;
      CopyIn(index, buf[..partLen]);
      assert buffer[..] == before[n - index..] + buf[..partLen];
      Absorb(buffer[..], before[..n - index]);
      assert before[..n - index] + (before[n - index..] + buf[..partLen]) == before + buf[..partLen];
      var i := AbsorbBlocks(buf, len, partLen, before);
      CopyIn(0, buf[i..len]);
      assert buf[..len][..i] == buf[..i] && buf[..len][i..] == buf[i..len];
      StateRemainder(before, buf[..len], i);
    }

    // The branch that only adds to the buffer.
    method UpdateShort(buf: bytes, len: word, index: nat, ghost before: bytes)
      requires state as object != buffer as object
      requires Holds(before) && index == |before| % 64 && len <= |buf| && index + len < 64
      modifies buffer
      ensures Holds(before + buf[..len])
    {
      hide Fold, StateIs;
      ghost var n := |before|;
      ghost var head, tail := before[..n - index], before[n - index..] + buf[..len];
      CopyIn(index, buf[..len]);
      assert head + tail == before + buf[..len] && head + tail[..0] == head && tail[0..] == tail;
      assert buffer[..index + len] == tail;
      StateRemainder(head, tail, 0);
    }

    /** MD5_Update: len more bytes are fed. The guard of its loop asks that index + len fit in 32 bits. */
    method Update(buf: bytes, len: word)
      requires Valid() && len <= |buf| && |fed| % 64 + len < U32
      modifies this, state, buffer
      ensures Valid() && fed == old(fed) + buf[..len]
    {
      hide CountIs, AddCount, IndexOf, Holds;
      IndexIsRemainder(count0, count1, |fed|);
      AddCountIsExact(count0, count1, len, |fed|);
      var index := IndexOf(count0);
      var (c0, c1) := AddCount(count0, count1, len);
      count0, count1 := c0, c1;
      var partLen := 64 - index;
      if len >= partLen {
        UpdateFull(buf, len, index, fed);
      } else {
        UpdateShort(buf, len, index, fed);
      }
      fed := fed + buf[..len];
    }

    /** MD5_Final: the digest of everything fed, after which the context is wiped. */
    method Final() returns (digest: bytes)
      requires Valid()
      modifies this, state, buffer
      ensures digest == Digest(old(fed))
      ensures count0 == 0 && count1 == 0
      ensures forall k :: 0 <= k < state.Length ==> state[k] == 0
      ensures forall k :: 0 <= k < buffer.Length ==> buffer[k] == 0
    {
      hide Fold, CountIs, IndexOf, Encoded, Padded, Holds, StateIs;
      ghost var m := fed;
      LengthOfCount(count0, count1, |m|);
      IndexIsRemainder(count0, count1, |m|);
      var encoded := Encode([count0, count1], 8);
      var bits := encoded[..];
      var index := IndexOf(count0);
      var padLen := if index < 56 then 56 - index else 120 - index;
      Update(PADDING, padLen);
      Update(bits, 8);
      PaddedInTwo(m, index, padLen, bits);
      var words := DigestWords();
      encoded := Encode(words, 16);
      digest := encoded[..];
      count0, count1 := 0, 0;
      forall k | 0 <= k < state.Length {
        state[k] := 0;
      }
      forall k | 0 <= k < buffer.Length {
        buffer[k] := 0;
      }
    }

    // The four words of the state, once whole blocks have been fed.
    method DigestWords() returns (words: seq<word>)
      requires Valid() && |fed| % 64 == 0
      ensures words == [Fold(fed).a, Fold(fed).b, Fold(fed).c, Fold(fed).d]
    {
      hide Fold;
      assert fed[..|fed| - |fed| % 64] == fed;
      words := state[..];
    }

    // memcpy into the buffer.
    method CopyIn(at: nat, src: bytes)
      requires at + |src| <= buffer.Length
      modifies buffer
      ensures |buffer[..]| == buffer.Length
      ensures buffer[..] == old(buffer[..at]) + src + old(buffer[at + |src|..])
    {
      forall k | 0 <= k < |src| {
        buffer[at + k] := src[k];
      }
    }

    lemma StateRemainder(a: bytes, b: bytes, i: nat)
      requires i <= |b| < i + 64 && StateIs(a + b[..i])
      ensures var t := a + b; var r := |t| % 64;
              r == |b| - i && StateIs(t[..|t| - r]) && t[|t| - r..] == b[i..]
    {
      hide Fold;
      Remainder(a, b, i);
    }
  }

  const PADDING: bytes := [0x80] + Zeros(63)

  lemma LengthOfCount(c0: word, c1: word, n: nat)
    requires CountIs(c0, c1, n)
    ensures LengthBytes(n) == Encoded([c0, c1])
  {
    var bits := 8 * n % U64;
    assert bits % U32 == c0 && bits / U32 == c1;
  }

  // What MD5_Final feeds is the padding of sections 3.1 and 3.2.
  lemma PaddedInTwo(m: bytes, index: nat, padLen: nat, bits: bytes)
    requires index == |m| % 64 && padLen == (if index < 56 then 56 - index else 120 - index)
    requires bits == LengthBytes(|m|)
    ensures padLen <= |PADDING| && m + PADDING[..padLen] + bits[..8] == Padded(m)
  {
    assert ZeroCount(|m|) == padLen - 1;
    assert PADDING[..padLen] == [0x80] + Zeros(padLen - 1);
  }

  /** The context depends only on what was fed, not on how it was split into calls of Update. */
  lemma SplitInvariant(x: Context, y: Context)
    requires x.Valid() && y.Valid() && x.fed == y.fed
    ensures x.state[..] == y.state[..] && x.count0 == y.count0 && x.count1 == y.count1
    ensures var r := |x.fed| % 64; x.buffer[..r] == y.buffer[..r]
  {
    hide Fold;
    var v := 8 * |x.fed| % U64;
    assert x.count0 == v % U32 == y.count0;
    assert x.count1 == v / U32 == y.count1;
  }

  // ---- MD5_Calculate ----

  // sprintf("%x") of a value below 16.
  function HexDigit(n: nat): char
    requires n < 16
  {
    "0123456789abcdef"[n]
  }

  function Hex(d: bytes): (s: string)
    ensures |s| == 2 * |d|
  {
    if d == [] then "" else Hex(d[..|d| - 1]) + [HexDigit(d[|d| - 1] / 16), HexDigit(d[|d| - 1] % 16)]
  }

  function Unhex(c: char): nat {
    if '0' <= c <= '9' then c as nat - '0' as nat else if 'a' <= c <= 'f' then c as nat - 'a' as nat + 10 else 0
  }

  lemma DigitReadsBack(n: nat)
    requires n < 16
    ensures Unhex(HexDigit(n)) == n
  {
  }

  /** The digits are the sixteen of hexadecimal, in lower case. */
  lemma HexDigitIs(n: nat)
    requires n < 16
    ensures HexDigit(n) == "0123456789abcdef"[n]
  {
  }

  /** Every byte can be read back from its two digits. */
  lemma {:induction false} HexReadsBack(d: bytes, i: nat)
    requires i < |d|
    ensures Unhex(Hex(d)[2 * i]) * 16 + Unhex(Hex(d)[2 * i + 1]) == d[i]
  {
    hide HexDigit, Unhex;
    var last := d[|d| - 1];
    if i < |d| - 1 {
      HexReadsBack(d[..|d| - 1], i);
    } else {
      DigitReadsBack(last / 16);
      DigitReadsBack(last % 16);
    }
  }

  /** MD5_Calculate, which is right for every length: nothing waits in the buffer when its one Update is called. */
  method Calculate(content: bytes, len: word) returns (md5: string)
    requires len <= |content|
    ensures md5 == Hex(Digest(content[..len]))
  {
    hide Digest, HexDigit, Fold;
    var context := new Context();
    context.Update(content, len);
    assert [] + content[..len] == content[..len];
    var buff := context.Final();
    md5 := "";
    for i := 0 to 16
      invariant md5 == Hex(buff[..i])
    {
      assert buff[..i + 1][..i] == buff[..i];
      ghost var before := md5;
      md5 := md5 + [HexDigit(buff[i] / 16)];
      md5 := md5 + [HexDigit(buff[i] % 16)];
      assert md5 == before + [HexDigit(buff[i] / 16), HexDigit(buff[i] % 16)];
    }
    assert buff[..16] == buff;
  }

  // The guard at a place the loop does reach.
  lemma GuardAt(index: nat, len: word, i: nat)
    requires index < 64 && index + len < U32 && 64 - index <= i <= len && (i - (64 - index)) % 64 == 0
    ensures (i + 63) % U32 < len <==> i + 63 < len
  {
    var k := (i - (64 - index)) / 64;
    assert i == 64 - index + 64 * k;
    GuardIsExact(index, len);
  }

  // Where the last whole block of a ++ b ends.
  lemma Remainder(a: bytes, b: bytes, i: nat)
    requires i <= |b| < i + 64 && (|a| + i) % 64 == 0
    ensures var t := a + b; var r := |t| % 64;
            r == |b| - i && t[..|t| - r] == a + b[..i] && t[|t| - r..] == b[i..]
  {
  }
}
