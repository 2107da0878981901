/** base64_encode and base64_decode: an accumulator of bits, never masked, against section 4 of RFC 4648. */
module Base64 {
  import opened Wrappers
  import opened ByteOrder

  const PAD: bv8 := 0x3d  // '='

  // b64_table: "A-Za-z0-9+/".
  function TableChar(i: bv8): (c: bv8)
    requires i < 64
  {
    if i < 26 then i + 0x41 else if i < 52 then i + 0x47 else if i < 62 then i - 4 else if i == 62 then 0x2b else 0x2f
  }

  // reverse_table, where 64 marks a character outside the alphabet.
  function ReverseTable(c: bv8): bv8
    requires c < 128
  {
    if 0x41 <= c <= 0x5a then c - 0x41
    else if 0x61 <= c <= 0x7a then c - 0x47
    else if 0x30 <= c <= 0x39 then c + 4
    else if c == 0x2b then 62
    else if c == 0x2f then 63
    else 64
  }

  predicate IsSpace(c: bv8) { c == 0x20 || 0x09 <= c <= 0x0d }

  predicate IsSkipped(c: bv8) { IsSpace(c) || c == PAD }

  // Bytes above 127 are negative characters in the source.
  predicate IsRejected(c: bv8) { !IsSkipped(c) && (c >= 128 || ReverseTable(c) > 63) }

  lemma TableInverse(i: bv8)
    requires i < 64
    ensures TableChar(i) < 128 && ReverseTable(TableChar(i)) == i
    ensures !IsSkipped(TableChar(i)) && !IsRejected(TableChar(i))
  {
  }

  // ---- Bits: three bytes a, b, c are four groups of six, and back ----

  function Group0(a: bv8): bv8 { a >> 2 }

  function Group1(a: bv8, b: bv8): bv8 { ((a & 0x3) << 4) | (b >> 4) }

  function Group2(b: bv8, c: bv8): bv8 { ((b & 0xf) << 2) | (c >> 6) }

  function Group3(c: bv8): bv8 { c & 0x3f }

  function Join0(s: bv8, t: bv8): bv8 { (s << 2) | (t >> 4) }

  function Join1(s: bv8, t: bv8): bv8 { (s << 4) | (t >> 2) }

  function Join2(s: bv8, t: bv8): bv8 { (s << 6) | t }

  lemma GroupsFit(a: bv8, b: bv8)
    ensures Group0(a) < 64 && Group1(a, b) < 64 && Group2(a, b) < 64 && Group3(a) < 64
  {
  }

  lemma JoinGroups(a: bv8, b: bv8, c: bv8)
    ensures Join0(Group0(a), Group1(a, b)) == a
    ensures Join1(Group1(a, b), Group2(b, c)) == b
    ensures Join2(Group2(b, c), Group3(c)) == c
  {
  }

  // ---- The encoding, by position ----

  // The byte at i, or zero bits past the end.
  function At(data: bytes, i: nat): bv8 { if i < |data| then data[i] else 0 }

  function Sextet(data: bytes, j: nat): (s: bv8)
    ensures s < 64
  {
    var q := 3 * (j / 4);
    var a, b, c := At(data, q), At(data, q + 1), At(data, q + 2);
    GroupsFit(a, b);
    GroupsFit(b, c);
    GroupsFit(c, c);
    if j % 4 == 0 then Group0(a)
    else if j % 4 == 1 then Group1(a, b)
    else if j % 4 == 2 then Group2(b, c)
    else Group3(c)
  }

  // How many characters carry bits: the 8 * n bits in groups of six.
  function SextetCount(n: nat): nat { (8 * n + 5) / 6 }

  function EncodedLength(n: nat): nat { (n + 2) / 3 * 4 }

  /** Groups of three bytes as four characters, with '=' where the last group is short. */
  function Encode(data: bytes): (r: bytes)
    ensures |r| == EncodedLength(|data|)
  {
    seq(EncodedLength(|data|), j requires 0 <= j =>
      if j < SextetCount(|data|) then TableChar(Sextet(data, j)) else PAD)
  }

  /** Padding stands only at the end: two characters after one spare byte, one after two, none otherwise. */
  lemma PaddingOnlyAtEnd(data: bytes, j: nat)
    requires j < EncodedLength(|data|)
    ensures Encode(data)[j] == PAD <==> j >= EncodedLength(|data|) - (3 - |data| % 3) % 3
  {
    if j < SextetCount(|data|) {
      TableInverse(Sextet(data, j));
    }
  }

  // ---- The decoding ----

  // The six-bit values of the characters that count, or None when some character is not allowed.
  function Sextets(asc: bytes): (r: Option<bytes>)
    ensures r.Some? ==> forall k :: 0 <= k < |r.value| ==> r.value[k] < 64
  {
    if asc == [] then Some([])
    else
      var before := Sextets(asc[..|asc| - 1]);
      var c := asc[|asc| - 1];
      if before.None? || IsRejected(c) then None
      else if IsSkipped(c) then before
      else Some(before.value + [ReverseTable(c)])
  }

  function OutByte(s: bytes, i: nat): bv8
    requires i < 3 * |s| / 4
  {
    var q := 4 * (i / 3);
    if i % 3 == 0 then Join0(s[q], s[q + 1])
    else if i % 3 == 1 then Join1(s[q + 1], s[q + 2])
    else Join2(s[q + 2], s[q + 3])
  }

  function Packed(s: bytes): (r: bytes)
    ensures |r| == 3 * |s| / 4
  {
    seq(3 * |s| / 4, i requires 0 <= i < 3 * |s| / 4 => OutByte(s, i))
  }

  /** What base64_decode returns: nothing if a character is not allowed, and otherwise the packed bits. */
  function Decode(asc: bytes): bytes {
    match Sextets(asc)
    case None => []
    case Some(s) => Packed(s)
  }

  // ---- Round trip ----

  function FirstSextets(data: bytes, m: nat): (r: bytes)
    ensures |r| == m
  {
    seq(m, j requires 0 <= j => Sextet(data, j))
  }

  lemma {:induction false} SextetsOfEncoded(data: bytes, n: nat)
    requires n <= EncodedLength(|data|)
    ensures var m := SextetCount(|data|);
            Sextets(Encode(data)[..n]) == Some(FirstSextets(data, if n < m then n else m))
  {
    if n > 0 {
      SextetsOfEncoded(data, n - 1);
      var e := Encode(data)[..n];
      assert e[..n - 1] == Encode(data)[..n - 1];
      if n - 1 < SextetCount(|data|) {
        TableInverse(Sextet(data, n - 1));
        assert FirstSextets(data, n - 1) + [Sextet(data, n - 1)] == FirstSextets(data, n);
      } else {
        assert e[n - 1] == PAD;
      }
    }
  }

  lemma PackedSextet(data: bytes, s: bytes, i: nat)
    requires |s| == SextetCount(|data|) && forall j :: 0 <= j < |s| ==> s[j] == Sextet(data, j)
    requires i < |data|
    ensures i < 3 * |s| / 4 && OutByte(s, i) == data[i]
  {
    hide Group0, Group1, Group2, Group3, Join0, Join1, Join2;
    var q := 4 * (i / 3);
    assert q / 4 == (q + 1) / 4 == (q + 2) / 4 == (q + 3) / 4 == i / 3;
    if i % 3 == 0 {
      JoinGroups(data[i], At(data, i + 1), 0);
    } else if i % 3 == 1 {
      JoinGroups(data[i - 1], data[i], At(data, i + 1));
    } else {
      JoinGroups(0, data[i - 1], data[i]);
    }
  }

  /** Decoding the encoding of a byte string gives the string back. */
  lemma DecodeEncode(data: bytes)
    ensures Decode(Encode(data)) == data
  {
    var n, m := EncodedLength(|data|), SextetCount(|data|);
    SextetsOfEncoded(data, n);
    assert Encode(data)[..n] == Encode(data);
    var s := Sextets(Encode(data)).value;
    assert 3 * |s| / 4 == |data|;
    forall i | 0 <= i < |data|
      ensures OutByte(s, i) == data[i]
    {
      PackedSextet(data, s, i);
    }
  }

  // ---- Skipped characters ----

  lemma {:induction false} SextetsConcat(a: bytes, b: bytes)
    ensures Sextets(a + b) == if Sextets(a).None? || Sextets(b).None? then None
                              else Some(Sextets(a).value + Sextets(b).value)
  {
    if b == [] {
      assert a + b == a;
      if Sextets(a).Some? {
        assert Sextets(a).value + [] == Sextets(a).value;
      }
    } else {
      var before := b[..|b| - 1];
      assert (a + b)[..|a + b| - 1] == a + before;
      SextetsConcat(a, before);
      var x, y := Sextets(a), Sextets(before);
      if x.Some? && y.Some? && !IsSkipped(b[|b| - 1]) && !IsRejected(b[|b| - 1]) {
        var last := [ReverseTable(b[|b| - 1])];
        assert (x.value + y.value) + last == x.value + (y.value + last);
      }
    }
  }

  /** White space or '=' put in anywhere does not change what is decoded. */
  lemma SkippedAnywhere(a: bytes, c: bv8, b: bytes)
    requires IsSkipped(c)
    ensures Decode(a + [c] + b) == Decode(a + b)
  {
    assert Sextets([c]) == Some([]) by {
      assert [c][..0] == [];
    }
    SextetsConcat(a, [c]);
    SextetsConcat(a + [c], b);
    SextetsConcat(a, b);
    if Sextets(a).Some? {
      assert Sextets(a).value + [] == Sextets(a).value;
    }
  }

  /** A character that is not allowed, anywhere, empties the result. */
  lemma RejectedAnywhere(a: bytes, c: bv8, b: bytes)
    requires IsRejected(c)
    ensures Decode(a + [c] + b) == []
  {
    SextetsConcat(a, [c]);
    SextetsConcat(a + [c], b);
  }

  // ---- Which characters those are ----

  // A-Z, a-z, 0-9, + and /, as characters of ASCII.
  predicate IsLetter(c: bv8) {
    0x41 <= c <= 0x5a || 0x61 <= c <= 0x7a || 0x30 <= c <= 0x39 || c == 0x2b || c == 0x2f
  }

  // Blank, tab, line feed, vertical tab, form feed, carriage return and '='.
  predicate IsFiller(c: bv8) {
    c == 0x20 || c == 0x09 || c == 0x0a || c == 0x0b || c == 0x0c || c == 0x0d || c == 0x3d
  }

  /** The white space of ASCII and '=' may stand anywhere. */
  lemma FillerSkipped(a: bytes, c: bv8, b: bytes)
    requires IsFiller(c)
    ensures Decode(a + [c] + b) == Decode(a + b)
  {
    SkippedAnywhere(a, c, b);
  }

  /** Every other character that is not of the alphabet empties the result. */
  lemma ForeignRejected(a: bytes, c: bv8, b: bytes)
    requires !IsFiller(c) && !IsLetter(c)
    ensures Decode(a + [c] + b) == []
  {
    RejectedAnywhere(a, c, b);
  }

  // How many letters a text has.
  function LetterCount(asc: bytes): (n: nat)
    ensures n <= |asc|
  {
    if asc == [] then 0 else LetterCount(asc[..|asc| - 1]) + if IsLetter(asc[|asc| - 1]) then 1 else 0
  }

  predicate HasForeign(asc: bytes) { exists c <- asc :: !IsFiller(c) && !IsLetter(c) }

  lemma {:induction false} SextetsAreLetters(asc: bytes)
    ensures Sextets(asc).None? <==> HasForeign(asc)
    ensures Sextets(asc).Some? ==> |Sextets(asc).value| == LetterCount(asc)
  {
    hide IsLetter, IsFiller, IsRejected, IsSkipped;
    if asc != [] {
      var before, c := asc[..|asc| - 1], asc[|asc| - 1];
      SextetsAreLetters(before);
      CharacterKinds(c);
      assert asc == before + [c];
    }
  }

  lemma CharacterKinds(c: bv8)
    ensures IsSkipped(c) <==> IsFiller(c)
    ensures IsRejected(c) <==> !IsFiller(c) && !IsLetter(c)
    ensures !(IsFiller(c) && IsLetter(c))
  {
  }

  /** How much is decoded: three bytes for every four letters, or nothing when some character is foreign. */
  lemma DecodedSize(asc: bytes)
    ensures |Decode(asc)| == if HasForeign(asc) then 0 else 3 * LetterCount(asc) / 4
  {
    SextetsAreLetters(asc);
  }

  // The place of a letter in the alphabet.
  function Place(c: bv8): bv8
    requires IsLetter(c)
  {
    if c == 0x2b then 62
    else if c == 0x2f then 63
    else if c <= 0x39 then c - 0x30 + 52
    else if c <= 0x5a then c - 0x41
    else c - 0x61 + 26
  }

  /** The alphabet is in the order of RFC 4648: what a letter stands for is its place. */
  lemma LetterValue(c: bv8)
    requires IsLetter(c)
    ensures Sextets([c]) == Some([Place(c)])
  {
    hide Place, ReverseTable, IsLetter;
    PlaceReversed(c);
    assert [c][..0] == [] && Sextets([]) == Some([]);
    var none: bytes := [];
    assert none + [ReverseTable(c)] == [Place(c)];
  }

  lemma PlaceReversed(c: bv8)
    requires IsLetter(c)
    ensures c < 128 && ReverseTable(c) == Place(c) && !IsSkipped(c) && !IsRejected(c)
  {
  }

  /** The four values of a group are the 24 bits of its three bytes, six at a time from the top. */
  lemma GroupBits(data: bytes, q: nat)
    requires 3 * q + 3 <= |data|
    ensures var a, b, c := data[3 * q] as bv32, data[3 * q + 1] as bv32, data[3 * q + 2] as bv32;
            var s, t := Sextet(data, 4 * q) as bv32, Sextet(data, 4 * q + 1) as bv32;
            var u, v := Sextet(data, 4 * q + 2) as bv32, Sextet(data, 4 * q + 3) as bv32;
            (a << 16) | (b << 8) | c == (s << 18) | (t << 12) | (u << 6) | v
  {
    var a, b, c := data[3 * q], data[3 * q + 1], data[3 * q + 2];
    hide Group0, Group1, Group2, Group3;
    assert Sextet(data, 4 * q) == Group0(a) && Sextet(data, 4 * q + 1) == Group1(a, b);
    assert Sextet(data, 4 * q + 2) == Group2(b, c) && Sextet(data, 4 * q + 3) == Group3(c);
    SixByFour(a, b, c);
  }

  lemma SixByFour(a: bv8, b: bv8, c: bv8)
    ensures (a as bv32 << 16) | (b as bv32 << 8) | (c as bv32)
         == (Group0(a) as bv32 << 18) | (Group1(a, b) as bv32 << 12) | (Group2(b, c) as bv32 << 6)
            | (Group3(c) as bv32)
  {
  }

  // Four values of six bits in one number.
  function FourValues(t: bv8, u: bv8, v: bv8, w: bv8): bv32 {
    (t as bv32 << 18) | (u as bv32 << 12) | (v as bv32 << 6) | w as bv32
  }

  /** The decoded bytes are the 24 bits of their four values, eight at a time from the top, however many of the values
      are there. */
  lemma DecodedBits(asc: bytes, q: nat)
    requires 3 * q < |Decode(asc)|
    ensures Sextets(asc).Some?
    ensures var s, d := Sextets(asc).value, Decode(asc);
            var n := FourValues(At(s, 4 * q), At(s, 4 * q + 1), At(s, 4 * q + 2), At(s, 4 * q + 3));
            && d[3 * q] as bv32 == (n >> 16) & 0xff
            && (3 * q + 1 < |d| ==> d[3 * q + 1] as bv32 == (n >> 8) & 0xff)
            && (3 * q + 2 < |d| ==> d[3 * q + 2] as bv32 == n & 0xff)
  {
    hide Sextets, Packed, Join0, Join1, Join2, FourValues;
    var s := Sextets(asc).value;
    EightByThree(At(s, 4 * q), At(s, 4 * q + 1), At(s, 4 * q + 2), At(s, 4 * q + 3));
    PackedAt(s, 3 * q);
    if 3 * q + 1 < |Decode(asc)| {
      PackedAt(s, 3 * q + 1);
    }
    if 3 * q + 2 < |Decode(asc)| {
      PackedAt(s, 3 * q + 2);
    }
  }

  lemma PackedAt(s: bytes, i: nat)
    requires i < 3 * |s| / 4
    ensures var q := 4 * (i / 3);
            Packed(s)[i] == if i % 3 == 0 then Join0(At(s, q), At(s, q + 1))
                            else if i % 3 == 1 then Join1(At(s, q + 1), At(s, q + 2))
                            else Join2(At(s, q + 2), At(s, q + 3))
  {
    hide Join0, Join1, Join2;
  }

  lemma EightByThree(t: bv8, u: bv8, v: bv8, w: bv8)
    requires t < 64 && u < 64 && v < 64 && w < 64
    ensures var n := FourValues(t, u, v, w);
            && Join0(t, u) as bv32 == (n >> 16) & 0xff && Join1(u, v) as bv32 == (n >> 8) & 0xff
            && Join2(v, w) as bv32 == n & 0xff
  {
  }

  /** BASE64("foobar") = "Zm9vYmFy", of section 10 of RFC 4648. */
  lemma EncodeFoobar()
    ensures Encode([0x66, 0x6f, 0x6f, 0x62, 0x61, 0x72]) == [0x5a, 0x6d, 0x39, 0x76, 0x59, 0x6d, 0x46, 0x79]
  {
    var d := [0x66, 0x6f, 0x6f, 0x62, 0x61, 0x72];
    assert Sextet(d, 0) == 25 && Sextet(d, 1) == 38 && Sextet(d, 2) == 61 && Sextet(d, 3) == 47;
    assert Sextet(d, 4) == 24 && Sextet(d, 5) == 38 && Sextet(d, 6) == 5 && Sextet(d, 7) == 50;
  }

  // ---- The loops ----

  const MAX_SIZE: nat := 0xffff_ffff_ffff_ffff

  function Push8(acc: bv32, b: bv8): bv32 { (acc << 8) | b as bv32 }

  function Push6(acc: bv32, c: bv8): bv32 { (acc << 6) | c as bv32 }

  function Window(acc: bv32, bits: nat): bv8
    requires bits < 32
  {
    ((acc >> bits) & 0x3f) as bv8
  }

  function LowByte(acc: bv32, bits: nat): bv8
    requires bits < 32
  {
    ((acc >> bits) & 0xff) as bv8
  }

  // The accumulator ends in the last two, four or six bits of b.
  predicate EndsIn2(acc: bv32, b: bv8) { acc & 0x3 == (b & 0x3) as bv32 }

  predicate EndsIn4(acc: bv32, b: bv8) { acc & 0xf == (b & 0xf) as bv32 }

  predicate EndsIn6(acc: bv32, b: bv8) { acc & 0x3f == (b & 0x3f) as bv32 }

  lemma PushByte(acc: bv32, prev: bv8, b: bv8)
    ensures EndsIn2(Push8(acc, b), b) && EndsIn4(Push8(acc, b), b)
    ensures Window(Push8(acc, b), 2) == Group0(b)
    ensures EndsIn2(acc, prev) ==> Window(Push8(acc, b), 4) == Group1(prev, b)
    ensures EndsIn4(acc, prev) ==> Window(Push8(acc, b), 6) == Group2(prev, b)
    ensures Window(Push8(acc, b), 0) == Group3(b)
  {
  }

  lemma PushSextet(acc: bv32, prev: bv8, c: bv8)
    requires c < 64
    ensures EndsIn2(Push6(acc, c), c) && EndsIn4(Push6(acc, c), c) && EndsIn6(Push6(acc, c), c)
    ensures EndsIn6(acc, prev) ==> LowByte(Push6(acc, c), 4) == Join0(prev, c)
    ensures EndsIn4(acc, prev) ==> LowByte(Push6(acc, c), 2) == Join1(prev, c)
    ensures EndsIn2(acc, prev) ==> LowByte(Push6(acc, c), 0) == Join2(prev, c)
  {
  }

  // The last character, when the bytes do not come out even.
  lemma ShiftUp(acc: bv32, b: bv8)
    ensures EndsIn2(acc, b) ==> ((acc << 4) & 0x3f) as bv8 == Group1(b, 0)
    ensures EndsIn4(acc, b) ==> ((acc << 2) & 0x3f) as bv8 == Group2(b, 0)
  {
  }

  // What the accumulator ends in after k bytes: the bits of the last one not yet written out.
  ghost predicate Pending(data: bytes, k: nat, bits: nat, acc: bv32)
    requires k <= |data|
  {
    && bits == 2 * (k % 3)
    && (k % 3 == 1 ==> EndsIn2(acc, data[k - 1]))
    && (k % 3 == 2 ==> EndsIn4(acc, data[k - 1]))
  }

  lemma WindowIsSextet(data: bytes, i: nat, bits: nat, acc: bv32, j: nat)
    requires i < |data| && Pending(data, i, bits, acc)
    requires 8 * i / 6 <= j && 6 * j + 6 <= 8 * i + 8
    ensures Window(Push8(acc, data[i]), 8 * i + 8 - (6 * j + 6)) == Sextet(data, j)
  {
    hide Window, Group0, Group1, Group2, Group3, Push8, EndsIn2, EndsIn4;
    var q := i / 3;
    assert q == (4 * q) / 4 == (4 * q + 1) / 4 == (4 * q + 2) / 4 == (4 * q + 3) / 4;
    PushByte(acc, if i == 0 then 0 else data[i - 1], data[i]);
    if i % 3 == 0 {
      assert i == 3 * q && j == 4 * q;
    } else if i % 3 == 1 {
      assert i == 3 * q + 1 && j == 4 * q + 1;
    } else if j == 4 * q + 2 {
      assert i == 3 * q + 2;
    } else {
      assert i == 3 * q + 2 && j == 4 * q + 3;
    }
  }

  lemma PendingNext(data: bytes, i: nat, bits: nat, acc: bv32)
    requires i < |data| && Pending(data, i, bits, acc)
    ensures Pending(data, i + 1, 2 * ((i + 1) % 3), Push8(acc, data[i]))
  {
    hide EndsIn2, EndsIn4, Push8;
    PushByte(acc, 0, data[i]);
  }

  // The trailing bits, shifted up to a full character.
  lemma LastSextet(data: bytes, bits: nat, acc: bv32)
    requires Pending(data, |data|, bits, acc) && bits > 0
    ensures ((acc << (6 - bits)) & 0x3f) as bv8 == Sextet(data, 8 * |data| / 6)
  {
    hide EndsIn2, EndsIn4, Group0, Group1, Group2, Group3;
    var n := |data|;
    ShiftUp(acc, data[n - 1]);
    if n % 3 == 1 {
      assert 8 * n / 6 == 4 * (n / 3) + 1 && bits == 2;
    } else {
      assert 8 * n / 6 == 4 * (n / 3) + 2 && bits == 4;
    }
  }

  // The first outpos characters are final and the rest still '='.
  ghost predicate Written(data: bytes, out: bytes, outpos: nat) {
    && |out| == EncodedLength(|data|)
    && forall j :: 0 <= j < |out| ==> out[j] == if j < outpos then TableChar(Sextet(data, j)) else PAD
  }

  lemma WriteOne(data: bytes, out: bytes, p: nat)
    requires Written(data, out, p) && p < |out|
    ensures Written(data, out[p := TableChar(Sextet(data, p))], p + 1)
  {
  }

  lemma AllWritten(data: bytes, out: bytes)
    requires Written(data, out, SextetCount(|data|))
    ensures out == Encode(data)
  {
  }

  // The inner loop: six bits at a time leave the accumulator once byte i has entered it.
  method WriteOut(
    ghost data: bytes, ghost i: nat, ghost acc: bv32, retval: array<bv8>, accumulator: bv32, bits: nat, pos: nat)
    returns (bitsCollected: nat, outpos: nat)
    requires i < |data| && Pending(data, i, 2 * (i % 3), acc) && accumulator == Push8(acc, data[i])
    requires bits == 2 * (i % 3) + 8 && pos == 8 * i / 6 && Written(data, retval[..], pos)
    modifies retval
    ensures bitsCollected == 2 * ((i + 1) % 3) && outpos == 8 * (i + 1) / 6 && Written(data, retval[..], outpos)
  {
    hide TableChar, Sextet, Written, Window, Pending, Push8, EncodedLength;
    bitsCollected, outpos := bits, pos;
    assert retval.Length == EncodedLength(|data|) by {
      WrittenLength(data, retval[..], pos);
    }
    BitsBefore(i, pos);
    while bitsCollected >= 6
      invariant pos <= outpos && bitsCollected == 8 * i + 8 - 6 * outpos
      invariant Written(data, retval[..], outpos)
    {
      bitsCollected := bitsCollected - 6;
      RoomFor(|data|, i, outpos);
      WindowIsSextet(data, i, 2 * (i % 3), acc, outpos);
      WriteOne(data, retval[..], outpos);
      ghost var before := retval[..];
      retval[outpos] := TableChar(Window(accumulator, bitsCollected));
      assert retval[..] == before[outpos := TableChar(Sextet(data, outpos))];
      outpos := outpos + 1;
    }
    BitsBehind(i, bitsCollected, outpos);
  }

  lemma BitsBefore(i: nat, pos: nat)
    requires pos == 8 * i / 6
    ensures 2 * (i % 3) + 8 == 8 * i + 8 - 6 * pos
  {
    var q, r := i / 3, i % 3;
    assert i == 3 * q + r;
    assert 8 * i == 6 * (4 * q + r) + 2 * r;
  }

  lemma BitsBehind(i: nat, bits: nat, pos: nat)
    requires bits == 8 * i + 8 - 6 * pos && bits < 6
    ensures bits == 2 * ((i + 1) % 3) && pos == 8 * (i + 1) / 6
  {
    BitsBefore(i + 1, 8 * (i + 1) / 6);
  }

  lemma RoomFor(n: nat, i: nat, p: nat)
    requires i < n && 6 * p + 6 <= 8 * i + 8
    ensures p < EncodedLength(n)
  {
  }

  lemma WrittenLength(data: bytes, out: bytes, p: nat)
    requires Written(data, out, p)
    ensures |out| == EncodedLength(|data|)
  {
  }

  /** base64_encode. An empty string makes its own length assertion fail, so callers must not pass one. */
  method EncodeString(bindata: bytes) returns (r: bytes)
    requires bindata != []
    ensures r == if |bindata| > 0xffff_ffff_ffff_ffff / 4 * 3 then [] else Encode(bindata)
  {
    hide TableChar, Sextet, Written, Window, Encode, Pending, Push8, EndsIn2, EndsIn4;
    if |bindata| > MAX_SIZE / 4 * 3 {
      return [];
    }
    var binlen := |bindata|;
    var retval := new bv8[(binlen + 2) / 3 * 4](_ => PAD);
    var outpos, bitsCollected := 0, 0;
    var accumulator: bv32 := 0;
    NothingWritten(bindata, retval[..]);
    NothingPending(bindata);
    for i := 0 to binlen
      invariant Pending(bindata, i, bitsCollected, accumulator) && bitsCollected == 2 * (i % 3)
      invariant outpos == 8 * i / 6
      invariant Written(bindata, retval[..], outpos)
    {
      ghost var acc := accumulator;
      PendingNext(bindata, i, bitsCollected, accumulator);
      accumulator := Push8(accumulator, bindata[i]);
      bitsCollected := bitsCollected + 8;
      bitsCollected, outpos := WriteOut(bindata, i, acc, retval, accumulator, bitsCollected, outpos);
    }
    if bitsCollected > 0 {
      LastSextet(bindata, bitsCollected, accumulator);
      accumulator := accumulator << (6 - bitsCollected);
      WriteOne(bindata, retval[..], outpos);
      ghost var before := retval[..];
      retval[outpos] := TableChar((accumulator & 0x3f) as bv8);
      assert retval[..] == before[outpos := TableChar(Sextet(bindata, outpos))];
      outpos := outpos + 1;
    }
    assert |retval[..]| - 2 <= outpos <= |retval[..]|;
    AllWritten(bindata, retval[..]);
    return retval[..];
  }

  lemma NothingPending(data: bytes)
    ensures Pending(data, 0, 0, 0)
  {
  }

  lemma NothingWritten(data: bytes, out: bytes)
    requires |out| == EncodedLength(|data|) && forall j :: 0 <= j < |out| ==> out[j] == PAD
    ensures Written(data, out, 0)
  {
  }

  function HeldBits(m: nat): (bits: nat)
    ensures bits <= 6
  {
    if m % 4 == 0 then 0 else if m % 4 == 1 then 6 else if m % 4 == 2 then 4 else 2
  }

  // What the accumulator ends in after the characters s: the bits of the last one not yet returned.
  ghost predicate Held(s: bytes, bits: nat, acc: bv32) {
    var m := |s|;
    && bits == HeldBits(m)
    && (m % 4 == 1 ==> EndsIn6(acc, s[m - 1]))
    && (m % 4 == 2 ==> EndsIn4(acc, s[m - 1]))
    && (m % 4 == 3 ==> EndsIn2(acc, s[m - 1]))
  }

  // One more character adds a whole byte unless it starts a group of four.
  lemma PackedGrows(s: bytes, c: bv8)
    ensures Packed(s + [c]) == if |s| % 4 == 0 then Packed(s) else Packed(s) + [OutByte(s + [c], 3 * |s| / 4)]
  {
    hide OutByte;
    var t := s + [c];
    forall i | 0 <= i < 3 * |s| / 4
      ensures OutByte(t, i) == OutByte(s, i)
    {
      OutBytePrefix(s, c, i);
    }
  }

  lemma OutBytePrefix(s: bytes, c: bv8, i: nat)
    requires i < 3 * |s| / 4
    ensures OutByte(s + [c], i) == OutByte(s, i)
  {
    hide Join0, Join1, Join2;
  }

  // The byte that a character completes is in the low bits of the accumulator.
  lemma CompletedByte(s: bytes, c: bv8, bits: nat, acc: bv32)
    requires c < 64 && Held(s, bits, acc) && |s| % 4 != 0
    ensures bits >= 2 && OutByte(s + [c], 3 * |s| / 4) == LowByte(Push6(acc, c), bits - 2)
  {
    hide LowByte, Push6, EndsIn2, EndsIn4, EndsIn6, Join0, Join1, Join2;
    var m, q := |s|, |s| / 4;
    var t := s + [c];
    assert t[m] == c && t[m - 1] == s[m - 1];
    PushSextet(acc, s[m - 1], c);
    if m % 4 == 1 {
      assert m == 4 * q + 1 && 3 * m / 4 == 3 * q && bits == 6;
    } else if m % 4 == 2 {
      assert m == 4 * q + 2 && 3 * m / 4 == 3 * q + 1 && bits == 4;
    } else {
      assert m == 4 * q + 3 && 3 * m / 4 == 3 * q + 2 && bits == 2;
    }
  }

  lemma HeldNext(s: bytes, c: bv8, bits: nat, acc: bv32)
    requires c < 64 && Held(s, bits, acc)
    ensures Held(s + [c], if bits + 6 >= 8 then bits - 2 else bits + 6, Push6(acc, c))
    ensures bits <= 6 && (bits + 6 >= 8 <==> |s| % 4 != 0)
  {
    hide Push6, EndsIn2, EndsIn4, EndsIn6;
    PushSextet(acc, 0, c);
    assert (s + [c])[|s|] == c;
  }

  lemma SextetsStep(asc: bytes, i: nat)
    requires i < |asc|
    ensures Sextets(asc[..0]) == Some([])
    ensures var before := Sextets(asc[..i]);
            Sextets(asc[..i + 1]) == if before.None? || IsRejected(asc[i]) then None
                                     else if IsSkipped(asc[i]) then before
                                     else Some(before.value + [ReverseTable(asc[i])])
  {
    assert asc[..i + 1][..i] == asc[..i];
  }

  /** base64_decode. */
  method DecodeString(ascdata: bytes) returns (retval: bytes)
    ensures retval == Decode(ascdata)
  {
    hide Packed, Held, ReverseTable, LowByte, OutByte, Push6, Sextets;
    retval := [];
    var bitsCollected := 0;
    var accumulator: bv32 := 0;
    ghost var s: bytes := [];
    NothingHeld();
    for i := 0 to |ascdata|
      invariant Sextets(ascdata[..i]) == Some(s)
      invariant Held(s, bitsCollected, accumulator)
      invariant retval == Packed(s)
    {
      var c := ascdata[i];
      SextetsStep(ascdata, i);
      if IsSpace(c) || c == PAD {
        continue;
      }
      if c > 127 || ReverseTable(c) > 63 {
        RejectedAnywhere(ascdata[..i], c, ascdata[i + 1..]);
        assert ascdata[..i] + [c] + ascdata[i + 1..] == ascdata;
        return [];
      }
      PackedGrows(s, ReverseTable(c));
      HeldNext(s, ReverseTable(c), bitsCollected, accumulator);
      if |s| % 4 != 0 {
        CompletedByte(s, ReverseTable(c), bitsCollected, accumulator);
      }
      accumulator := Push6(accumulator, ReverseTable(c));
      bitsCollected := bitsCollected + 6;
      if bitsCollected >= 8 {
        bitsCollected := bitsCollected - 8;
        retval := retval + [LowByte(accumulator, bitsCollected)];
      }
      s := s + [ReverseTable(c)];
    }
    assert ascdata[..|ascdata|] == ascdata;
  }

  lemma NothingHeld()
    ensures Held([], 0, 0) && Packed([]) == [] && Sextets([]) == Some([])
  {
  }
}
