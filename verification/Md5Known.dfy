/** The digest of "abc" that section A.5 of RFC 1321 gives, worked out from the definition: the tables of additive
    constants, shifts and word orders, which no law describes, are right together. */
module Md5Known {
  import opened Md5Transform
  import opened Md5

  const ABC: bytes := [0x61, 0x62, 0x63]

  // The words of the one block that the padded message is.
  const WORDS: seq<word> := [0x80636261, 0, 0, 0, 0, 0, 0, 0, 0, 0, 0, 0, 0, 0, 0x18, 0]

  lemma StepOf(n: nat, q: Quad, aux: word, x: word, t: word, s: nat, r: word)
    requires n < 64 && Steps(INIT, WORDS, n) == q
    requires Auxiliary(n, q.b, q.c, q.d) == aux && WORDS[Index(n)] == x && T(n) == t && Shift(n) == s
    requires Turn(q.a, q.b, aux, x, t, s) == r
    ensures Steps(INIT, WORDS, n + 1) == Quad(q.d, r, q.b, q.c)
  {
    hide Auxiliary, Turn, T, Index, Shift;
  }

  lemma Value0()
    ensures Auxiliary(0, 0xefcdab89, 0x98badcfe, 0x10325476) == 0x98badcfe
    ensures Turn(0x67452301, 0xefcdab89, 0x98badcfe, 0x80636261, 0xd76aa478, 7) == 0xd6d117b4
    ensures WORDS[Index(0)] == 0x80636261 && T(0) == 0xd76aa478 && Shift(0) == 7
  {
  }

  lemma Value1()
    ensures Auxiliary(1, 0xd6d117b4, 0xefcdab89, 0x98badcfe) == 0xceebcbca
    ensures Turn(0x10325476, 0xd6d117b4, 0xceebcbca, 0x0, 0xe8c7b756, 12) == 0x344a8432
    ensures WORDS[Index(1)] == 0x0 && T(1) == 0xe8c7b756 && Shift(1) == 12
  {
  }

  lemma Value2()
    ensures Auxiliary(2, 0x344a8432, 0xd6d117b4, 0xefcdab89) == 0xdfc52fb9
    ensures Turn(0x98badcfe, 0x344a8432, 0xdfc52fb9, 0x0, 0x242070db, 17) == 0x2f6fbd72
    ensures WORDS[Index(2)] == 0x0 && T(2) == 0x242070db && Shift(2) == 17
  {
  }

  lemma Value3()
    ensures Auxiliary(3, 0x2f6fbd72, 0x344a8432, 0xd6d117b4) == 0xf4da86b6
    ensures Turn(0xefcdab89, 0x2f6fbd72, 0xf4da86b6, 0x0, 0xc1bdceee, 22) == 0x7ad956f2
    ensures WORDS[Index(3)] == 0x0 && T(3) == 0xc1bdceee && Shift(3) == 22
  {
  }

  lemma Value4()
    ensures Auxiliary(4, 0x7ad956f2, 0x2f6fbd72, 0x344a8432) == 0x2e4b9472
    ensures Turn(0xd6d117b4, 0x7ad956f2, 0x2e4b9472, 0x0, 0xf57c0faf, 7) == 0xc73741ef
    ensures WORDS[Index(4)] == 0x0 && T(4) == 0xf57c0faf && Shift(4) == 7
  {
  }

  lemma Value5()
    ensures Auxiliary(5, 0xc73741ef, 0x7ad956f2, 0x2f6fbd72) == 0x6a59fcf2
    ensures Turn(0x344a8432, 0xc73741ef, 0x6a59fcf2, 0x0, 0x4787c62a, 12) == 0x8bac3051
    ensures WORDS[Index(5)] == 0x0 && T(5) == 0x4787c62a && Shift(5) == 12
  {
  }

  lemma Value6()
    ensures Auxiliary(6, 0x8bac3051, 0xc73741ef, 0x7ad956f2) == 0xf37546e3
    ensures Turn(0x2f6fbd72, 0x8bac3051, 0xf37546e3, 0x0, 0xa8304613, 17) == 0x207dc67b
    ensures WORDS[Index(6)] == 0x0 && T(6) == 0xa8304613 && Shift(6) == 17
  {
  }

  lemma Value7()
    ensures Auxiliary(7, 0x207dc67b, 0x8bac3051, 0xc73741ef) == 0xc72e01d5
    ensures Turn(0x7ad956f2, 0x207dc67b, 0xc72e01d5, 0x0, 0xfd469501, 22) == 0x928d99f6
    ensures WORDS[Index(7)] == 0x0 && T(7) == 0xfd469501 && Shift(7) == 22
  {
  }

  lemma Value8()
    ensures Auxiliary(8, 0x928d99f6, 0x207dc67b, 0x8bac3051) == 0x92da073
    ensures Turn(0xc73741ef, 0x928d99f6, 0x92da073, 0x0, 0x698098d8, 7) == 0x854b3712
    ensures WORDS[Index(8)] == 0x0 && T(8) == 0x698098d8 && Shift(8) == 7
  {
  }

  lemma Value9()
    ensures Auxiliary(9, 0x854b3712, 0x928d99f6, 0x207dc67b) == 0xa03dd17b
    ensures Turn(0x8bac3051, 0x854b3712, 0xa03dd17b, 0x0, 0x8b44f7af, 12) == 0x74e2f284
    ensures WORDS[Index(9)] == 0x0 && T(9) == 0x8b44f7af && Shift(9) == 12
  {
  }

  lemma Value10()
    ensures Auxiliary(10, 0x74e2f284, 0x854b3712, 0x928d99f6) == 0x864f3b72
    ensures Turn(0x207dc67b, 0x74e2f284, 0x864f3b72, 0x0, 0xffff5bb1, 17) == 0x3020401c
    ensures WORDS[Index(10)] == 0x0 && T(10) == 0xffff5bb1 && Shift(10) == 17
  {
  }

  lemma Value11()
    ensures Auxiliary(11, 0x3020401c, 0x74e2f284, 0x854b3712) == 0xb56b7706
    ensures Turn(0x928d99f6, 0x3020401c, 0xb56b7706, 0x0, 0x895cd7be, 22) == 0x5ed49596
    ensures WORDS[Index(11)] == 0x0 && T(11) == 0x895cd7be && Shift(11) == 22
  {
  }

  lemma Value12()
    ensures Auxiliary(12, 0x5ed49596, 0x3020401c, 0x74e2f284) == 0x30226214
    ensures Turn(0x854b3712, 0x5ed49596, 0x30226214, 0x0, 0x6b901122, 7) == 0xdda9b9a6
    ensures WORDS[Index(12)] == 0x0 && T(12) == 0x6b901122 && Shift(12) == 7
  {
  }

  lemma Value13()
    ensures Auxiliary(13, 0xdda9b9a6, 0x5ed49596, 0x3020401c) == 0x7c80d19e
    ensures Turn(0x74e2f284, 0xdda9b9a6, 0x7c80d19e, 0x0, 0xfd987193, 12) == 0xa1051895
    ensures WORDS[Index(13)] == 0x0 && T(13) == 0xfd987193 && Shift(13) == 12
  {
  }

  lemma Value14()
    ensures Auxiliary(14, 0xa1051895, 0xdda9b9a6, 0x5ed49596) == 0xdfd19d86
    ensures Turn(0x3020401c, 0xa1051895, 0xdfd19d86, 0x18, 0xa679438e, 17) == 0xe396856b
    ensures WORDS[Index(14)] == 0x18 && T(14) == 0xa679438e && Shift(14) == 17
  {
  }

  lemma Value15()
    ensures Auxiliary(15, 0xe396856b, 0xa1051895, 0xdda9b9a6) == 0xbd2d3885
    ensures Turn(0x5ed49596, 0xe396856b, 0xbd2d3885, 0x0, 0x49b40821, 22) == 0x72aff2e0
    ensures WORDS[Index(15)] == 0x0 && T(15) == 0x49b40821 && Shift(15) == 22
  {
  }

  lemma Value16()
    ensures Auxiliary(16, 0x72aff2e0, 0xe396856b, 0xa1051895) == 0x629795ea
    ensures Turn(0xdda9b9a6, 0x72aff2e0, 0x629795ea, 0x0, 0xf61e2562, 5) == 0x3e9e9126
    ensures WORDS[Index(16)] == 0x0 && T(16) == 0xf61e2562 && Shift(16) == 5
  {
  }

  lemma Value17()
    ensures Auxiliary(17, 0x3e9e9126, 0x72aff2e0, 0xe396856b) == 0x32bff3a2
    ensures Turn(0xa1051895, 0x3e9e9126, 0x32bff3a2, 0x0, 0xc040b340, 9) == 0x4a1d804e
    ensures WORDS[Index(17)] == 0x0 && T(17) == 0xc040b340 && Shift(17) == 9
  {
  }

  lemma Value18()
    ensures Auxiliary(18, 0x4a1d804e, 0x3e9e9126, 0x72aff2e0) == 0x4e1d8146
    ensures Turn(0xe396856b, 0x4a1d804e, 0x4e1d8146, 0x0, 0x265e5a51, 14) == 0xe25e1652
    ensures WORDS[Index(18)] == 0x0 && T(18) == 0x265e5a51 && Shift(18) == 14
  {
  }

  lemma Value19()
    ensures Auxiliary(19, 0xe25e1652, 0x4a1d804e, 0x3e9e9126) == 0x621f104a
    ensures Turn(0x72aff2e0, 0xe25e1652, 0x621f104a, 0x80636261, 0xe9b6c7aa, 20) == 0xb5b204e4
    ensures WORDS[Index(19)] == 0x80636261 && T(19) == 0xe9b6c7aa && Shift(19) == 20
  {
  }

  lemma Value20()
    ensures Auxiliary(20, 0xb5b204e4, 0xe25e1652, 0x4a1d804e) == 0xa0521654
    ensures Turn(0x3e9e9126, 0xb5b204e4, 0xa0521654, 0x0, 0xd62f105d, 5) == 0x59a8ffda
    ensures WORDS[Index(20)] == 0x0 && T(20) == 0xd62f105d && Shift(20) == 5
  {
  }

  lemma Value21()
    ensures Auxiliary(21, 0x59a8ffda, 0xb5b204e4, 0xe25e1652) == 0x55a816f6
    ensures Turn(0x4a1d804e, 0x59a8ffda, 0x55a816f6, 0x0, 0x2441453, 9) == 0x6d002f1e
    ensures WORDS[Index(21)] == 0x0 && T(21) == 0x2441453 && Shift(21) == 9
  {
  }

  lemma Value22()
    ensures Auxiliary(22, 0x6d002f1e, 0x59a8ffda, 0xb5b204e4) == 0x6d08ff1e
    ensures Turn(0xe25e1652, 0x6d002f1e, 0x6d08ff1e, 0x0, 0xd8a1e681, 14) == 0xabfc7920
    ensures WORDS[Index(22)] == 0x0 && T(22) == 0xd8a1e681 && Shift(22) == 14
  {
  }

  lemma Value23()
    ensures Auxiliary(23, 0xabfc7920, 0x6d002f1e, 0x59a8ffda) == 0x2da87904
    ensures Turn(0xb5b204e4, 0xabfc7920, 0x2da87904, 0x0, 0xe7d3fbc8, 20) == 0x47092c07
    ensures WORDS[Index(23)] == 0x0 && T(23) == 0xe7d3fbc8 && Shift(23) == 20
  {
  }

  lemma Value24()
    ensures Auxiliary(24, 0x47092c07, 0xabfc7920, 0x6d002f1e) == 0xc7fc7c26
    ensures Turn(0x59a8ffda, 0x47092c07, 0xc7fc7c26, 0x0, 0x21e1cde6, 5) == 0xb7f268cf
    ensures WORDS[Index(24)] == 0x0 && T(24) == 0x21e1cde6 && Shift(24) == 5
  {
  }

  lemma Value25()
    ensures Auxiliary(25, 0xb7f268cf, 0x47092c07, 0xabfc7920) == 0xe7f16c07
    ensures Turn(0x6d002f1e, 0xb7f268cf, 0xe7f16c07, 0x18, 0xc33707d6, 9) == 0x9388eff
    ensures WORDS[Index(25)] == 0x18 && T(25) == 0xc33707d6 && Shift(25) == 9
  {
  }

  lemma Value26()
    ensures Auxiliary(26, 0x9388eff, 0xb7f268cf, 0x47092c07) == 0xb1fa4ccf
    ensures Turn(0xabfc7920, 0x9388eff, 0xb1fa4ccf, 0x0, 0xf4d50d87, 14) == 0xfe1623b1
    ensures WORDS[Index(26)] == 0x0 && T(26) == 0xf4d50d87 && Shift(26) == 14
  {
  }

  lemma Value27()
    ensures Auxiliary(27, 0xfe1623b1, 0x9388eff, 0xb7f268cf) == 0xbe1aa6b1
    ensures Turn(0x47092c07, 0xfe1623b1, 0xbe1aa6b1, 0x0, 0x455a14ed, 20) == 0x786acb8f
    ensures WORDS[Index(27)] == 0x0 && T(27) == 0x455a14ed && Shift(27) == 20
  {
  }

  lemma Value28()
    ensures Auxiliary(28, 0x786acb8f, 0xfe1623b1, 0x9388eff) == 0xfe2eab8f
    ensures Turn(0xb7f268cf, 0x786acb8f, 0xfe2eab8f, 0x0, 0xa9e3e905, 5) == 0x790a77fb
    ensures WORDS[Index(28)] == 0x0 && T(28) == 0xa9e3e905 && Shift(28) == 5
  {
  }

  lemma Value29()
    ensures Auxiliary(29, 0x790a77fb, 0x786acb8f, 0xfe1623b1) == 0x786aebbf
    ensures Turn(0x9388eff, 0x790a77fb, 0x786aebbf, 0x0, 0xfcefa3f8, 9) == 0x9f47e4f8
    ensures WORDS[Index(29)] == 0x0 && T(29) == 0xfcefa3f8 && Shift(29) == 9
  {
  }

  lemma Value30()
    ensures Auxiliary(30, 0x9f47e4f8, 0x790a77fb, 0x786acb8f) == 0x1942f4f8
    ensures Turn(0xfe1623b1, 0x9f47e4f8, 0x1942f4f8, 0x0, 0x676f02d9, 14) == 0xa62884aa
    ensures WORDS[Index(30)] == 0x0 && T(30) == 0x676f02d9 && Shift(30) == 14
  {
  }

  lemma Value31()
    ensures Auxiliary(31, 0xa62884aa, 0x9f47e4f8, 0x790a77fb) == 0xa64d84aa
    ensures Turn(0x786acb8f, 0xa62884aa, 0xa64d84aa, 0x0, 0x8d2a4c8a, 20) == 0x726342d3
    ensures WORDS[Index(31)] == 0x0 && T(31) == 0x8d2a4c8a && Shift(31) == 20
  {
  }

  lemma Value32()
    ensures Auxiliary(32, 0x726342d3, 0xa62884aa, 0x9f47e4f8) == 0x4b0c2281
    ensures Turn(0x790a77fb, 0x726342d3, 0x4b0c2281, 0x0, 0xfffa3942, 4) == 0xb3707ebf
    ensures WORDS[Index(32)] == 0x0 && T(32) == 0xfffa3942 && Shift(32) == 4
  {
  }

  lemma Value33()
    ensures Auxiliary(33, 0xb3707ebf, 0x726342d3, 0xa62884aa) == 0x673bb8c6
    ensures Turn(0x9f47e4f8, 0xb3707ebf, 0x673bb8c6, 0x0, 0x8771f681, 11) == 0x60127b2e
    ensures WORDS[Index(33)] == 0x0 && T(33) == 0x8771f681 && Shift(33) == 11
  {
  }

  lemma Value34()
    ensures Auxiliary(34, 0x60127b2e, 0xb3707ebf, 0x726342d3) == 0xa1014742
    ensures Turn(0xa62884aa, 0x60127b2e, 0xa1014742, 0x0, 0x6d9d6122, 16) == 0x8d212ff5
    ensures WORDS[Index(34)] == 0x0 && T(34) == 0x6d9d6122 && Shift(34) == 16
  {
  }

  lemma Value35()
    ensures Auxiliary(35, 0x8d212ff5, 0x60127b2e, 0xb3707ebf) == 0x5e432a64
    ensures Turn(0x726342d3, 0x8d212ff5, 0x5e432a64, 0x18, 0xfde5380c, 23) == 0x3b0875c7
    ensures WORDS[Index(35)] == 0x18 && T(35) == 0xfde5380c && Shift(35) == 23
  {
  }

  lemma Value36()
    ensures Auxiliary(36, 0x3b0875c7, 0x8d212ff5, 0x60127b2e) == 0xd63b211c
    ensures Turn(0xb3707ebf, 0x3b0875c7, 0xd63b211c, 0x0, 0xa4beea44, 4) == 0x21b117b9
    ensures WORDS[Index(36)] == 0x0 && T(36) == 0xa4beea44 && Shift(36) == 4
  {
  }

  lemma Value37()
    ensures Auxiliary(37, 0x21b117b9, 0x3b0875c7, 0x8d212ff5) == 0x97984d8b
    ensures Turn(0x60127b2e, 0x21b117b9, 0x97984d8b, 0x0, 0x4bdecfa9, 11) == 0x6e7429d5
    ensures WORDS[Index(37)] == 0x0 && T(37) == 0x4bdecfa9 && Shift(37) == 11
  {
  }

  lemma Value38()
    ensures Auxiliary(38, 0x6e7429d5, 0x21b117b9, 0x3b0875c7) == 0x74cd4bab
    ensures Turn(0x8d212ff5, 0x6e7429d5, 0x74cd4bab, 0x0, 0xf6bb4b60, 16) == 0x3575227e
    ensures WORDS[Index(38)] == 0x0 && T(38) == 0xf6bb4b60 && Shift(38) == 16
  {
  }

  lemma Value39()
    ensures Auxiliary(39, 0x3575227e, 0x6e7429d5, 0x21b117b9) == 0x7ab01c12
    ensures Turn(0x3b0875c7, 0x3575227e, 0x7ab01c12, 0x0, 0xbebfbc70, 23) == 0x5a2f5ea5
    ensures WORDS[Index(39)] == 0x0 && T(39) == 0xbebfbc70 && Shift(39) == 23
  {
  }

  lemma Value40()
    ensures Auxiliary(40, 0x5a2f5ea5, 0x3575227e, 0x6e7429d5) == 0x12e550e
    ensures Turn(0x21b117b9, 0x5a2f5ea5, 0x12e550e, 0x0, 0x289b7ec6, 4) == 0x11de1779
    ensures WORDS[Index(40)] == 0x0 && T(40) == 0x289b7ec6 && Shift(40) == 4
  {
  }

  lemma Value41()
    ensures Auxiliary(41, 0x11de1779, 0x5a2f5ea5, 0x3575227e) == 0x7e846ba2
    ensures Turn(0x6e7429d5, 0x11de1779, 0x7e846ba2, 0x80636261, 0xeaa127fa, 11) == 0xfadcaa38
    ensures WORDS[Index(41)] == 0x80636261 && T(41) == 0xeaa127fa && Shift(41) == 11
  {
  }

  lemma Value42()
    ensures Auxiliary(42, 0xfadcaa38, 0x11de1779, 0x5a2f5ea5) == 0xb12de3e4
    ensures Turn(0x3575227e, 0xfadcaa38, 0xb12de3e4, 0x0, 0xd4ef3085, 16) == 0x31c465ca
    ensures WORDS[Index(42)] == 0x0 && T(42) == 0xd4ef3085 && Shift(42) == 16
  {
  }

  lemma Value43()
    ensures Auxiliary(43, 0x31c465ca, 0xfadcaa38, 0x11de1779) == 0xdac6d88b
    ensures Turn(0x5a2f5ea5, 0x31c465ca, 0xdac6d88b, 0x0, 0x4881d05, 23) == 0x4c6124f4
    ensures WORDS[Index(43)] == 0x0 && T(43) == 0x4881d05 && Shift(43) == 23
  {
  }

  lemma Value44()
    ensures Auxiliary(44, 0x4c6124f4, 0x31c465ca, 0xfadcaa38) == 0x8779eb06
    ensures Turn(0x11de1779, 0x4c6124f4, 0x8779eb06, 0x0, 0xd9d4d039, 4) == 0x7f2e507b
    ensures WORDS[Index(44)] == 0x0 && T(44) == 0xd9d4d039 && Shift(44) == 4
  {
  }

  lemma Value45()
    ensures Auxiliary(45, 0x7f2e507b, 0x4c6124f4, 0x31c465ca) == 0x28b1145
    ensures Turn(0xfadcaa38, 0x7f2e507b, 0x28b1145, 0x0, 0xe6db99e5, 11) == 0x99d9679d
    ensures WORDS[Index(45)] == 0x0 && T(45) == 0xe6db99e5 && Shift(45) == 11
  {
  }

  lemma Value46()
    ensures Auxiliary(46, 0x99d9679d, 0x7f2e507b, 0x4c6124f4) == 0xaa961312
    ensures Turn(0x31c465ca, 0x99d9679d, 0xaa961312, 0x0, 0x1fa27cf8, 16) == 0x8fae6399
    ensures WORDS[Index(46)] == 0x0 && T(46) == 0x1fa27cf8 && Shift(46) == 16
  {
  }

  lemma Value47()
    ensures Auxiliary(47, 0x8fae6399, 0x99d9679d, 0x7f2e507b) == 0x6959547f
    ensures Turn(0x4c6124f4, 0x8fae6399, 0x6959547f, 0x0, 0xc4ac5665, 23) == 0x7beb9700
    ensures WORDS[Index(47)] == 0x0 && T(47) == 0xc4ac5665 && Shift(47) == 23
  {
  }

  lemma Value48()
    ensures Auxiliary(48, 0x7beb9700, 0x8fae6399, 0x99d9679d) == 0xf041fcfb
    ensures Turn(0x7f2e507b, 0x7beb9700, 0xf041fcfb, 0x80636261, 0xf4292244, 6) == 0x7b201df8
    ensures WORDS[Index(48)] == 0x80636261 && T(48) == 0xf4292244 && Shift(48) == 6
  {
  }

  lemma Value49()
    ensures Auxiliary(49, 0x7b201df8, 0x7beb9700, 0x8fae6399) == 0x9a0afe
    ensures Turn(0x99d9679d, 0x7b201df8, 0x9a0afe, 0x0, 0x432aff97, 10) == 0xf4e8e96e
    ensures WORDS[Index(49)] == 0x0 && T(49) == 0x432aff97 && Shift(49) == 10
  {
  }

  lemma Value50()
    ensures Auxiliary(50, 0xf4e8e96e, 0x7b201df8, 0x7beb9700) == 0x8fdcf407
    ensures Turn(0x8fae6399, 0xf4e8e96e, 0x8fdcf407, 0x18, 0xab9423a7, 15) == 0xb298cefd
    ensures WORDS[Index(50)] == 0x18 && T(50) == 0xab9423a7 && Shift(50) == 15
  {
  }

  lemma Value51()
    ensures Auxiliary(51, 0xb298cefd, 0xf4e8e96e, 0x7b201df8) == 0x42370791
    ensures Turn(0x7beb9700, 0xb298cefd, 0x42370791, 0x0, 0xfc93a039, 21) == 0x8bf025c4
    ensures WORDS[Index(51)] == 0x0 && T(51) == 0xfc93a039 && Shift(51) == 21
  {
  }

  lemma Value52()
    ensures Auxiliary(52, 0x8bf025c4, 0xb298cefd, 0xf4e8e96e) == 0x396ff928
    ensures Turn(0x7b201df8, 0x8bf025c4, 0x396ff928, 0x0, 0x655b59c3, 6) == 0x6cc5e8a
    ensures WORDS[Index(52)] == 0x0 && T(52) == 0x655b59c3 && Shift(52) == 6
  {
  }

  lemma Value53()
    ensures Auxiliary(53, 0x6cc5e8a, 0x8bf025c4, 0xb298cefd) == 0xc41f5a4e
    ensures Turn(0xf4e8e96e, 0x6cc5e8a, 0xc41f5a4e, 0x0, 0x8f0ccc92, 10) == 0x5b0d97aa
    ensures WORDS[Index(53)] == 0x0 && T(53) == 0x8f0ccc92 && Shift(53) == 10
  {
  }

  lemma Value54()
    ensures Auxiliary(54, 0x5b0d97aa, 0x6cc5e8a, 0x8bf025c4) == 0x79c38131
    ensures Turn(0xb298cefd, 0x5b0d97aa, 0x79c38131, 0x0, 0xffeff47d, 15) == 0x7d632dd0
    ensures WORDS[Index(54)] == 0x0 && T(54) == 0xffeff47d && Shift(54) == 15
  {
  }

  lemma Value55()
    ensures Auxiliary(55, 0x7d632dd0, 0x5b0d97aa, 0x6cc5e8a) == 0xa67e3a5f
    ensures Turn(0x8bf025c4, 0x7d632dd0, 0xa67e3a5f, 0x0, 0x85845dd1, 21) == 0x3bfa2c27
    ensures WORDS[Index(55)] == 0x0 && T(55) == 0x85845dd1 && Shift(55) == 21
  {
  }

  lemma Value56()
    ensures Auxiliary(56, 0x3bfa2c27, 0x7d632dd0, 0x5b0d97aa) == 0xc29941a7
    ensures Turn(0x6cc5e8a, 0x3bfa2c27, 0xc29941a7, 0x0, 0x6fa87e4f, 6) == 0x7f81cc35
    ensures WORDS[Index(56)] == 0x0 && T(56) == 0x6fa87e4f && Shift(56) == 6
  {
  }

  lemma Value57()
    ensures Auxiliary(57, 0x7f81cc35, 0x3bfa2c27, 0x7d632dd0) == 0xc467f218
    ensures Turn(0x5b0d97aa, 0x7f81cc35, 0xc467f218, 0x0, 0xfe2ce6e0, 10) == 0x94454ab
    ensures WORDS[Index(57)] == 0x0 && T(57) == 0xfe2ce6e0 && Shift(57) == 10
  {
  }

  lemma Value58()
    ensures Auxiliary(58, 0x94454ab, 0x7f81cc35, 0x3bfa2c27) == 0xb2c41bce
    ensures Turn(0x7d632dd0, 0x94454ab, 0xb2c41bce, 0x0, 0xa3014314, 15) == 0x4f9dbe3f
    ensures WORDS[Index(58)] == 0x0 && T(58) == 0xa3014314 && Shift(58) == 15
  {
  }

  lemma Value59()
    ensures Auxiliary(59, 0x4f9dbe3f, 0x94454ab, 0x7f81cc35) == 0xc6bbeb54
    ensures Turn(0x3bfa2c27, 0x4f9dbe3f, 0xc6bbeb54, 0x0, 0x4e0811a1, 21) == 0x7327d604
    ensures WORDS[Index(59)] == 0x0 && T(59) == 0x4e0811a1 && Shift(59) == 21
  {
  }

  lemma Value60()
    ensures Auxiliary(60, 0x7327d604, 0x4f9dbe3f, 0x94454ab) == 0xb822416b
    ensures Turn(0x7f81cc35, 0x7327d604, 0xb822416b, 0x0, 0xf7537e82, 6) == 0x310ade8f
    ensures WORDS[Index(60)] == 0x0 && T(60) == 0xf7537e82 && Shift(60) == 6
  {
  }

  lemma Value61()
    ensures Auxiliary(61, 0x310ade8f, 0x7327d604, 0x4f9dbe3f) == 0xc24d09cb
    ensures Turn(0x94454ab, 0x310ade8f, 0xc24d09cb, 0x0, 0xbd3af235, 10) == 0x624d8cb2
    ensures WORDS[Index(61)] == 0x0 && T(61) == 0xbd3af235 && Shift(61) == 10
  {
  }

  lemma Value62()
    ensures Auxiliary(62, 0x624d8cb2, 0x310ade8f, 0x7327d604) == 0xdfd77374
    ensures Turn(0x4f9dbe3f, 0x624d8cb2, 0xdfd77374, 0x0, 0x2ad7d2bb, 15) == 0xe484b9d8
    ensures WORDS[Index(62)] == 0x0 && T(62) == 0x2ad7d2bb && Shift(62) == 15
  {
  }

  lemma Value63()
    ensures Auxiliary(63, 0xe484b9d8, 0x624d8cb2, 0x310ade8f) == 0x8cb8354a
    ensures Turn(0x7327d604, 0xe484b9d8, 0x8cb8354a, 0x0, 0xeb86d391, 21) == 0xc08226b3
    ensures WORDS[Index(63)] == 0x0 && T(63) == 0xeb86d391 && Shift(63) == 21
  {
  }

  lemma To16()
    ensures Steps(INIT, WORDS, 16) == Quad(0xdda9b9a6, 0x72aff2e0, 0xe396856b, 0xa1051895)
  {
    hide Steps, Auxiliary, Turn, T, Index, Shift;
    NoSteps(INIT, WORDS);
    Value0();
    StepOf(0, Quad(0x67452301, 0xefcdab89, 0x98badcfe, 0x10325476),
           0x98badcfe, 0x80636261, 0xd76aa478, 7, 0xd6d117b4);
    Value1();
    StepOf(1, Quad(0x10325476, 0xd6d117b4, 0xefcdab89, 0x98badcfe),
           0xceebcbca, 0x0, 0xe8c7b756, 12, 0x344a8432);
    Value2();
    StepOf(2, Quad(0x98badcfe, 0x344a8432, 0xd6d117b4, 0xefcdab89),
           0xdfc52fb9, 0x0, 0x242070db, 17, 0x2f6fbd72);
    Value3();
    StepOf(3, Quad(0xefcdab89, 0x2f6fbd72, 0x344a8432, 0xd6d117b4),
           0xf4da86b6, 0x0, 0xc1bdceee, 22, 0x7ad956f2);
    Value4();
    StepOf(4, Quad(0xd6d117b4, 0x7ad956f2, 0x2f6fbd72, 0x344a8432),
           0x2e4b9472, 0x0, 0xf57c0faf, 7, 0xc73741ef);
    Value5();
    StepOf(5, Quad(0x344a8432, 0xc73741ef, 0x7ad956f2, 0x2f6fbd72),
           0x6a59fcf2, 0x0, 0x4787c62a, 12, 0x8bac3051);
    Value6();
    StepOf(6, Quad(0x2f6fbd72, 0x8bac3051, 0xc73741ef, 0x7ad956f2),
           0xf37546e3, 0x0, 0xa8304613, 17, 0x207dc67b);
    Value7();
    StepOf(7, Quad(0x7ad956f2, 0x207dc67b, 0x8bac3051, 0xc73741ef),
           0xc72e01d5, 0x0, 0xfd469501, 22, 0x928d99f6);
    Value8();
    StepOf(8, Quad(0xc73741ef, 0x928d99f6, 0x207dc67b, 0x8bac3051),
           0x92da073, 0x0, 0x698098d8, 7, 0x854b3712);
    Value9();
    StepOf(9, Quad(0x8bac3051, 0x854b3712, 0x928d99f6, 0x207dc67b),
           0xa03dd17b, 0x0, 0x8b44f7af, 12, 0x74e2f284);
    Value10();
    StepOf(10, Quad(0x207dc67b, 0x74e2f284, 0x854b3712, 0x928d99f6),
           0x864f3b72, 0x0, 0xffff5bb1, 17, 0x3020401c);
    Value11();
    StepOf(11, Quad(0x928d99f6, 0x3020401c, 0x74e2f284, 0x854b3712),
           0xb56b7706, 0x0, 0x895cd7be, 22, 0x5ed49596);
    Value12();
    StepOf(12, Quad(0x854b3712, 0x5ed49596, 0x3020401c, 0x74e2f284),
           0x30226214, 0x0, 0x6b901122, 7, 0xdda9b9a6);
    Value13();
    StepOf(13, Quad(0x74e2f284, 0xdda9b9a6, 0x5ed49596, 0x3020401c),
           0x7c80d19e, 0x0, 0xfd987193, 12, 0xa1051895);
    Value14();
    StepOf(14, Quad(0x3020401c, 0xa1051895, 0xdda9b9a6, 0x5ed49596),
           0xdfd19d86, 0x18, 0xa679438e, 17, 0xe396856b);
    Value15();
    StepOf(15, Quad(0x5ed49596, 0xe396856b, 0xa1051895, 0xdda9b9a6),
           0xbd2d3885, 0x0, 0x49b40821, 22, 0x72aff2e0);
  }

  lemma To32()
    ensures Steps(INIT, WORDS, 32) == Quad(0x790a77fb, 0x726342d3, 0xa62884aa, 0x9f47e4f8)
  {
    hide Steps, Auxiliary, Turn, T, Index, Shift;
    To16();
    Value16();
    StepOf(16, Quad(0xdda9b9a6, 0x72aff2e0, 0xe396856b, 0xa1051895),
           0x629795ea, 0x0, 0xf61e2562, 5, 0x3e9e9126);
    Value17();
    StepOf(17, Quad(0xa1051895, 0x3e9e9126, 0x72aff2e0, 0xe396856b),
           0x32bff3a2, 0x0, 0xc040b340, 9, 0x4a1d804e);
    Value18();
    StepOf(18, Quad(0xe396856b, 0x4a1d804e, 0x3e9e9126, 0x72aff2e0),
           0x4e1d8146, 0x0, 0x265e5a51, 14, 0xe25e1652);
    Value19();
    StepOf(19, Quad(0x72aff2e0, 0xe25e1652, 0x4a1d804e, 0x3e9e9126),
           0x621f104a, 0x80636261, 0xe9b6c7aa, 20, 0xb5b204e4);
    Value20();
    StepOf(20, Quad(0x3e9e9126, 0xb5b204e4, 0xe25e1652, 0x4a1d804e),
           0xa0521654, 0x0, 0xd62f105d, 5, 0x59a8ffda);
    Value21();
    StepOf(21, Quad(0x4a1d804e, 0x59a8ffda, 0xb5b204e4, 0xe25e1652),
           0x55a816f6, 0x0, 0x2441453, 9, 0x6d002f1e);
    Value22();
    StepOf(22, Quad(0xe25e1652, 0x6d002f1e, 0x59a8ffda, 0xb5b204e4),
           0x6d08ff1e, 0x0, 0xd8a1e681, 14, 0xabfc7920);
    Value23();
    StepOf(23, Quad(0xb5b204e4, 0xabfc7920, 0x6d002f1e, 0x59a8ffda),
           0x2da87904, 0x0, 0xe7d3fbc8, 20, 0x47092c07);
    Value24();
    StepOf(24, Quad(0x59a8ffda, 0x47092c07, 0xabfc7920, 0x6d002f1e),
           0xc7fc7c26, 0x0, 0x21e1cde6, 5, 0xb7f268cf);
    Value25();
    StepOf(25, Quad(0x6d002f1e, 0xb7f268cf, 0x47092c07, 0xabfc7920),
           0xe7f16c07, 0x18, 0xc33707d6, 9, 0x9388eff);
    Value26();
    StepOf(26, Quad(0xabfc7920, 0x9388eff, 0xb7f268cf, 0x47092c07),
           0xb1fa4ccf, 0x0, 0xf4d50d87, 14, 0xfe1623b1);
    Value27();
    StepOf(27, Quad(0x47092c07, 0xfe1623b1, 0x9388eff, 0xb7f268cf),
           0xbe1aa6b1, 0x0, 0x455a14ed, 20, 0x786acb8f);
    Value28();
    StepOf(28, Quad(0xb7f268cf, 0x786acb8f, 0xfe1623b1, 0x9388eff),
           0xfe2eab8f, 0x0, 0xa9e3e905, 5, 0x790a77fb);
    Value29();
    StepOf(29, Quad(0x9388eff, 0x790a77fb, 0x786acb8f, 0xfe1623b1),
           0x786aebbf, 0x0, 0xfcefa3f8, 9, 0x9f47e4f8);
    Value30();
    StepOf(30, Quad(0xfe1623b1, 0x9f47e4f8, 0x790a77fb, 0x786acb8f),
           0x1942f4f8, 0x0, 0x676f02d9, 14, 0xa62884aa);
    Value31();
    StepOf(31, Quad(0x786acb8f, 0xa62884aa, 0x9f47e4f8, 0x790a77fb),
           0xa64d84aa, 0x0, 0x8d2a4c8a, 20, 0x726342d3);
  }

  lemma To48()
    ensures Steps(INIT, WORDS, 48) == Quad(0x7f2e507b, 0x7beb9700, 0x8fae6399, 0x99d9679d)
  {
    hide Steps, Auxiliary, Turn, T, Index, Shift;
    To32();
    Value32();
    StepOf(32, Quad(0x790a77fb, 0x726342d3, 0xa62884aa, 0x9f47e4f8),
           0x4b0c2281, 0x0, 0xfffa3942, 4, 0xb3707ebf);
    Value33();
    StepOf(33, Quad(0x9f47e4f8, 0xb3707ebf, 0x726342d3, 0xa62884aa),
           0x673bb8c6, 0x0, 0x8771f681, 11, 0x60127b2e);
    Value34();
    StepOf(34, Quad(0xa62884aa, 0x60127b2e, 0xb3707ebf, 0x726342d3),
           0xa1014742, 0x0, 0x6d9d6122, 16, 0x8d212ff5);
    Value35();
    StepOf(35, Quad(0x726342d3, 0x8d212ff5, 0x60127b2e, 0xb3707ebf),
           0x5e432a64, 0x18, 0xfde5380c, 23, 0x3b0875c7);
    Value36();
    StepOf(36, Quad(0xb3707ebf, 0x3b0875c7, 0x8d212ff5, 0x60127b2e),
           0xd63b211c, 0x0, 0xa4beea44, 4, 0x21b117b9);
    Value37();
    StepOf(37, Quad(0x60127b2e, 0x21b117b9, 0x3b0875c7, 0x8d212ff5),
           0x97984d8b, 0x0, 0x4bdecfa9, 11, 0x6e7429d5);
    Value38();
    StepOf(38, Quad(0x8d212ff5, 0x6e7429d5, 0x21b117b9, 0x3b0875c7),
           0x74cd4bab, 0x0, 0xf6bb4b60, 16, 0x3575227e);
    Value39();
    StepOf(39, Quad(0x3b0875c7, 0x3575227e, 0x6e7429d5, 0x21b117b9),
           0x7ab01c12, 0x0, 0xbebfbc70, 23, 0x5a2f5ea5);
    Value40();
    StepOf(40, Quad(0x21b117b9, 0x5a2f5ea5, 0x3575227e, 0x6e7429d5),
           0x12e550e, 0x0, 0x289b7ec6, 4, 0x11de1779);
    Value41();
    StepOf(41, Quad(0x6e7429d5, 0x11de1779, 0x5a2f5ea5, 0x3575227e),
           0x7e846ba2, 0x80636261, 0xeaa127fa, 11, 0xfadcaa38);
    Value42();
    StepOf(42, Quad(0x3575227e, 0xfadcaa38, 0x11de1779, 0x5a2f5ea5),
           0xb12de3e4, 0x0, 0xd4ef3085, 16, 0x31c465ca);
    Value43();
    StepOf(43, Quad(0x5a2f5ea5, 0x31c465ca, 0xfadcaa38, 0x11de1779),
           0xdac6d88b, 0x0, 0x4881d05, 23, 0x4c6124f4);
    Value44();
    StepOf(44, Quad(0x11de1779, 0x4c6124f4, 0x31c465ca, 0xfadcaa38),
           0x8779eb06, 0x0, 0xd9d4d039, 4, 0x7f2e507b);
    Value45();
    StepOf(45, Quad(0xfadcaa38, 0x7f2e507b, 0x4c6124f4, 0x31c465ca),
           0x28b1145, 0x0, 0xe6db99e5, 11, 0x99d9679d);
    Value46();
    StepOf(46, Quad(0x31c465ca, 0x99d9679d, 0x7f2e507b, 0x4c6124f4),
           0xaa961312, 0x0, 0x1fa27cf8, 16, 0x8fae6399);
    Value47();
    StepOf(47, Quad(0x4c6124f4, 0x8fae6399, 0x99d9679d, 0x7f2e507b),
           0x6959547f, 0x0, 0xc4ac5665, 23, 0x7beb9700);
  }

  lemma To64()
    ensures Steps(INIT, WORDS, 64) == Quad(0x310ade8f, 0xc08226b3, 0xe484b9d8, 0x624d8cb2)
  {
    hide Steps, Auxiliary, Turn, T, Index, Shift;
    To48();
    Value48();
    StepOf(48, Quad(0x7f2e507b, 0x7beb9700, 0x8fae6399, 0x99d9679d),
           0xf041fcfb, 0x80636261, 0xf4292244, 6, 0x7b201df8);
    Value49();
    StepOf(49, Quad(0x99d9679d, 0x7b201df8, 0x7beb9700, 0x8fae6399),
           0x9a0afe, 0x0, 0x432aff97, 10, 0xf4e8e96e);
    Value50();
    StepOf(50, Quad(0x8fae6399, 0xf4e8e96e, 0x7b201df8, 0x7beb9700),
           0x8fdcf407, 0x18, 0xab9423a7, 15, 0xb298cefd);
    Value51();
    StepOf(51, Quad(0x7beb9700, 0xb298cefd, 0xf4e8e96e, 0x7b201df8),
           0x42370791, 0x0, 0xfc93a039, 21, 0x8bf025c4);
    Value52();
    StepOf(52, Quad(0x7b201df8, 0x8bf025c4, 0xb298cefd, 0xf4e8e96e),
           0x396ff928, 0x0, 0x655b59c3, 6, 0x6cc5e8a);
    Value53();
    StepOf(53, Quad(0xf4e8e96e, 0x6cc5e8a, 0x8bf025c4, 0xb298cefd),
           0xc41f5a4e, 0x0, 0x8f0ccc92, 10, 0x5b0d97aa);
    Value54();
    StepOf(54, Quad(0xb298cefd, 0x5b0d97aa, 0x6cc5e8a, 0x8bf025c4),
           0x79c38131, 0x0, 0xffeff47d, 15, 0x7d632dd0);
    Value55();
    StepOf(55, Quad(0x8bf025c4, 0x7d632dd0, 0x5b0d97aa, 0x6cc5e8a),
           0xa67e3a5f, 0x0, 0x85845dd1, 21, 0x3bfa2c27);
    Value56();
    StepOf(56, Quad(0x6cc5e8a, 0x3bfa2c27, 0x7d632dd0, 0x5b0d97aa),
           0xc29941a7, 0x0, 0x6fa87e4f, 6, 0x7f81cc35);
    Value57();
    StepOf(57, Quad(0x5b0d97aa, 0x7f81cc35, 0x3bfa2c27, 0x7d632dd0),
           0xc467f218, 0x0, 0xfe2ce6e0, 10, 0x94454ab);
    Value58();
    StepOf(58, Quad(0x7d632dd0, 0x94454ab, 0x7f81cc35, 0x3bfa2c27),
           0xb2c41bce, 0x0, 0xa3014314, 15, 0x4f9dbe3f);
    Value59();
    StepOf(59, Quad(0x3bfa2c27, 0x4f9dbe3f, 0x94454ab, 0x7f81cc35),
           0xc6bbeb54, 0x0, 0x4e0811a1, 21, 0x7327d604);
    Value60();
    StepOf(60, Quad(0x7f81cc35, 0x7327d604, 0x4f9dbe3f, 0x94454ab),
           0xb822416b, 0x0, 0xf7537e82, 6, 0x310ade8f);
    Value61();
    StepOf(61, Quad(0x94454ab, 0x310ade8f, 0x7327d604, 0x4f9dbe3f),
           0xc24d09cb, 0x0, 0xbd3af235, 10, 0x624d8cb2);
    Value62();
    StepOf(62, Quad(0x4f9dbe3f, 0x624d8cb2, 0x310ade8f, 0x7327d604),
           0xdfd77374, 0x0, 0x2ad7d2bb, 15, 0xe484b9d8);
    Value63();
    StepOf(63, Quad(0x7327d604, 0xe484b9d8, 0x624d8cb2, 0x310ade8f),
           0x8cb8354a, 0x0, 0xeb86d391, 21, 0xc08226b3);
  }

  lemma PaddedAbc()
    ensures |Padded(ABC)| == 64 && Decoded(Padded(ABC)) == WORDS
  {
    hide WordAt;
    var p := Padded(ABC);
    LengthOfAbc();
    assert ZeroCount(3) == 52;
    assert p == [0x61, 0x62, 0x63, 0x80] + Zeros(52) + [24, 0, 0, 0, 0, 0, 0, 0];
    WordOf(p, 0, 0x61, 0x62, 0x63, 0x80);
    forall i | 0 < i < 16 && i != 14
      ensures WordAt(p, 4 * i) == 0
    {
      WordOf(p, 4 * i, 0, 0, 0, 0);
    }
    WordOf(p, 56, 24, 0, 0, 0);
  }

  lemma WordOf(p: bytes, i: nat, b0: byte, b1: byte, b2: byte, b3: byte)
    requires i + 4 <= |p| && p[i] == b0 && p[i + 1] == b1 && p[i + 2] == b2 && p[i + 3] == b3
    ensures WordAt(p, i) == b0 + 0x100 * b1 + 0x1_0000 * b2 + 0x100_0000 * b3
  {
  }

  lemma LengthOfAbc()
    ensures LengthBytes(3) == [24, 0, 0, 0, 0, 0, 0, 0]
  {
    assert [24, 0][..1] == [24] && [24][..0] == [];
    assert Encoded([24]) == WordBytes(24) == [24, 0, 0, 0];
    assert WordBytes(0) == [0, 0, 0, 0];
  }

  /** The bytes of MD5 ("abc") = 900150983cd24fb0d6963f7d28e17f72. */
  lemma DigestOfAbc()
    ensures Digest(ABC)
         == [0x90, 0x01, 0x50, 0x98, 0x3c, 0xd2, 0x4f, 0xb0, 0xd6, 0x96, 0x3f, 0x7d, 0x28, 0xe1, 0x7f, 0x72]
  {
    hide Steps, Decoded, Padded, Fold, Encoded;
    PaddedAbc();
    var p := Padded(ABC);
    FoldOnce(p);
    To64();
    FourWords(0x98500190, 0xb04fd23c, 0x7d3f96d6, 0x727fe128);
    assert WordBytes(0x98500190) == [0x90, 0x1, 0x50, 0x98];
    assert WordBytes(0xb04fd23c) == [0x3c, 0xd2, 0x4f, 0xb0];
    assert WordBytes(0x7d3f96d6) == [0xd6, 0x96, 0x3f, 0x7d];
    assert WordBytes(0x727fe128) == [0x28, 0xe1, 0x7f, 0x72];
  }

  lemma FoldOnce(p: bytes)
    requires |p| == 64
    ensures Fold(p) == Compress(INIT, p)
  {
    assert p[..0] == [] && p[0..] == p;
  }

  lemma FourWords(a: word, b: word, c: word, d: word)
    ensures Encoded([a, b, c, d]) == WordBytes(a) + WordBytes(b) + WordBytes(c) + WordBytes(d)
  {
    assert [a, b, c, d][..3] == [a, b, c] && [a, b, c][..2] == [a, b] && [a, b][..1] == [a] && [a][..0] == [];
    assert Encoded([a]) == WordBytes(a);
    assert Encoded([a, b]) == WordBytes(a) + WordBytes(b);
    assert Encoded([a, b, c]) == WordBytes(a) + WordBytes(b) + WordBytes(c);
  }
}
