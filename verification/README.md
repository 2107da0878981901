# Verification model of the stp communication library

This Dafny 4.11 project models the self-contained computations of the library and proves what they
promise: the AES block cipher, the sealing of messages, base64, incremental MD5, the framing of
messages on a connection, and the JSON reader, writer and value order.

`dafny verify dfyconfig.toml` checks all of it.

## Layout

- `Wrappers.dfy`, `Slices.dfy`, `ByteOrder.dfy`: what may be absent; slices of slices; byte strings
  and 32-bit numbers in network byte order.
- `AesTables.dfy`, `AesSBox.dfy`, `AesSpec.dfy`, `AesWords.dfy`, `AesKeySchedule.dfy`, `AesCore.dfy`:
  the literal look-up tables; the S-box of FIPS 197 section 5.1.1 from inverses in GF(2^8); the
  byte-level cipher of sections 5.1, 5.3 and 5.3.5; what one fused word computes; the three key
  expansion loops, and the schedule byte by byte; the decryption schedule and the block loops.
- `AesBytes.dfy`: the cipher once more, on arrays of sixteen bytes by index.
- `Base64.dfy`, `StpCrypto.dfy`: base64 and the sealing pipeline over it.
- `Md5Transform.dfy`, `Md5.dfy`: the compression function written with macros against the loop of
  RFC 1321 section 3.4, and the streaming context against the one-shot definition.
- `Md5Bits.dfy`, `Md5Known.dfy`: what the operations do to every bit, and the digest of "abc", which no
  wrong entry of the tables would give.
- `Connection.dfy`: frames, the connection object, and runs of a sender, a stream and a receiver.
- `JsonNumber.dfy`, `JsonString.dfy`, `JsonUnicode.dfy`, `JsonCharacters.dfy`: numbers, strings, what
  the `\u` escapes mean by RFC 2781 and RFC 3629, and which characters mean what, written out.
- `JsonKeys.dfy`, `JsonValue.dfy`, `JsonOrder.dfy`, `JsonArray.dfy`: keys, values, the recursive order
  on values, and array values on their index map.
- `JsonSyntax.dfy`, `JsonTokens.dfy`, `JsonReader.dfy`: what the reader makes of a text, its tokens
  written out, and the reader object that does it in place.
- `JsonStrict.dfy`, `JsonLenient.dfy`: a strict reader beside it, exactly which texts only the lenient
  one takes, and one text for each kind.
- `JsonWriter.dfy`, `JsonCompact.dfy`, `JsonRoundTrip.dfy`, `JsonMeaning.dfy`, `JsonSpacing.dfy`,
  `JsonStream.dfy`: the writer object, its text without gaps, the round trip between writer and reader,
  what comes back said without the reader, the same for texts laid out otherwise, and the round trip
  through a file.
- `JsonMembers.dfy`, `JsonRewrite.dfy`: setting members of an object, and what every tree that is read
  is like, which makes it one that can be written and read again.

Objects whose methods change fields are classes, loops are loops with invariants, and buffers are
arrays. Each such method is proved against a function of its inputs or of the old state, and the
properties are proved about that function. Bytes are `bv8` where the code works on bits, `char` in
the JSON part, and numbers below 256 in the MD5 part.

## What the proofs found

- `InitStpCrypto` checks its argument but never sets the mode. A fresh session therefore refuses
  every text with -1, and the round trip is stated for a session whose mode has been set
  (`stpcrypto/stp_crypto.cc:41-58`).
- `EncryptPlain` keeps the base64 length in 32 bits. What it hands out opens to the original exactly
  for texts of at most 3221225452 bytes (`StpCrypto.RoundTripExactly`).
- `MD5_Update` compares `i + 63 < len` in 32 bits. The comparison is the exact one at every place the
  loop can reach exactly when the bytes waiting in the buffer and the new ones together are fewer than
  2^32 (`Md5.GuardIsExact`). A message given in one call, as `MD5_Calculate` does, is always right.
- A frame comes back exactly when its body is shorter than 2^32 bytes (`Connection.FrameRoundTrip`).
- The JSON reader gives a written tree back exactly when it is nested at most 1000 deep, and throws
  otherwise. `JsonParser` reads its file up to the byte 0xFF, which is what `(char)EOF` is, so from a
  file the tree comes back exactly when it also holds that byte in no string or key. No escape sequence
  decodes to that byte, so a text cut short can never give such a tree (`JsonStream.StreamRoundTrip`).
- A lone minus sign is read as the integer 0; behind a comment, any token but the closing brace passes
  for the comma between two members; an object may end with a comma behind a member whose name is
  empty (`JsonLenient.LoneMinus`, `ColonForComma`, `CommaEndsObject`). Beside a reader that needs a
  digit, a comma between members and a name behind a comma, these are all there is: the strict reader
  takes a text, and reads the same from it, exactly when the lenient one takes it and the text has no
  lapse. Whether it has one is read off its tokens with a stack of the open brackets, before any value
  is built (`JsonStrict.StrictExactly`, `HasLapse`).
- A high surrogate escape joins with whatever escape follows it. What is decoded is the code point that
  the units stand for exactly when the first is no low surrogate and the one behind a high one is
  (`JsonUnicode.DecodesUnitsExactly`, `UnpairedIsJoined`). `codePointToUTF8` writes surrogates too, so
  its bytes are read back by RFC 3629 exactly for scalar values (`JsonUnicode.Utf8ReadsBack`).
- `resize` asked to grow a dense array by more than one leaves a hole (`JsonArray.ResizeDense`). When it
  does not grow the array, the size it asserts at its end is right exactly when the slot that becomes
  the last one holds something (`JsonArray.ResizeKeepsSize`, `ResizeLosesSize`).

## Model

| member | source | states |
|---|---|---|
| AesTables.SBoxInverse | stputil/security/aes_core.c:589-622 | the S-box inside the Te tables and the literal inverse S-box Td4 undo each other on every byte |
| AesTables.InvSBoxInverse | stputil/security/aes_core.c:589-622 | the same the other way round, so both are bijections |
| AesTables.TeTablesMatch | stputil/security/aes_core.c:47-324 | every entry of the four literal encryption tables is the S-box value times 2, 1, 1, 3 in GF(2^8), rotated |
| AesTables.TdTablesMatch | stputil/security/aes_core.c:47-622 | every entry of the four literal decryption tables is the inverse S-box value times 14, 9, 13, 11, rotated |
| AesSBox.SBoxIsAffineOfInverse | stputil/security/aes_core.c:1168-1201 | the literal S-box takes a byte to the affine map of its inverse in GF(2^8), and to that of no other byte |
| AesSBox.InverseExists | stputil/security/aes_core.c:1168-1201 | every byte but 0 has exactly one inverse |
| AesSpec.MixColumnInverse | stputil/security/aes_core.c:47-58 | InvMixColumns undoes MixColumns on every column |
| AesSpec.InvMixColumnLinear | stputil/security/aes_core.c:756-779 | InvMixColumns distributes over the addition of a round key |
| AesSpec.InvRoundsUndo | stputil/security/aes_core.c:787-1164 | by induction over the rounds, each inverse round undoes its round, for any key schedule and any number of rounds |
| AesSpec.InvCipherUndoesCipher | stputil/security/aes_core.c:787-1164 | the inverse cipher undoes the cipher |
| AesSpec.EqInvRoundsMatch | stputil/security/aes_core.c:978-1164 | round by round, the equivalent inverse cipher holds the state of the inverse cipher after one more InvMixColumns |
| AesSpec.EqInvCipherIsInvCipher | stputil/security/aes_core.c:978-1164 | the equivalent inverse cipher, under a decryption schedule, is the inverse cipher |
| AesWords.EncWordColumn | stputil/security/aes_core.c:878-930 | four look-ups and a key word are SubBytes, ShiftRows, MixColumns and AddRoundKey on one column |
| AesWords.DecWordColumn | stputil/security/aes_core.c:1070-1125 | the same for the inverse round |
| AesWords.EncLastWordColumn | stputil/security/aes_core.c:940-972 | the masked look-ups of the last round leave MixColumns out |
| AesWords.DecLastWordColumn | stputil/security/aes_core.c:1132-1164 | the same for the last inverse round |
| AesWords.PackedMatchesTables | stputil/security/aes_core.c:1333-1356 | doubling four packed bytes at once gives InvMixColumns of a word, the same word as the look-ups |
| AesWords.PackedFormsAgree | stputil/security/aes_core.c:1354-1361 | the packed word is the same with rotations and with shifts |
| AesKeySchedule.RconMatches | stputil/security/aes_core.c:623-627 | the literal round constants are the powers of x in GF(2^8) |
| AesKeySchedule.GroupWordIsKeyWord | stputil/security/aes_core.c:660-670 | the fused first word of a group satisfies the recurrence of FIPS 197 section 5.2 |
| AesKeySchedule.ScheduleByBytes | stputil/security/aes_core.c:632-729 | for every key, byte j of word i is byte 4i + j of the key, and each later byte is the one a group back with the S-box, the round constant or the plain byte before it added |
| AesKeySchedule.Expand128 | stputil/security/aes_core.c:658-675 | the loop that advances rk by four writes exactly the 44 words of the recurrence and leaves the rest of rd_key alone |
| AesKeySchedule.Expand192 | stputil/security/aes_core.c:678-697 | the loop that stops inside its last group writes exactly 52 words |
| AesKeySchedule.Expand256 | stputil/security/aes_core.c:700-727 | the loop with the extra substitution at word four writes exactly 60 words |
| AesKeySchedule.SetEncryptKey | stputil/security/aes_core.c:632-729 | error codes for null pointers and other key lengths; otherwise the rounds and exactly 4 * (rounds + 1) words, which begin with the bytes of the key and recur byte by byte as in FIPS 197 section 5.2 |
| AesCore.ReverseRoundKeys | stputil/security/aes_core.c:749-755 | the swapping loop reverses the order of the round keys in place |
| AesCore.InvMixRoundKeys | stputil/security/aes_core.c:756-779 | the second loop applies InvMixColumns to all round keys but the first and the last |
| AesCore.DecryptScheduleIsOne | stputil/security/aes_core.c:734-781 | the result is the decryption schedule of FIPS 197 section 5.3.5 |
| AesCore.SetDecryptKey | stputil/security/aes_core.c:734-781 | the whole function: the status of the encryption schedule, or the decryption schedule of the key |
| AesCore.EncryptWords | stputil/security/aes_core.c:797-806 | the loop of two rounds an iteration computes the byte-level cipher for 10, 12 and 14 rounds |
| AesCore.EncryptUnrolled | stputil/security/aes_core.c:807-877 | the written-out rounds compute the same words |
| AesCore.Encrypt | stputil/security/aes_core.c:787-972 | the 16 bytes written are the cipher of the 16 bytes read, also where the buffers are one or overlap; nothing else is written |
| AesBytes.EncryptsByBytes | stputil/security/aes_core.c:787-972 | the block written is that of the cipher on sixteen bytes by index: substituted, moved and mixed with coefficients 2, 3, 1, 1, key bytes added |
| AesCore.DecryptWords | stputil/security/aes_core.c:1070-1130 | the decryption loop computes the equivalent inverse cipher |
| AesCore.DecryptUnrolled | stputil/security/aes_core.c:999-1069 | the written-out rounds compute the same words |
| AesCore.Decrypt | stputil/security/aes_core.c:978-1164 | as for Encrypt |
| AesCore.DecryptUndoesEncrypt | stputil/security/aes_core.c:632-1164 | for every key of 128, 192 or 256 bits and every block, decryption undoes encryption |
| ByteOrder.U32RoundTrip | stpcrypto/stp_crypto.cc:22-34 | ReadUint32 of WriteUint32 is the number |
| ByteOrder.BytesInOrder | stpcrypto/stp_crypto.cc:22-34 | smaller numbers have smaller bytes where they first differ, so the most significant byte comes first |
| Base64.PaddingOnlyAtEnd | stputil/security/base64.cpp:26-59 | `=` stands only in the tail: two after one spare byte, one after two, none otherwise |
| Base64.EncodeString | stputil/security/base64.cpp:26-59 | the loop over the never-masked 32-bit accumulator writes the encoding, in bounds, of length 4 * ceil(n / 3) |
| Base64.DecodeString | stputil/security/base64.cpp:61-85 | the decoding loop returns the packed sextets of what counts, or nothing when a character is not allowed |
| Base64.DecodeEncode | stputil/security/base64.cpp:26-85 | decoding an encoding gives the byte string back |
| Base64.SkippedAnywhere | stputil/security/base64.cpp:70-73 | a character that the decoder skips, inserted anywhere, does not change the result |
| Base64.RejectedAnywhere | stputil/security/base64.cpp:74-76 | a character that is not allowed, anywhere, empties the result |
| Base64.FillerSkipped | stputil/security/base64.cpp:70-73 | blank, tab, line feed, vertical tab, form feed, carriage return and `=`, inserted anywhere, do not change the result |
| Base64.ForeignRejected | stputil/security/base64.cpp:74-76 | every other character outside A-Z, a-z, 0-9, + and / empties the result |
| Base64.LetterValue | stputil/security/base64.cpp:61-85 | a letter stands for its place in the alphabet of RFC 4648 |
| Base64.DecodedBits | stputil/security/base64.cpp:61-85 | the decoded bytes are the 24 bits of their four values, eight at a time from the top, in a short last group too |
| Base64.GroupBits | stputil/security/base64.cpp:26-59 | the four values of a group are the 24 bits of its three bytes, six at a time from the top |
| Base64.EncodeFoobar | stputil/security/base64.cpp:26-59 | the encoding of "foobar" that RFC 4648 gives |
| Base64.DecodedSize | stputil/security/base64.cpp:61-85 | three bytes for every four letters, or nothing when some character is foreign |
| StpCrypto.EncryptLenIsLeast | stpcrypto/stp_crypto.cc:83-89 | the padded length is the least multiple of 16 with room for the trailer exactly for lengths up to 2^32 - 20 |
| StpCrypto.BlocksRoundTrip | stpcrypto/stp_crypto.cc:101-103 | decrypting block by block undoes encrypting block by block |
| StpCrypto.EncryptedAt | stpcrypto/stp_crypto.cc:101-103 | every block is enciphered by itself and stays in its place |
| StpCrypto.DecryptedAt | stpcrypto/stp_crypto.cc:151-153 | and so is it deciphered |
| StpCrypto.OpenSeal | stpcrypto/stp_crypto.cc:62-166 | opening a sealed message gives the text back for every text and key |
| StpCrypto.PaddedAt | stpcrypto/stp_crypto.cc:91-95 | the padded text is the text, zeros, and the length in its last four bytes |
| StpCrypto.FailsExactly | stpcrypto/stp_crypto.cc:119-162 | which of the codes -1 to -4 a text meets, by its letters, its foreign characters and its trailer |
| StpCrypto.RoundTripExactly | stpcrypto/stp_crypto.cc:109-113 | with the length cut to 32 bits, that holds exactly up to 3221225452 bytes |
| StpCrypto.Session.Init | stpcrypto/stp_crypto.cc:43-58 | InitStpCrypto accepts 0 and 1 and never changes the mode |
| StpCrypto.Session.EncryptPlain | stpcrypto/stp_crypto.cc:62-116 | refusals, and otherwise the sealed text cut to its 32-bit length, with a terminator behind it |
| StpCrypto.DecryptCipher | stpcrypto/stp_crypto.cc:119-166 | on every input: the codes -1 to -4, or the opened text, the terminator inside the buffer of nLen + 1 bytes |
| Md5Transform.MacroIsTurn | stputil/security/md5.cpp:37-61 | a macro's sums, each cut to 32 bits, make the operation of RFC 1321 section 3.4 |
| Md5Transform.MacroStep | stputil/security/md5.cpp:88-154 | one macro call with its arguments rotated is one step of the loop over T[i] |
| Md5Bits.FChooses | stputil/security/md5.cpp:33 | every bit of F is that of y where x has the bit and of z elsewhere |
| Md5Bits.GChooses | stputil/security/md5.cpp:34 | every bit of G is that of x where z has the bit and of y elsewhere |
| Md5Bits.HIsParity | stputil/security/md5.cpp:35 | H has a bit where an odd number of the three have it |
| Md5Bits.ITurns | stputil/security/md5.cpp:36 | I has the bit of y, turned where x has it or z has not |
| Md5Bits.RotationMoves | stputil/security/md5.cpp:37 | a rotation by n moves every bit up by n places, around the end |
| Md5Bits.StartBytes | stputil/security/md5.cpp:162-168 | the words it starts from are the bytes 01 23 45 67 89 ab cd ef and back down |
| Md5Known.DigestOfAbc | stputil/security/md5.cpp:84-203 | the digest of "abc" is the one RFC 1321 gives |
| Md5Transform.WordRoundTrip | stputil/security/md5.cpp:62-82 | a word is read back from its four little-endian bytes |
| Md5Transform.Transform | stputil/security/md5.cpp:84-160 | the 64 written-out calls compute the compression of the state in place |
| Md5.AddCountIsExact | stputil/security/md5.cpp:174-176 | the two-word count with its manual carry stays 8 times the length modulo 2^64 |
| Md5.IndexIsRemainder | stputil/security/md5.cpp:173 | the index computed from the count is the number of bytes waiting |
| Md5.GuardIsExact | stputil/security/md5.cpp:178-183 | the loop guard decides as exact arithmetic does, wherever the loop comes, exactly when index + len is below 2^32 |
| Md5.Context.Update | stputil/security/md5.cpp:170-191 | what has been fed grows by the bytes given, whatever the state of the buffer |
| Md5.Context.Final | stputil/security/md5.cpp:192-203 | the digest is that of everything fed, padded as in RFC 1321 sections 3.1 and 3.2; the context is wiped |
| Md5.PaddedInTwo | stputil/security/md5.cpp:194-200 | the two last updates complete the padded message: 56 modulo 64, then the length |
| Md5.SplitInvariant | stputil/security/md5.cpp:170-191 | two contexts fed the same bytes in any split have the same state, count and live buffer |
| Md5.HexReadsBack | stputil/security/md5.cpp:205-218 | each byte of the digest can be read back from the printed digits |
| Md5.HexDigitIs | stputil/security/md5.cpp:205-218 | the digits are 0 to 9 and a to f |
| Md5.Calculate | stputil/security/md5.cpp:205-218 | the printed digits of the digest of the content, for every length |
| Connection.FrameRoundTrip | stputil/connection.cc:79-131 | a frame in front of anything is taken apart again exactly when its body is below 2^32 bytes |
| Connection.FrameAt | stputil/connection.cc:119-131 | byte by byte: the version, a zero, the length with its highest byte first, the body |
| Connection.Conn.RecvNetMessage | stputil/connection.cc:79-117 | the chunk loop moves one whole frame's body to the list, or nothing changes |
| Connection.Conn.SendNetMessage | stputil/connection.cc:119-131 | the write buffer grows by one frame |
| Connection.Conn.GetNetMessage | stputil/connection.cc:133-144 | the oldest body leaves the list |
| Connection.ReadTakesNext | stputil/connection.cc:18-24 | a read event takes a body exactly when the next one sent has arrived in full, and then it is that one |
| Connection.RunConserves | stputil/connection.cc:79-144 | in every run of sends, deliveries of any size, read events and pops, the bodies out are the first ones sent, in order, and the stream holds the frames of the others |
| Connection.StreamReassembled | stputil/connection.cc:79-144 | re-framing the bodies out, followed by the bytes unread and in flight, is the sent stream |
| Connection.ReadsDrain | stputil/connection.cc:18-24 | with everything delivered, n read events take exactly n bodies, or all there are |
| JsonNumber.UintToString | stputil/json/jsoncpp.cc:170-175 | the digits are written backwards, in place, within the buffer, and nothing else is touched |
| JsonNumber.ValueToString | stputil/json/jsoncpp.cc:4171-4193 | the decimal text of every 64-bit value, within the buffer, the least one included |
| JsonNumber.ThresholdIsExact | stputil/json/jsoncpp.cc:805-815 | the test before a digit is added gives up only on values that are too large, and never lets one overflow |
| JsonNumber.ReadInteger | stputil/json/jsoncpp.cc:786-826 | a token is an integer, of exactly its value, if and only if it is digits with an optional minus and lies in [-2^63, 2^64 - 1] |
| JsonNumber.NumberRoundTrip | stputil/json/jsoncpp.cc:786-826 | decodeNumber of valueToString is the identity on every signed and unsigned 64-bit value |
| JsonMeaning.NumberComesBack | stputil/json/jsoncpp.cc:786-826 | every number from -2^63 to 2^64 - 1 is read back as itself, as an int below 2^31 and as a uint from there on |
| JsonMeaning.LargerIsNoInteger | stputil/json/jsoncpp.cc:786-826 | digits are an integer exactly up to 2^64 - 1, and with a minus exactly down to -2^63 |
| JsonCharacters.DigitIs | stputil/json/jsoncpp.cc:170-175 | the digits are 0 to 9 in this order |
| JsonCharacters.NoLeadingZero | stputil/json/jsoncpp.cc:170-175 | no number but zero is written with a leading zero |
| JsonCharacters.PlaceValue | stputil/json/jsoncpp.cc:800-820 | what stands before a group of digits counts ten times for each of them |
| JsonString.ValueToQuotedString | stputil/json/jsoncpp.cc:4320-4381 | the quoting loop, with its short cut for plain strings, writes the quoted string |
| JsonCharacters.EscapedIs | stputil/json/jsoncpp.cc:4334-4377 | which characters are written as a short escape, which as \u00XX, and that all others stay |
| JsonString.DecodeString | stputil/json/jsoncpp.cc:861-912 | the decoding loop stays inside the token and computes the decoded string or fails |
| JsonCharacters.SimpleEscapeIs | stputil/json/jsoncpp.cc:872-898 | what each of the eight short escapes is read as, and that no other is read |
| JsonTokens.DecodeJoins | stputil/json/jsoncpp.cc:861-912 | the parts of a string decode one after the other, and it decodes to nothing if one of them does |
| JsonTokens.OneDecodes | stputil/json/jsoncpp.cc:861-912 | a short escape decodes to its character, and any character but a backslash and a quote to itself |
| JsonTokens.BadEscape | stputil/json/jsoncpp.cc:861-912 | a backslash with nothing or any other letter behind it is an error |
| JsonCharacters.HexValueIs | stputil/json/jsoncpp.cc:943-970 | the hexadecimal digits of either case |
| JsonCharacters.OnlyHexHasValue | stputil/json/jsoncpp.cc:943-970 | no other character is one |
| JsonString.DecodeUnicodeCodePoint | stputil/json/jsoncpp.cc:914-941 | on every text, the code point and length of an escape or a pair of them, or failure, inside the token; what code point that is, the next three rows say |
| JsonUnicode.ScalarDecodes | stputil/json/jsoncpp.cc:914-941 | every scalar value is decoded from its escape or surrogate pair, in digits of either case |
| JsonUnicode.DecodesUnitsExactly | stputil/json/jsoncpp.cc:914-941 | what is decoded is what the units stand for in UTF-16 if and only if the first is no low surrogate and one behind a high surrogate is low |
| JsonUnicode.UnpairedIsJoined | stputil/json/jsoncpp.cc:914-941 | a high surrogate and a letter give a code point that they do not stand for |
| JsonUnicode.Utf8ReadsBack | stputil/json/jsoncpp.cc:125-151 | the bytes read back as the code point, for every one up to 0x10FFFF, and they are UTF-8 if and only if it is no surrogate |
| JsonUnicode.OnlyWrittenIsRead | stputil/json/jsoncpp.cc:125-151 | bytes that are read as one code point up to 0x10FFFF are the ones written for it |
| JsonUnicode.EscapeMeansScalar | stputil/json/jsoncpp.cc:861-912 | a string that is the escape of a scalar value decodes to bytes that read back to the value |
| JsonString.DecodeUnicodeEscapeSequence | stputil/json/jsoncpp.cc:943-970 | the value of four hexadecimal digits, or failure |
| JsonString.DecodeEscaped | stputil/json/jsoncpp.cc:861-912 | decoding a quoted string gives the original characters, whatever they are |
| JsonString.ScanQuoted | stputil/json/jsoncpp.cc:670-680 | the scanner takes exactly the quoted string, whatever follows |
| JsonKeys.CZStringLessIsKeyLess | stputil/json/jsoncpp.cc:2754-2766 | comparing by memcmp and then length is the lexicographic order |
| JsonKeys.KeyLessExactly | stputil/json/jsoncpp.cc:2754-2766 | a key is before another exactly when it is a proper beginning of it or has the smaller character where they first differ |
| JsonOrder.EqualIsIdentity | stputil/json/jsoncpp.cc:3049-3088 | operator== holds of equal trees only, arrays with holes included |
| JsonOrder.Trichotomy | stputil/json/jsoncpp.cc:2996-3088 | of a < b, b < a and a == b exactly one holds, for all trees without reals and with containers below 2^31 entries, arrays with holes included |
| JsonOrder.Transitive | stputil/json/jsoncpp.cc:2996-3041 | operator< is transitive, through maps, entries and keys |
| JsonOrder.ScalarsLess | stputil/json/jsoncpp.cc:2996-3030 | numbers by size, false before true, strings as keys, and the kinds in the order of their types |
| JsonOrder.ContainersLess | stputil/json/jsoncpp.cc:3031-3037 | of two arrays the shorter is less, and of as long ones that with the lesser entry where they first differ |
| JsonOrder.ObjectsLess | stputil/json/jsoncpp.cc:3031-3037 | the same for objects |
| JsonOrder.EntriesByKey | stputil/json/jsoncpp.cc:2754-2766 | entries by their keys, indices as numbers and names as keys, and under one key by their values |
| JsonSyntax.ReadToken | stputil/json/jsoncpp.cc:477-546 | every token lies inside the text, and every one but the end of the stream is not empty |
| JsonCharacters.SpaceIs | stputil/json/jsoncpp.cc:548-556 | blank, tab, carriage return and line feed are skipped before a token, and no other character is |
| JsonCharacters.BlockCommentSkipped | stputil/json/jsoncpp.cc:623-630 | a comment from slash-star to the first star-slash is skipped |
| JsonCharacters.LineCommentSkipped | stputil/json/jsoncpp.cc:632-646 | a comment from two slashes is skipped with its line, however that ends |
| JsonCharacters.RecoveryStops | stputil/json/jsoncpp.cc:982-993 | recovery goes to the end of the first token of the kind wanted, or of the stream |
| JsonCharacters.KeyKept | stputil/json/jsoncpp.cc:2713-2718 | a key keeps its characters as far as thirty bits count them |
| JsonTokens.NumberScanned | stputil/json/jsoncpp.cc:648-668 | a number is a digit or a minus with digits, a fraction and an exponent, as far as they go |
| JsonTokens.StringScanned | stputil/json/jsoncpp.cc:670-680 | a string ends with the first quote that no backslash takes |
| JsonTokens.StringUnfinished | stputil/json/jsoncpp.cc:670-680 | without such a quote it is an error that takes all the text |
| JsonTokens.CommentUnfinished | stputil/json/jsoncpp.cc:569-630 | so is a comment without its end, and a slash before any other character is an error |
| JsonTokens.WordScanned | stputil/json/jsoncpp.cc:558-567 | a small letter begins a token only as true, false or null, which is taken whole |
| JsonTokens.MarkScanned | stputil/json/jsoncpp.cc:477-546 | each of the six marks is a token of its own |
| JsonTokens.OtherScanned | stputil/json/jsoncpp.cc:477-546 | a NUL ends the stream and any other character is an error by itself |
| JsonSyntax.ReadValue | stputil/json/jsoncpp.cc:383-465 | on every text the reader stops inside it, with one error on failure and none on success, recovery included |
| JsonReader.Reader.ReadToken | stputil/json/jsoncpp.cc:477-546 | the method takes that token and stands behind it |
| JsonReader.Reader.RecoverFromError | stputil/json/jsoncpp.cc:982-993 | the loop skips up to the token wanted or the end, and stops |
| JsonReader.Reader.ReadValue | stputil/json/jsoncpp.cc:383-465 | position, errors, current value and exception are those of the outcome; the nodes below are untouched and the depth count is back, or one higher after an error |
| JsonReader.Reader.ReadObject | stputil/json/jsoncpp.cc:682-736 | the same for the members of an object |
| JsonMembers.PutLaw | stputil/json/jsoncpp.cc:714 | setting a member keeps the key order, replaces what had the name, and leaves all other members as they were |
| JsonMembers.LookupPut | stputil/json/jsoncpp.cc:714 | looking a name up afterwards gives the new value under its name and what was there under any other |
| JsonMembers.NamesPut | stputil/json/jsoncpp.cc:714 | the names afterwards are the old ones and the new one |
| JsonRewrite.ReadMade | stputil/json/jsoncpp.cc:383-465 | whatever the text, a tree that is read has its members in key order, one under each name, its numbers tagged by size, and is nested at most 1000 deep |
| JsonReader.Reader.ReadArray | stputil/json/jsoncpp.cc:738-774 | the same for the elements of an array |
| JsonReader.Reader.Parse | stputil/json/jsoncpp.cc:341-381 | a parse does not depend on what the reader did before, ends with one node on the stack, and on success with the depth count at zero and no errors |
| JsonStrict.ValueAgrees | stputil/json/jsoncpp.cc:383-465 | what the strict reader takes, the reader takes alike, and it throws where the strict one finds the text too deep |
| JsonStrict.StrictExactly | stputil/json/jsoncpp.cc:682-826 | the strict reader takes a text if and only if the reader does and the text has no lapse |
| JsonLenient.LoneMinus | stputil/json/jsoncpp.cc:786-826 | a minus alone is read as zero, and not by the strict reader |
| JsonLenient.CommaEndsObject | stputil/json/jsoncpp.cc:694-697 | a comma may end an object behind a member whose name is empty |
| JsonLenient.ColonForComma | stputil/json/jsoncpp.cc:720-732 | behind a comment, a colon may stand for the comma between two members |
| JsonWriter.LookupSorted | stputil/json/jsoncpp.cc:4445-4456 | fetching a member by a name found among the members gives that member's value |
| JsonWriter.FastWriter.Write | stputil/json/jsoncpp.cc:4400-4406 | the document is the text of the tree and the line feed, unless that is left out |
| JsonWriter.FastWriter.WriteValue | stputil/json/jsoncpp.cc:4408-4460 | the document grows by the text of the value |
| JsonCompact.WrittenPacked | stputil/json/jsoncpp.cc:4408-4460 | in the text that is written every token stands right behind the one before it |
| JsonRoundTrip.ReadsBack | stputil/json/jsoncpp.cc:383-465 | the text of a value, before anything that cannot go on a number, is read in full at any depth, by the strict reader too, or found too deep exactly when it is |
| JsonRoundTrip.RoundTrip | stputil/json/jsoncpp.cc:341-381 | parsing a written tree gives the tree, integer tags made uniform, with no error, when it is at most 1000 deep, and throws otherwise, whatever follows the line feed |
| JsonMeaning.TreeComesBack | stputil/json/jsoncpp.cc:341-381 | the same, leaf by leaf: every number comes back as its value, tagged int below 2^31 and uint from there on, everything else as it was |
| JsonRewrite.ReadWriteRead | stputil/json/jsoncpp.cc:341-381 | a tree read from any text, with no real in it and nothing too long, is written as a text that gives the very same tree |
| JsonMeaning.SameIsNormal | stputil/json/jsoncpp.cc:341-381 | only one tree fits that description |
| JsonMeaning.GatheredSays | stputil/json/jsoncpp.cc:682-736 | members written in any order, and under one name more than once: the object has exactly those names, in order, and under each the last value written |
| JsonMeaning.SaysOne | stputil/json/jsoncpp.cc:682-736 | and that is the only such tree |
| JsonRoundTrip.NormalIsStable | stputil/json/jsoncpp.cc:4400-4460 | what comes back is written as the same text again |
| JsonSpacing.SpacingReadsBack | stputil/json/jsoncpp.cc:341-381 | the same for every text with the tokens of a written tree, its members in any order and repeated, and any white space and comments between them where the reader takes them |
| JsonSpacing.GapSkipped | stputil/json/jsoncpp.cc:467-475 | the reader steps over white space and complete comments to the token behind |
| JsonSpacing.GapAllowed | stputil/json/jsoncpp.cc:467-475 | a gap may be put in front of any token, and before a colon or in an array of nothing if it is white space |
| JsonStream.DecodeClean | stputil/json/jsoncpp.cc:125-151 | no escape gives the byte 0xFF |
| JsonStream.StreamRoundTrip | stputil/json/jsoncpp.cc:328-339 | from a file the tree comes back if and only if it is at most 1000 deep and holds the byte 0xFF in no string or key |
| JsonStream.JsonParser.Parse | stputil/json_parser.cc:17-41 | true exactly when the file is there and reads without error; a file without the byte 0xFF that has the tokens of a written tree, its members in any order, gives the tree it says, however it is laid out, or throws exactly when it is too deep |
| JsonArray.ArrayValue.At | stputil/json/jsoncpp.cc:3432-3445 | the value in the slot, where a null has been put if nothing was there |
| JsonArray.ArrayValue.Append | stputil/json/jsoncpp.cc:3578 | append sets the slot at the size |
| JsonArray.ArrayValue.Resize | stputil/json/jsoncpp.cc:3413-3430 | the new map; the assertion at the end holds exactly when the array grows, is cleared, or has something in its new last slot |
| JsonArray.ResizeKeepsSize | stputil/json/jsoncpp.cc:3413-3430 | without growing, the size is the one asked for if and only if the slot below it holds something |
| JsonArray.ResizeLosesSize | stputil/json/jsoncpp.cc:3413-3430 | an array that one access beyond its end has made, on which the assertion fails |
| JsonArray.ArrayValue.RemoveIndex | stputil/json/jsoncpp.cc:3632-3653 | on any map, holes included, the value removed, and everything behind it moved down by one |
| JsonArray.DenseSize | stputil/json/jsoncpp.cc:3365-3386 | size() is the number of entries of a dense array exactly while that number fits in 32 bits |
| JsonArray.AppendDense | stputil/json/jsoncpp.cc:3578 | on a dense array append is appending to the sequence |
| JsonArray.RemoveDense | stputil/json/jsoncpp.cc:3632-3653 | removeIndex is deleting from the sequence |
| JsonArray.ResizeDense | stputil/json/jsoncpp.cc:3413-3430 | resize cuts the sequence or adds one null, and keeps the array dense exactly when it grows by at most one |
| JsonArray.RunRefines | stputil/json/jsoncpp.cc:3365-3445 | any run of these operations in range is the run on the sequence, dense at its end, its size the number of entries |

## Left out

- Doubles: a real is kept as its text, which texts a stream reads as a double is the parameter `reals`, and trees with reals are outside the round trip and the order.
- JsonWriter.FastWriter.Write: requires a tree without reals, with keys below 2^30 bytes, members in key order, integers of 64 bits, strings of at most 2^31 - 6 bytes and arrays below 2^31 elements, which is what a value can hold; the YAML and drop-null options are off.
- StpCrypto.Session.EncryptPlain: for texts above 2^32 - 20 bytes the padded length wraps and the source writes outside its buffer, so the contract excludes them.
- Base64.EncodeString: excludes the empty string, on which the source fails its own length assertion.
- Md5.Context.Update: requires that the waiting and the new bytes together are below 2^32, the condition of GuardIsExact.
- JsonReader.Reader.ReadValue: says nothing of the position and the nodes after the exception, since parse starts every run afresh.
- JsonReader.Reader.Parse: strict root, numeric keys and dropped null placeholders are off, as in the default features; error positions, the texts of the single escape errors, comments and offsets are not stored.
- JsonReader.Reader.ReadInto: the node stack holds copies that are written back when a value is popped, where the source holds pointers into the tree.
- JsonReader.Reader.GetNextChar: the document is followed by a NUL for the places that look one character past the end.
- JsonArray.ArrayValue.Resize: a null value becomes an array first; the model starts from the array.
- Trees that are written have dense arrays and members in key order, as reading makes them; JsonOrder and JsonArray have arrays with holes.
- JsonReader.Reader.ReadElements: reading a string longer than a value can hold, or 2^31 elements of one array, goes on where the source asserts or overflows.
- The key of GetStpCryptKey is a parameter; the unused `token` parameters are not there.
- Allocation failure, ownership and freeing of memory.
- Connection.Conn.SendNetMessage: adding to the buffer always succeeds; the version byte is opaque, and the handler is the flag `notified`.
- Whole decryption under AES_ASM: only its packed arithmetic is related to the tables; its key expansion repeats the other.
- Sockets, timers, threads, logging, the database, configuration lookup, protobuf messages and dispatch.
- Key negotiation and the index manager: system calls around a step that aborts.
- StyledWriter, the stream writers, Path, and OurReader, which repeats Reader.
