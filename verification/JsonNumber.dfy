/** Integers in JSON text: printing into a fixed buffer, and reading back with overflow detection. */
module JsonNumber {

  const MAX_INT: nat := 0x7fff_ffff
  const MAX_LARGEST_INT: nat := 0x7fff_ffff_ffff_ffff
  const MAX_LARGEST_UINT: nat := 0xffff_ffff_ffff_ffff
  const MIN_LARGEST_INT: int := -0x8000_0000_0000_0000

  predicate IsDigit(c: char) { '0' <= c <= '9' }

  function Digit(n: nat): (c: char)
    requires n < 10
    ensures IsDigit(c)
  {
    (n + '0' as int) as char
  }

  function DigitValue(c: char): (n: nat)
    requires IsDigit(c)
    ensures n < 10
  {
    c as int - '0' as int
  }

  lemma DigitRoundTrip(n: nat)
    requires n < 10
    ensures DigitValue(Digit(n)) == n
  {
  }

  predicate AllDigits(s: string) { forall k :: 0 <= k < |s| ==> IsDigit(s[k]) }

  function ValueOf(s: string): nat
    requires AllDigits(s)
  {
    if s == "" then 0 else ValueOf(s[..|s| - 1]) * 10 + DigitValue(s[|s| - 1])
  }

  // The decimal digits of a number, without leading zeros.
  function UIntText(n: nat): (s: string)
    ensures s != "" && AllDigits(s)
  {
    if n < 10 then [Digit(n)] else UIntText(n / 10) + [Digit(n % 10)]
  }

  function IntText(i: int): (s: string)
    ensures s != ""
  {
    if i < 0 then "-" + UIntText(-i) else UIntText(i)
  }

  lemma {:induction false} UIntTextValue(n: nat)
    ensures ValueOf(UIntText(n)) == n
  {
    if n >= 10 {
      UIntTextValue(n / 10);
      assert UIntText(n)[..|UIntText(n)| - 1] == UIntText(n / 10);
      DigitRoundTrip(n % 10);
    } else {
      DigitRoundTrip(n);
      assert UIntText(n)[..0] == "";
    }
  }

  lemma {:induction false} UIntTextLength(n: nat, k: nat)
    requires n < Power10(k) && 0 < k
    ensures |UIntText(n)| <= k
  {
    if n >= 10 {
      UIntTextLength(n / 10, k - 1);
    }
  }

  function Power10(k: nat): (p: nat)
    ensures p > 0
  {
    if k == 0 then 1 else 10 * Power10(k - 1)
  }

  // uintToStringBufferSize: three characters a byte and one for the terminator.
  const BUFFER_SIZE: nat := 25

  lemma UIntTextFits(n: nat)
    requires n <= MAX_LARGEST_UINT
    ensures |UIntText(n)| <= 20
  {
    assert Power10(4) == 10000;
    assert Power10(8) == 10000_0000;
    assert Power10(12) == 10000_0000_0000;
    assert Power10(16) == 10000_0000_0000_0000;
    assert Power10(20) == 10000_0000_0000_0000_0000;
    UIntTextLength(n, 20);
  }

  lemma UIntTextStep(v: nat, done: string)
    ensures var later := [Digit(v % 10)] + done;
            UIntText(v) + done == if v < 10 then later else UIntText(v / 10) + later
  {
  }

  /** uintToString: the digits are written downwards from current, after a terminator. */
  method UintToString(value: nat, buffer: array<char>, current: nat) returns (next: nat)
    requires value <= MAX_LARGEST_UINT && 21 <= current <= buffer.Length
    modifies buffer
    ensures current - 21 <= next < current
    ensures buffer[next..current] == UIntText(value) + ['\0']
    ensures buffer[current..] == old(buffer[current..]) && buffer[..next] == old(buffer[..next])
  {
    hide UIntText, Digit;
    UIntTextFits(value);
    next := current - 1;
    buffer[next] := '\0';
    var v := value;
    ghost var done := "";
    while true
      invariant UIntText(v) + done == UIntText(value)
      invariant |done| == current - 1 - next && next <= current - 1
      invariant buffer[next..current] == done + ['\0']
      invariant buffer[current..] == old(buffer[current..]) && buffer[..next] == old(buffer[..next])
      decreases v
    {
      ghost var before := buffer[next..current];
      UIntTextStep(v, done);
      assert |UIntText(v)| + |done| == |UIntText(value)| <= 20;
      next := next - 1;
      buffer[next] := Digit(v % 10);
      assert buffer[next..current] == [Digit(v % 10)] + before;
      done := [Digit(v % 10)] + done;
      v := v / 10;
      if v == 0 {
        break;
      }
    }
  }

  /** valueToString of a signed or an unsigned 64-bit value: its text, read up to the terminator. */
  method ValueToString(value: int) returns (s: string)
    requires MIN_LARGEST_INT <= value <= MAX_LARGEST_UINT
    ensures s == IntText(value)
  {
    hide UIntText;
    var buffer := new char[BUFFER_SIZE];
    var magnitude: nat :=
      if value == MIN_LARGEST_INT then MAX_LARGEST_INT + 1 else if value < 0 then 0 - value else value;
    var current := UintToString(magnitude, buffer, BUFFER_SIZE);
    ghost var digits := buffer[current..];
    assert digits == UIntText(magnitude) + ['\0'];
    if value < 0 {
      current := current - 1;
      buffer[current] := '-';
      assert buffer[current + 1..] == digits && buffer[current..] == ['-'] + digits;
    }
    assert buffer[current..] == IntText(value) + ['\0'];
    s := buffer[current..BUFFER_SIZE - 1];
    assert s == buffer[current..][..|buffer[current..]| - 1];
  }

  // ---- decodeNumber ----

  datatype Number = Integer(value: int) | NotInteger

  // The largest magnitude that still is an integer.
  function Limit(negative: bool): nat { if negative then MAX_LARGEST_INT + 1 else MAX_LARGEST_UINT }

  /** A token of digits, with an optional minus, is an integer of exactly its value if that fits in 64 bits. */
  function DecodeNumber(token: string): Number
    requires token != ""
  {
    var negative := token[0] == '-';
    var digits := if negative then token[1..] else token;
    if AllDigits(digits) && ValueOf(digits) <= Limit(negative)
    then Integer(if negative then 0 - ValueOf(digits) else ValueOf(digits))
    else NotInteger
  }

  lemma {:induction false} ValueOfGrows(s: string, i: nat)
    requires AllDigits(s) && i <= |s|
    ensures ValueOf(s[..i]) <= ValueOf(s)
    ensures i < |s| ==> ValueOf(s[..i + 1]) == ValueOf(s[..i]) * 10 + DigitValue(s[i])
    ensures i < |s| ==> ValueOf(s[..i]) * 10 <= ValueOf(s)
    decreases |s| - i
  {
    if i < |s| {
      assert s[..i + 1][..i] == s[..i];
      ValueOfGrows(s, i + 1);
    } else {
      assert s[..i] == s;
    }
  }

  // The threshold test gives up only on a value that is too large.
  lemma ThresholdIsExact(digits: string, i: nat, limit: nat)
    requires i < |digits| && AllDigits(digits) && limit >= 10
    ensures var value, digit := ValueOf(digits[..i]), DigitValue(digits[i]);
            (value >= limit / 10 && (value > limit / 10 || i + 1 != |digits| || digit > limit % 10))
            ==> (ValueOf(digits) > limit)
    ensures var value, digit := ValueOf(digits[..i]), DigitValue(digits[i]);
            !(value >= limit / 10 && (value > limit / 10 || i + 1 != |digits| || digit > limit % 10))
            ==> (value * 10 + digit <= limit)
  {
    var value, digit := ValueOf(digits[..i]), DigitValue(digits[i]);
    ValueOfGrows(digits, i);
    if value == limit / 10 && i + 1 != |digits| {
      ValueOfGrows(digits, i + 1);
      assert ValueOf(digits[..i + 1]) >= value * 10;
    }
  }

  // The loop of decodeNumber over the characters from start on; it never computes a value above the limit.
  method ReadMagnitude(token: string, start: nat, maxIntegerValue: nat) returns (ok: bool, value: nat)
    requires start <= |token| && 10 <= maxIntegerValue <= MAX_LARGEST_UINT
    ensures var digits := token[start..];
            && ok == (AllDigits(digits) && ValueOf(digits) <= maxIntegerValue)
            && (ok ==> value == ValueOf(digits))
  {
    hide ValueOf;
    ghost var digits := token[start..];
    var current, threshold := start, maxIntegerValue / 10;
    value := 0;
    NoDigits();
    assert digits[..0] == "";
    while current < |token|
      invariant start <= current <= |token|
      invariant AllDigits(digits[..current - start]) && value == ValueOf(digits[..current - start]) <= maxIntegerValue
    {
      var c := token[current];
      ghost var i := current - start;
      current := current + 1;
      if c < '0' || c > '9' {
        assert digits[i] == c;
        return false, 0;
      }
      var digit := DigitValue(c);
      OneMoreDigit(digits, i);
      if value >= threshold {
        if value > threshold || current != |token| || digit > maxIntegerValue % 10 {
          if AllDigits(digits) {
            ThresholdIsExact(digits, i, maxIntegerValue);
          }
          return false, 0;
        }
      }
      assert value * 10 + digit <= maxIntegerValue;
      value := value * 10 + digit;
    }
    assert digits[..current - start] == digits;
    return true, value;
  }

  lemma NoDigits()
    ensures ValueOf("") == 0
  {
  }

  lemma OneMoreDigit(s: string, i: nat)
    requires i < |s| && AllDigits(s[..i]) && IsDigit(s[i])
    ensures AllDigits(s[..i + 1]) && ValueOf(s[..i + 1]) == ValueOf(s[..i]) * 10 + DigitValue(s[i])
  {
    assert s[..i + 1][..i] == s[..i];
  }

  /** decodeNumber, apart from the tag that the reader puts on the value. */
  method ReadInteger(token: string) returns (n: Number)
    requires token != ""
    ensures n == DecodeNumber(token)
  {
    hide ValueOf;
    var isNegative := token[0] == '-';
    var maxIntegerValue: nat := if isNegative then MAX_LARGEST_INT + 1 else MAX_LARGEST_UINT;
    var ok, value := ReadMagnitude(token, if isNegative then 1 else 0, maxIntegerValue);
    assert token[0..] == token;
    if !ok {
      return NotInteger;
    }
    if isNegative && value == maxIntegerValue {
      n := Integer(MIN_LARGEST_INT);
    } else if isNegative {
      n := Integer(-(value as int));
    } else {
      n := Integer(value);
    }
  }

  /** Every 64-bit value, signed or unsigned, is read back from its text. */
  lemma NumberRoundTrip(i: int)
    requires MIN_LARGEST_INT <= i <= MAX_LARGEST_UINT
    ensures DecodeNumber(IntText(i)) == Integer(i)
  {
    if i < 0 {
      UIntTextValue(-i);
      assert IntText(i)[1..] == UIntText(-i);
    } else {
      UIntTextValue(i);
      assert IntText(i)[0] != '-';
    }
  }
}
