/** What the reader makes of its input, as functions of the text still to be read.

    Every function says how many characters it takes, so that a position in the document is enough to
    place it. A NUL character ends the stream wherever it stands. */
module JsonSyntax {
  import opened Wrappers
  import opened JsonNumber
  import opened JsonString
  import opened JsonKeys
  import opened JsonValue

  datatype Kind =
    | EndOfStream | ObjectBegin | ObjectEnd | ArrayBegin | ArrayEnd | StringText | NumberText
    | TrueText | FalseText | NullText | ArraySeparator | MemberSeparator | Comment | Bad

  // A token of the text read from, after leading white space: [start .. end).
  datatype Token = Token(kind: Kind, start: nat, end: nat)

  // ---- Tokens ----

  predicate IsSpace(c: char) { c == ' ' || c == '\t' || c == '\r' || c == '\n' }

  function SpaceCount(s: string): (n: nat)
    ensures n <= |s|
    ensures n < |s| ==> !IsSpace(s[n])
    ensures forall k :: 0 <= k < n ==> IsSpace(s[k])
  {
    if s == "" || !IsSpace(s[0]) then 0 else 1 + SpaceCount(s[1..])
  }

  function DigitCount(s: string): (n: nat)
    ensures n <= |s|
    ensures n < |s| ==> !IsDigit(s[n])
    ensures forall k :: 0 <= k < n ==> IsDigit(s[k])
  {
    if s == "" || !IsDigit(s[0]) then 0 else 1 + DigitCount(s[1..])
  }

  // readNumber after the first character: digits, a fraction and an exponent.
  function NumberCount(s: string): (n: nat)
    ensures n <= |s|
  {
    var i := DigitCount(s);
    i + FractionCount(s[i..])
  }

  function FractionCount(s: string): (n: nat)
    ensures n <= |s|
  {
    if s != "" && s[0] == '.' then
      var i := 1 + DigitCount(s[1..]);
      i + ExponentCount(s[i..])
    else ExponentCount(s)
  }

  function ExponentCount(s: string): (n: nat)
    ensures n <= |s|
  {
    if s != "" && (s[0] == 'e' || s[0] == 'E') then
      var i := if |s| > 1 && (s[1] == '+' || s[1] == '-') then 2 else 1;
      i + DigitCount(s[i..])
    else 0
  }

  // readCStyleComment after "/*".
  function CStyleComment(s: string): (r: Scan)
    ensures r.count <= |s|
  {
    if s == "" then Scan(0, false)
    else if s[0] == '*' && |s| > 1 && s[1] == '/' then Scan(2, true)
    else
      var rest := CStyleComment(s[1..]);
      Scan(1 + rest.count, rest.ok)
  }

  // readCppStyleComment after "//", up to and with the end of the line.
  function CppStyleCount(s: string): (n: nat)
    ensures n <= |s|
  {
    if s == "" then 0
    else if s[0] == '\n' then 1
    else if s[0] == '\r' then (if |s| > 1 && s[1] == '\n' then 2 else 1)
    else 1 + CppStyleCount(s[1..])
  }

  // readComment after the first slash.
  function CommentText(s: string): (r: Scan)
    ensures r.count <= |s|
  {
    if s == "" then Scan(0, false)
    else if s[0] == '*' then
      var rest := CStyleComment(s[1..]);
      Scan(1 + rest.count, rest.ok)
    else if s[0] == '/' then Scan(1 + CppStyleCount(s[1..]), true)
    else Scan(1, false)
  }

  // match: the rest of a keyword, or nothing is taken.
  function Keyword(s: string, rest: string): (r: Scan)
    ensures r.count <= |s|
  {
    if rest <= s then Scan(|rest|, true) else Scan(0, false)
  }

  // The kind of a token from its first character, and how much follows that character.
  function TokenBody(c: char, s: string): (r: (Kind, nat))
    ensures r.1 <= |s|
  {
    if c == '{' then (ObjectBegin, 0)
    else if c == '}' then (ObjectEnd, 0)
    else if c == '[' then (ArrayBegin, 0)
    else if c == ']' then (ArrayEnd, 0)
    else if c == '\"' then Checked(StringText, ScanString(s))
    else if c == '/' then Checked(Comment, CommentText(s))
    else if IsDigit(c) || c == '-' then (NumberText, NumberCount(s))
    else if c == 't' then Checked(TrueText, Keyword(s, "rue"))
    else if c == 'f' then Checked(FalseText, Keyword(s, "alse"))
    else if c == 'n' then Checked(NullText, Keyword(s, "ull"))
    else if c == ',' then (ArraySeparator, 0)
    else if c == ':' then (MemberSeparator, 0)
    else if c == '\0' then (EndOfStream, 0)
    else (Bad, 0)
  }

  function Checked(k: Kind, r: Scan): (Kind, nat) { (if r.ok then k else Bad, r.count) }

  /** readToken: the token lies inside the text, and unless the stream has ended it is not empty. */
  function ReadToken(s: string): (t: Token)
    ensures t.start <= t.end <= |s|
    ensures t.kind != EndOfStream ==> t.start < t.end
    ensures t.kind == StringText ==> t.start + 2 <= t.end && s[t.start] == '\"' && s[t.end - 1] == '\"'
  {
    var p := SpaceCount(s);
    if p == |s| then Token(EndOfStream, p, p)
    else
      var body := TokenBody(s[p], s[p + 1..]);
      Token(body.0, p, p + 1 + body.1)
  }

  // A token further on, placed in the text it follows.
  function Moved(t: Token, n: nat): Token { Token(t.kind, t.start + n, t.end + n) }

  // skipCommentTokens, and the loops that skip comments: the first token that is not one.
  function NextToken(s: string): (t: Token)
    ensures t.start <= t.end <= |s| && t.kind != Comment
    ensures t.kind != EndOfStream ==> t.start < t.end
    ensures t.kind == StringText ==> t.start + 2 <= t.end
    decreases |s|
  {
    var t := ReadToken(s);
    if t.kind == Comment then Moved(NextToken(s[t.end..]), t.end) else t
  }

  // recoverFromError: how much is skipped up to a token of the kind wanted or the end.
  function RecoverCount(s: string, until: Kind): (n: nat)
    ensures n <= |s|
    decreases |s|
  {
    var t := ReadToken(s);
    if t.kind == until || t.kind == EndOfStream then t.end else t.end + RecoverCount(s[t.end..], until)
  }

  // ---- Members of an object ----

  // CZString keeps thirty bits of a key's length.
  const KEY_LENGTH_LIMIT: nat := 0x4000_0000

  function KeyOf(name: string): (k: string)
    ensures |k| < KEY_LENGTH_LIMIT
    ensures |name| < KEY_LENGTH_LIMIT ==> k == name
  {
    name[..|name| % KEY_LENGTH_LIMIT]
  }

  function Lookup(members: seq<Member>, key: string): Value {
    if members == [] then Null
    else if members[0].key == key then members[0].value
    else Lookup(members[1..], key)
  }

  // Set the member of that key, in key order.
  function Put(members: seq<Member>, key: string, value: Value): (r: seq<Member>) {
    if members == [] then [Member(key, value)]
    else if members[0].key == key then [Member(key, value)] + members[1..]
    else if KeyLess(key, members[0].key) then [Member(key, value)] + members
    else [members[0]] + Put(members[1..], key, value)
  }

  // ---- Values ----

  const STACK_LIMIT: nat := 1000

  const NO_VALUE := "Syntax error: value, object or array expected."
  const BAD_STRING := "Bad string."
  const BAD_NUMBER := "Not a number."
  const NO_COLON := "Missing ':' after object member name"
  const NO_COMMA_OR_BRACE := "Missing ',' or '}' in object declaration"
  const NO_NAME := "Missing '}' or object member name"
  const NO_COMMA_OR_BRACKET := "Missing ',' or ']' in array declaration"

  // Done: success, the characters taken, what the current value now is, and the errors recorded.
  // Thrown: the exception for too deep a nesting.
  datatype Outcome = Done(ok: bool, count: nat, value: Value, errors: seq<string>) | Thrown

  // An outcome further on.
  function Later(r: Outcome, n: nat): Outcome {
    match r
    case Thrown => Thrown
    case Done(ok, count, value, errors) => Done(ok, n + count, value, errors)
  }

  // Exactly one error is recorded on failure and none on success, and no more than the text is taken.
  ghost predicate Sound(r: Outcome, s: string) {
    r.Done? ==> r.count <= |s| && |r.errors| == if r.ok then 0 else 1
  }

  // addErrorAndRecover, or recoverFromError with the error already there.
  function Recover(s: string, n: nat, until: Kind, value: Value, error: string): (r: Outcome)
    requires n <= |s|
    ensures Sound(r, s)
  {
    Done(false, n + RecoverCount(s[n..], until), value, [error])
  }

  // The tag decodeNumber puts on an integer.
  function Tagged(i: int): Value {
    if i <= MAX_INT then Int(i) else UInt(i)
  }

  // decodeNumber; reals says which texts the stream reads as a double.
  function NumberOutcome(text: string, n: nat, cur: Value, reals: string -> bool): Outcome
    requires text != ""
  {
    match DecodeNumber(text)
    case Integer(i) => Done(true, n, Tagged(i), [])
    case NotInteger => if reals(text) then Done(true, n, Real(text), []) else Done(false, n, cur, [BAD_NUMBER])
  }

  /** readValue, with depth values already open and cur in the place of the value. */
  function ReadValue(s: string, depth: nat, cur: Value, reals: string -> bool): (r: Outcome)
    ensures Sound(r, s)
    ensures r.Done? && r.ok ==> 0 < r.count
    decreases |s|, 1
  {
    if depth >= STACK_LIMIT then Thrown
    else
      var t := NextToken(s);
      var text := s[t.start..t.end];
      match t.kind
      case ObjectBegin => Later(ReadMembers(s[t.end..], depth + 1, [], "", reals), t.end)
      case ArrayBegin => Later(ReadArray(s[t.end..], depth + 1, reals), t.end)
      case NumberText => NumberOutcome(text, t.end, cur, reals)
      case StringText =>
        (match Decode(text[1..|text| - 1])
         case None => Done(false, t.end, cur, [BAD_STRING])
         case Some(d) => Done(true, t.end, Str(d), []))
      case TrueText => Done(true, t.end, Bool(true), [])
      case FalseText => Done(true, t.end, Bool(false), [])
      case NullText => Done(true, t.end, Null, [])
      case _ => Done(false, t.end, cur, [NO_VALUE])
  }

  // readArray after its bracket.
  function ReadArray(s: string, depth: nat, reals: string -> bool): (r: Outcome)
    ensures Sound(r, s)
    ensures r.Done? && r.ok ==> 0 < r.count
    decreases |s|, 3
  {
    var p := SpaceCount(s);
    if p < |s| && s[p] == ']' then Done(true, p + 1, Array([]), [])
    else Later(ReadElems(s[p..], depth, [], reals), p)
  }

  // readArray's loop, with the elements it has so far.
  function ReadElems(s: string, depth: nat, elems: seq<Value>, reals: string -> bool): (r: Outcome)
    ensures Sound(r, s)
    ensures r.Done? && r.ok ==> 0 < r.count
    decreases |s|, 2
  {
    var e := ReadValue(s, depth, Null, reals);
    if e.Thrown? then Thrown
    else
      var here := elems + [e.value];
      if !e.ok then Done(false, e.count + RecoverCount(s[e.count..], ArrayEnd), Array(here), e.errors)
      else
        var t := NextToken(s[e.count..]);
        var n := e.count + t.end;
        if t.kind == ArraySeparator then Later(ReadElems(s[n..], depth, here, reals), n)
        else if t.kind == ArrayEnd then Done(true, n, Array(here), [])
        else Recover(s, n, ArrayEnd, Array(here), NO_COMMA_OR_BRACKET)
  }

  // readObject's loop, with the members it has so far and the last name read.
  function ReadMembers(s: string, depth: nat, members: seq<Member>, last: string, reals: string -> bool): (r: Outcome)
    ensures Sound(r, s)
    ensures r.Done? && r.ok ==> 0 < r.count
    decreases |s|, 2
  {
    var t := NextToken(s);
    if t.kind == ObjectEnd && last == "" then Done(true, t.end, Object(members), [])
    else if t.kind != StringText then Recover(s, t.end, ObjectEnd, Object(members), NO_NAME)
    else
      var name := Decode(s[t.start + 1..t.end - 1]);
      if name.None? then Recover(s, t.end, ObjectEnd, Object(members), BAD_STRING)
      else
        var colon := ReadToken(s[t.end..]);
        var n := t.end + colon.end;
        if colon.kind != MemberSeparator then Recover(s, n, ObjectEnd, Object(members), NO_COLON)
        else
          var key := KeyOf(name.value);
          var v := ReadValue(s[n..], depth, Lookup(members, key), reals);
          if v.Thrown? then Thrown
          else
            var m := n + v.count;
            var here := Put(members, key, v.value);
            if !v.ok then Done(false, m + RecoverCount(s[m..], ObjectEnd), Object(here), v.errors)
            else Later(AfterMember(s[m..], depth, here, name.value, reals), m)
  }

  // After a member: a comma, the closing brace or a comment must come; behind comments, anything but the brace
  // passes for a comma.
  function AfterMember(s: string, depth: nat, members: seq<Member>, name: string, reals: string -> bool): (r: Outcome)
    ensures Sound(r, s)
    decreases |s|, 3
  {
    var first := ReadToken(s);
    if first.kind != ObjectEnd && first.kind != ArraySeparator && first.kind != Comment then
      Recover(s, first.end, ObjectEnd, Object(members), NO_COMMA_OR_BRACE)
    else
      var t := NextToken(s);
      if t.kind == ObjectEnd then Done(true, t.end, Object(members), [])
      else Later(ReadMembers(s[t.end..], depth, members, name, reals), t.end)
  }

  /** parse: one value, whatever follows it. The depth count starts at zero. */
  function Parse(s: string, root: Value, reals: string -> bool): (r: Outcome)
    ensures Sound(r, s)
  {
    ReadValue(s, 0, root, reals)
  }
}
