/** Parsing from a file, as the configuration reader does: the stream is read up to the byte that (char)EOF is. */
module JsonStream {
  import opened Wrappers
  import opened JsonNumber
  import opened JsonString
  import opened JsonKeys
  import opened JsonValue
  import opened JsonSyntax
  import opened JsonWriter
  import opened JsonStrict
  import opened JsonRoundTrip
  import opened JsonMeaning
  import opened JsonSpacing
  import JsonReader

  // std::getline with (char)EOF, which is the byte 0xFF, for its delimiter.
  function FirstLine(s: string): (r: string)
    ensures r <= s && Clean(r) && (|r| < |s| ==> s[|r|] == '\U{FF}')
  {
    if s == "" || s[0] == '\U{FF}' then "" else [s[0]] + FirstLine(s[1..])
  }

  predicate Clean(s: string) { '\U{FF}' !in s }

  // No string and no key of the tree holds the byte.
  ghost predicate CleanValue(v: Value) {
    match v
    case Str(s) => Clean(s)
    case Real(text) => Clean(text)
    case Array(elems) => forall e <- elems :: CleanValue(e)
    case Object(members) => forall m <- members :: Clean(m.key) && CleanValue(m.value)
    case _ => true
  }

  ghost predicate CleanMembers(ms: seq<Member>) { forall m <- ms :: Clean(m.key) && CleanValue(m.value) }

  ghost predicate CleanElems(vs: seq<Value>) { forall e <- vs :: CleanValue(e) }

  // ---- A tree without the byte is written without it ----

  lemma {:induction false} DigitsClean(n: nat)
    ensures Clean(UIntText(n))
  {
    if n >= 10 {
      DigitsClean(n / 10);
    }
  }

  lemma EscapedClean(c: char)
    requires c != '\U{FF}'
    ensures Clean(Escaped(c))
  {
  }

  lemma {:induction false} QuoteClean(s: string)
    requires Clean(s)
    ensures Clean(EscapedAll(s))
  {
    hide Escaped;
    if s != "" {
      EscapedClean(s[|s| - 1]);
      QuoteClean(s[..|s| - 1]);
    }
  }

  lemma {:induction false} TextClean(v: Value)
    requires CleanValue(v)
    ensures Clean(Text(v))
    decreases v, 1
  {
    match v
    case Int(i) => DigitsClean(if i < 0 then -i else i);
    case UInt(u) => DigitsClean(u);
    case Str(s) => QuoteClean(s);
    case Array(elems) => ElemsTextClean(elems);
    case Object(members) => MembersTextClean(members);
    case _ =>
  }

  lemma {:induction false} ElemsTextClean(vs: seq<Value>)
    requires CleanElems(vs)
    ensures Clean(ElemsText(vs))
    decreases vs, 0
  {
    hide Text, CleanValue;
    if vs != [] {
      TextClean(vs[0]);
      ElemsTextClean(vs[1..]);
    }
  }

  lemma {:induction false} MembersTextClean(ms: seq<Member>)
    requires CleanMembers(ms)
    ensures Clean(MembersText(ms))
    decreases ms, 0
  {
    hide Text, CleanValue, EscapedAll;
    if ms != [] {
      QuoteClean(ms[0].key);
      TextClean(ms[0].value);
      MembersTextClean(ms[1..]);
    }
  }

  // ---- A text without the byte is read as a tree without it: no escape gives the byte ----

  lemma Utf8Clean(cp: nat)
    requires cp <= 0x10_FFFF
    ensures Clean(Utf8(cp))
  {
  }

  lemma {:induction false} DecodeClean(s: string)
    requires Clean(s)
    ensures Decode(s).Some? ==> Clean(Decode(s).value)
  {
    hide Utf8, CodePoint;
    if s != "" && s[0] != '\"' {
      var u := Unit(s);
      if u.Some? {
        if s[0] == '\\' && s[1] == 'u' {
          Utf8Clean(CodePoint(s[2..]).value.0);
        }
        DecodeClean(s[u.value.1..]);
      }
    }
  }

  lemma {:induction false} PutClean(ms: seq<Member>, key: string, value: Value)
    requires CleanMembers(ms) && Clean(key) && CleanValue(value)
    ensures CleanMembers(Put(ms, key, value))
  {
    hide CleanValue, KeyLess;
    if ms != [] {
      PutClean(ms[1..], key, value);
    }
  }

  ghost predicate CleanOutcome(r: Outcome) { r.Done? && r.ok ==> CleanValue(r.value) }

  lemma {:induction false} ReadClean(s: string, depth: nat, cur: Value, reals: string -> bool)
    requires Clean(s)
    ensures CleanOutcome(ReadValue(s, depth, cur, reals))
    decreases |s|, 1
  {
    hide NextToken, ReadMembers, ReadArray, Decode, DecodeNumber;
    if depth < STACK_LIMIT {
      var t := NextToken(s);
      var text := s[t.start..t.end];
      if t.kind == ObjectBegin {
        MembersClean(s[t.end..], depth + 1, [], "", reals);
      } else if t.kind == ArrayBegin {
        ArrayClean(s[t.end..], depth + 1, reals);
      } else if t.kind == StringText {
        DecodeClean(text[1..|text| - 1]);
      }
    }
  }

  lemma {:induction false} ArrayClean(s: string, depth: nat, reals: string -> bool)
    requires Clean(s)
    ensures CleanOutcome(JsonSyntax.ReadArray(s, depth, reals))
    decreases |s|, 3
  {
    hide ReadElems;
    ElemsClean(s[SpaceCount(s)..], depth, [], reals);
  }

  lemma {:induction false} ElemsClean(s: string, depth: nat, elems: seq<Value>, reals: string -> bool)
    requires Clean(s) && CleanElems(elems)
    ensures CleanOutcome(ReadElems(s, depth, elems, reals))
    decreases |s|, 2
  {
    hide ReadValue, CleanValue, NextToken, RecoverCount;
    var e := ReadValue(s, depth, Null, reals);
    ReadClean(s, depth, Null, reals);
    if e.Done? && e.ok {
      var here := elems + [e.value];
      ArrayOf(here);
      var n := e.count + NextToken(s[e.count..]).end;
      ElemsClean(s[n..], depth, here, reals);
    }
  }

  lemma ArrayOf(elems: seq<Value>)
    ensures CleanValue(Array(elems)) == CleanElems(elems)
  {
  }

  lemma ObjectOf(members: seq<Member>)
    ensures CleanValue(Object(members)) == CleanMembers(members)
  {
  }

  lemma {:induction false} MembersClean(
    s: string, depth: nat, members: seq<Member>, last: string, reals: string -> bool)
    requires Clean(s) && CleanMembers(members)
    ensures CleanOutcome(ReadMembers(s, depth, members, last, reals))
    decreases |s|, 2
  {
    hide ReadValue, CleanValue, CleanMembers, NextToken, ReadToken, RecoverCount, AfterMember, Put, Decode, Lookup;
    ObjectOf(members);
    var t := NextToken(s);
    if t.kind == StringText {
      var name := Decode(s[t.start + 1..t.end - 1]);
      DecodeClean(s[t.start + 1..t.end - 1]);
      var n := t.end + ReadToken(s[t.end..]).end;
      if name.Some? {
        var key := KeyOf(name.value);
        var v := ReadValue(s[n..], depth, Lookup(members, key), reals);
        ReadClean(s[n..], depth, Lookup(members, key), reals);
        if v.Done? && v.ok {
          var here := Put(members, key, v.value);
          PutClean(members, key, v.value);
          AfterClean(s[n + v.count..], depth, here, name.value, reals);
        }
      }
    }
  }

  lemma {:induction false} AfterClean(
    s: string, depth: nat, members: seq<Member>, name: string, reals: string -> bool)
    requires Clean(s) && CleanMembers(members)
    ensures CleanOutcome(AfterMember(s, depth, members, name, reals))
    decreases |s|, 3
  {
    hide CleanMembers, ReadMembers, CleanValue, ReadToken, RecoverCount;
    ObjectOf(members);
    MembersClean(s[NextToken(s).end..], depth, members, name, reals);
  }

  // ---- The tag of an integer does not matter ----

  lemma {:induction false} NormalClean(v: Value)
    ensures CleanValue(Normal(v)) == CleanValue(v)
    decreases v, 1
  {
    match v
    case Array(elems) => ElemsNormalClean(elems);
    case Object(members) => MembersNormalClean(members);
    case _ =>
  }

  lemma {:induction false} ElemsNormalClean(vs: seq<Value>)
    ensures CleanElems(NormalAll(vs)) == CleanElems(vs)
    decreases vs, 0
  {
    hide Normal, CleanValue;
    if vs != [] {
      NormalClean(vs[0]);
      ElemsNormalClean(vs[1..]);
      assert vs == [vs[0]] + vs[1..];
    }
  }

  lemma {:induction false} MembersNormalClean(ms: seq<Member>)
    ensures CleanMembers(NormalMembers(ms)) == CleanMembers(ms)
    decreases ms, 0
  {
    hide Normal, CleanValue;
    if ms != [] {
      NormalClean(ms[0].value);
      MembersNormalClean(ms[1..]);
      assert ms == [ms[0]] + ms[1..];
    }
  }

  // ---- The round trip through a file ----

  lemma {:induction false} WholeLine(s: string)
    requires Clean(s)
    ensures FirstLine(s) == s
  {
    if s != "" {
      WholeLine(s[1..]);
    }
  }

  /** A written tree comes back from a file exactly when it is nested at most to the limit and no string or key in
      it holds the byte that ends the stream. */
  lemma StreamRoundTrip(v: Value, root: Value, reals: string -> bool)
    requires Writable(v)
    ensures var r := Parse(FirstLine(Text(v) + "\n"), root, reals);
            Ok(r) && SameTree(v, r.value) <==> Depth(v) <= 1000 && CleanValue(v)
  {
    hide Parse, Text, Normal, Depth, CleanValue, Writable, FirstLine, SameTree;
    var read := Parse(FirstLine(Text(v) + "\n"), root, reals);
    NormalIsSame(v);
    if Ok(read) && SameTree(v, read.value) {
      SameIsNormal(v, read.value);
    }
    NormalClean(v);
    var s := Text(v) + "\n";
    if CleanValue(v) {
      TextClean(v);
      WholeLine(s);
      assert s == Text(v) + "\n" + "";
      RoundTrip(v, "", root, reals);
    } else {
      ParseClean(FirstLine(s), root, reals);
    }
  }

  lemma ParseClean(s: string, root: Value, reals: string -> bool)
    requires Clean(s)
    ensures CleanOutcome(Parse(s, root, reals))
  {
    ReadClean(s, 0, root, reals);
  }

  // ---- The configuration reader ----

  /** Reader::parse on a stream, holding all the characters of sin. */
  method ParseStream(reader: JsonReader.Reader, sin: string, root: Value) returns (ok: bool, thrown: bool, value: Value)
    modifies reader
    ensures var o := Parse(FirstLine(sin), root, reader.reals);
            && thrown == o.Thrown?
            && (o.Done? ==> ok == o.ok && value == o.value && reader.errors == o.errors)
  {
    ok, thrown, value := reader.Parse(FirstLine(sin), root);
  }

  class JsonParser {
    var root: Value

    constructor ()
      ensures root == Null
    {
      root := Null;
    }

    /** Parse: true exactly when the file is there and its text is read without an error; when the reader throws,
        so does this. */
    method Parse(file: Option<string>, reals: string -> bool) returns (ok: bool, thrown: bool)
      modifies this
      ensures file.None? ==> !ok && !thrown && root == old(root)
      ensures file.Some? ==>
                var o := JsonSyntax.Parse(FirstLine(file.value), old(root), reals);
                thrown == o.Thrown? && (o.Done? ==> ok == o.ok && root == o.value)
      ensures file.Some? && (exists v :: Writable(v) && Depth(v) <= 1000 && CleanValue(v)
                                     && file.value == Text(v) + "\n") ==>
                ok && !thrown && Writable(root) && Text(root) + "\n" == file.value
      ensures file.Some? && Clean(file.value) ==>
                forall v | Printable(v) && Respaced(EndOfStream, Text(v), file.value) ::
                  if Depth(v) <= 1000 then ok && !thrown && Says(v, root) else thrown
    {
      hide JsonSyntax.Parse, Writable, Depth, CleanValue, Text, FirstLine, Respaced, Printable, Says, SameTree;
      if file.None? {
        return false, false;
      }
      ghost var before := root;
      var reader := new JsonReader.Reader(reals);
      var value;
      ok, thrown, value := ParseStream(reader, file.value, root);
      if !thrown {
        root := value;
      }
      forall v | Writable(v) && Depth(v) <= 1000 && CleanValue(v) && file.value == Text(v) + "\n"
        ensures ok && !thrown && Writable(root) && Text(root) + "\n" == file.value
      {
        StreamRoundTrip(v, before, reals);
        SameIsNormal(v, root);
        NormalIsStable(v);
      }
      if Clean(file.value) {
        WholeLine(file.value);
        forall v | Printable(v) && Respaced(EndOfStream, Text(v), file.value)
          ensures if Depth(v) <= 1000 then ok && !thrown && Says(v, root) else thrown
        {
          SpacingReadsBack(v, file.value, before, reals);
        }
      }
    }
  }
}
