/** FastWriter: the text of a value, with null placeholders kept. */
module JsonWriter {
  import opened JsonNumber
  import opened JsonString
  import opened JsonKeys
  import opened JsonValue
  import opened JsonSyntax

  // ---- What the writer is given: no reals, integers of 64 bits, members in key order, and lengths that fit ----

  ghost predicate Sorted(members: seq<Member>) {
    forall i, j :: 0 <= i < j < |members| ==> KeyLess(members[i].key, members[j].key)
  }

  // A string is kept with its length before it and a terminator behind it, in fewer than 2^31 bytes, and the reader
  // counts the elements of an array in an int.
  ghost predicate Writable(v: Value) {
    match v
    case Int(i) => MIN_LARGEST_INT <= i <= MAX_LARGEST_INT
    case UInt(u) => u <= MAX_LARGEST_UINT
    case Real(_) => false
    case Str(s) => |s| <= 0x7fff_fffa
    case Array(elems) => |elems| < 0x8000_0000 && forall e <- elems :: Writable(e)
    case Object(members) =>
      && Sorted(members)
      && (forall m <- members :: |m.key| < KEY_LENGTH_LIMIT)
      && (forall m <- members :: Writable(m.value))
    case _ => true
  }

  ghost predicate AllWritable(vs: seq<Value>) { forall e <- vs :: Writable(e) }

  ghost predicate MembersWritable(ms: seq<Member>) {
    && Sorted(ms)
    && (forall m <- ms :: |m.key| < KEY_LENGTH_LIMIT)
    && (forall m <- ms :: Writable(m.value))
  }

  // ---- The same without an order of the members ----

  ghost predicate Printable(v: Value) {
    match v
    case Int(i) => MIN_LARGEST_INT <= i <= MAX_LARGEST_INT
    case UInt(u) => u <= MAX_LARGEST_UINT
    case Real(_) => false
    case Str(s) => |s| <= 0x7fff_fffa
    case Array(elems) => |elems| < 0x8000_0000 && forall e <- elems :: Printable(e)
    case Object(members) => MembersPrintable(members)
    case _ => true
  }

  ghost predicate AllPrintable(vs: seq<Value>) { forall e <- vs :: Printable(e) }

  ghost predicate MembersPrintable(ms: seq<Member>) {
    (forall m <- ms :: |m.key| < KEY_LENGTH_LIMIT) && forall m <- ms :: Printable(m.value)
  }

  lemma {:induction false} WritablePrints(v: Value)
    requires Writable(v)
    ensures Printable(v)
    decreases v
  {
    match v
    case Array(elems) =>
      forall e | e in elems ensures Printable(e) { WritablePrints(e); }
    case Object(members) =>
      forall m | m in members ensures Printable(m.value) { WritablePrints(m.value); }
    case _ =>
  }

  // ---- The text ----

  function Text(v: Value): (t: string)
    decreases v
  {
    match v
    case Null => "null"
    case Int(i) => IntText(i)
    case UInt(u) => IntText(u)
    case Real(text) => text
    case Str(s) => Quote(s)
    case Bool(b) => if b then "true" else "false"
    case Array(elems) => "[" + ElemsText(elems) + "]"
    case Object(members) => "{" + MembersText(members) + "}"
  }

  function ElemsText(vs: seq<Value>): string
    decreases vs
  {
    if vs == [] then ""
    else if |vs| == 1 then Text(vs[0])
    else Text(vs[0]) + "," + ElemsText(vs[1..])
  }

  function MemberText(m: Member): string
    decreases m
  {
    Quote(m.key) + ":" + Text(m.value)
  }

  function MembersText(ms: seq<Member>): string
    decreases ms
  {
    if ms == [] then ""
    else if |ms| == 1 then MemberText(ms[0])
    else MemberText(ms[0]) + "," + MembersText(ms[1..])
  }

  // What a loop over the elements, or members, still has to write at place i.
  function ElemsRest(vs: seq<Value>, i: nat): string
    requires i <= |vs|
  {
    if i == 0 then ElemsText(vs) else if i == |vs| then "" else "," + ElemsText(vs[i..])
  }

  function MembersRest(ms: seq<Member>, i: nat): string
    requires i <= |ms|
  {
    if i == 0 then MembersText(ms) else if i == |ms| then "" else "," + MembersText(ms[i..])
  }

  lemma ElemsRestStep(vs: seq<Value>, i: nat)
    requires i < |vs|
    ensures ElemsRest(vs, i) == (if i > 0 then "," else "") + Text(vs[i]) + ElemsRest(vs, i + 1)
  {
    hide Text;
    assert vs[i..][1..] == vs[i + 1..] && vs[0..] == vs;
    if i + 1 < |vs| {
      assert ElemsText(vs[i..]) == Text(vs[i]) + "," + ElemsText(vs[i + 1..]);
      assert Text(vs[i]) + "," + ElemsText(vs[i + 1..]) == Text(vs[i]) + ElemsRest(vs, i + 1);
    } else {
      assert ElemsText(vs[i..]) == Text(vs[i]);
      assert Text(vs[i]) + "" == Text(vs[i]);
    }
    if i == 0 {
      assert "" + Text(vs[i]) == Text(vs[i]);
    }
  }

  lemma MembersRestStep(ms: seq<Member>, i: nat)
    requires i < |ms|
    ensures MembersRest(ms, i) == (if i > 0 then "," else "") + MemberText(ms[i]) + MembersRest(ms, i + 1)
  {
    hide MemberText;
    assert ms[i..][1..] == ms[i + 1..] && ms[0..] == ms;
    if i + 1 < |ms| {
      assert MembersText(ms[i..]) == MemberText(ms[i]) + "," + MembersText(ms[i + 1..]);
      assert MemberText(ms[i]) + "," + MembersText(ms[i + 1..]) == MemberText(ms[i]) + MembersRest(ms, i + 1);
    } else {
      assert MembersText(ms[i..]) == MemberText(ms[i]);
      assert MemberText(ms[i]) + "" == MemberText(ms[i]);
    }
    if i == 0 {
      assert "" + MemberText(ms[i]) == MemberText(ms[i]);
    }
  }

  // value[name] finds the member itself, the keys being in strict order.
  lemma {:induction false} LookupSorted(ms: seq<Member>, i: nat)
    requires Sorted(ms) && i < |ms|
    ensures Lookup(ms, ms[i].key) == ms[i].value
  {
    if i > 0 {
      KeyTrichotomy(ms[0].key, ms[i].key);
      LookupSorted(ms[1..], i - 1);
    }
  }

  class FastWriter {
    var document: string
    var omitEndingLineFeed: bool

    constructor ()
      ensures document == "" && !omitEndingLineFeed
    {
      document, omitEndingLineFeed := "", false;
    }

    /** write. */
    method Write(root: Value) returns (text: string)
      requires Writable(root)
      modifies this`document
      ensures text == document == Text(root) + (if omitEndingLineFeed then "" else "\n")
    {
      hide Text, Writable;
      document := "";
      WriteValue(root);
      assert "" + Text(root) == Text(root);
      if !omitEndingLineFeed {
        document := document + "\n";
      } else {
        assert Text(root) + "" == Text(root);
      }
      return document;
    }

    /** writeValue appends the text of the value. */
    method WriteValue(value: Value)
      requires Writable(value)
      modifies this`document
      ensures document == old(document) + Text(value)
      decreases value, 1
    {
      match value
      case Null =>
        document := document + "null";
      case Int(i) =>
        var digits := ValueToString(i);
        document := document + digits;
      case UInt(u) =>
        var digits := ValueToString(u);
        document := document + digits;
      case Str(s) =>
        var quoted := ValueToQuotedString(s);
        document := document + quoted;
      case Bool(b) =>
        document := document + (if b then "true" else "false");
      case Array(elems) =>
        WriteElems(elems);
      case Object(members) =>
        WriteMembers(members);
    }

    method WriteElems(elems: seq<Value>)
      requires AllWritable(elems)
      modifies this`document
      ensures document == old(document) + ("[" + ElemsText(elems) + "]")
      decreases elems, 0
    {
      hide Text, ElemsText, ElemsRest;
      ghost var before := document;
      document := document + "[";
      NoRest(elems);
      for index := 0 to |elems|
        invariant document + ElemsRest(elems, index) == before + "[" + ElemsText(elems)
      {
        ghost var d := document;
        ElemsRestStep(elems, index);
        Appended(d, index > 0, Text(elems[index]), ElemsRest(elems, index + 1));
        if index > 0 {
          document := document + ",";
        }
        WriteValue(elems[index]);
      }
      document := document + "]";
      Enclosed(before, "[", ElemsText(elems), "]");
    }

    // The document d, a comma perhaps, and a piece, before what is still to come.
    lemma Appended(d: string, comma: bool, piece: string, rest: string)
      ensures d + ((if comma then "," else "") + piece + rest) == (if comma then d + "," else d) + piece + rest
    {
    }

    lemma Enclosed(d: string, open: string, inside: string, close: string)
      ensures d + open + inside + "" + close == d + (open + inside + close)
      ensures d + open + inside + "" == d + open + inside
    {
    }

    lemma NoRest(elems: seq<Value>)
      ensures ElemsRest(elems, |elems|) == "" && ElemsRest(elems, 0) == ElemsText(elems)
    {
    }

    method WriteMembers(members: seq<Member>)
      requires MembersWritable(members)
      modifies this`document
      ensures document == old(document) + ("{" + MembersText(members) + "}")
      decreases members, 0, 1
    {
      hide Text, MembersText, MembersRest, Lookup;
      ghost var before := document;
      document := document + "{";
      NoMembersRest(members);
      for index := 0 to |members|
        invariant document + MembersRest(members, index) == before + "{" + MembersText(members)
      {
        ghost var d := document;
        MembersRestStep(members, index);
        Appended(d, index > 0, MemberText(members[index]), MembersRest(members, index + 1));
        if index > 0 {
          document := document + ",";
        }
        WriteMember(members, index);
      }
      document := document + "}";
      Enclosed(before, "{", MembersText(members), "}");
    }

    // One name, its colon and the value found under that name.
    method WriteMember(members: seq<Member>, index: nat)
      requires MembersWritable(members) && index < |members|
      modifies this`document
      ensures document == old(document) + MemberText(members[index])
      decreases members, 0, 0
    {
      hide Text, Lookup;
      LookupSorted(members, index);
      var name := members[index].key;
      assert Lookup(members, name) == members[index].value;
      var quoted := ValueToQuotedString(name);
      document := document + quoted;
      document := document + ":";
      WriteValue(members[index].value);
    }

    lemma NoMembersRest(members: seq<Member>)
      ensures MembersRest(members, |members|) == "" && MembersRest(members, 0) == MembersText(members)
    {
    }
  }
}
