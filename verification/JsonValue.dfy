/** JSON values as the reader and the writer see them. */
module JsonValue {
  // An array's index map is dense here, and an object's map is its members in key order.
  // A real is kept as the text it was read from.
  datatype Value =
    | Null
    | Int(i: int)
    | UInt(u: nat)
    | Real(text: string)
    | Str(s: string)
    | Bool(b: bool)
    | Array(elems: seq<Value>)
    | Object(members: seq<Member>)

  datatype Member = Member(key: string, value: Value)
}
