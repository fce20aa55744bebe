/** The encoder: renders a mapping as one hstore literal. */
module Encoder {
  import opened HstoreValue
  import opened Quoter

  /** A value as it appears in the literal: a null marker is the bare word
      `NULL`, a string is always quoted. */
  function EncodeValue(v: Value): (r: string)
    ensures v.Null? <==> r == "NULL"
    ensures v.Str? ==> r == Quote(v.s)
  {
    match v
    case Null => "NULL"
    case Str(s) => Quote(s)
  }

  /** One pair: the quoted key, `=>`, the encoded value. */
  function EncodeEntry(e: Entry): string
  {
    Quote(e.0) + "=>" + EncodeValue(e.1)
  }

  /** The pairs in the mapping's order, joined by `", "`, with no separator
      before the first or after the last; the empty mapping gives the empty
      string. */
  function Encode(m: seq<Entry>): (r: string)
    ensures r == [] <==> m == []
  {
    if m == [] then ""
    else if |m| == 1 then EncodeEntry(m[0])
    else EncodeEntry(m[0]) + ", " + Encode(m[1..])
  }
}
