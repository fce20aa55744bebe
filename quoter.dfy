/** The field quoter: turns a string into a quoted hstore field. */
module Quoter {

  /** A character the quoter must protect with a backslash. */
  predicate NeedsEscape(c: char)
  {
    c == '"' || c == '\\'
  }

  /** Number of characters of `s` the quoter protects. */
  function CountEscaped(s: string): nat
  {
    if s == [] then 0 else (if NeedsEscape(s[0]) then 1 else 0) + CountEscaped(s[1..])
  }

  /** Escapes every backslash as `\\` and every double quote as `\"`; every
      other character, whitespace included, passes through unchanged. */
  function Escape(s: string): (r: string)
    ensures |r| == |s| + CountEscaped(s)
    ensures CountEscaped(s) == 0 ==> r == s
  {
    if s == [] then []
    else (if NeedsEscape(s[0]) then ['\\', s[0]] else [s[0]]) + Escape(s[1..])
  }

  /** The quoted field for `s`: `s` escaped and wrapped in double quotes. */
  function Quote(s: string): (r: string)
    ensures |r| == |s| + CountEscaped(s) + 2
    ensures r[0] == '"' && r[|r| - 1] == '"'
  {
    "\"" + Escape(s) + "\""
  }
}
