/** The token scanner: reads one key or value field of an hstore literal.

    The cursor is the unread suffix of the input; every scanning function
    takes it and gives back what remains after the field. */
module Scanner {
  import opened HstoreValue

  /** The whitespace the decoder skips: space, tab, newline, carriage return. */
  predicate IsSpace(c: char)
  {
    c == ' ' || c == '\t' || c == '\n' || c == '\r'
  }

  predicate AllSpace(s: string)
  {
    forall i :: 0 <= i < |s| ==> IsSpace(s[i])
  }

  /** Drops the leading whitespace of `s`. */
  function SkipSpace(s: string): (r: string)
    ensures |r| <= |s|
    ensures r == [] || !IsSpace(r[0])
  {
    if s != [] && IsSpace(s[0]) then SkipSpace(s[1..]) else s
  }

  /** What `SkipSpace` drops is whitespace, so it drops everything exactly
      when the input is whitespace only. */
  lemma SkipSpaceDrops(s: string)
    ensures SkipSpace(s) == s[|s| - |SkipSpace(s)|..]
    ensures forall i :: 0 <= i < |s| - |SkipSpace(s)| ==> IsSpace(s[i])
    ensures SkipSpace(s) == [] <==> AllSpace(s)
  {
    SkippedIsSpace(s);
    var r := SkipSpace(s);
    if r != [] {
      assert r[0] == s[|s| - |r|];
    }
  }

  lemma {:induction false} SkippedIsSpace(s: string)
    ensures SkipSpace(s) == s[|s| - |SkipSpace(s)|..]
    ensures forall i :: 0 <= i < |s| - |SkipSpace(s)| ==> IsSpace(s[i])
  {
    if s != [] && IsSpace(s[0]) {
      SkippedIsSpace(s[1..]);
      forall i | 0 < i < |s| - |SkipSpace(s)| ensures IsSpace(s[i]) {
        assert s[i] == s[1..][i - 1];
      }
    }
  }

  /** What ends a bare field: `=>` for a key, `,` or the end of the input for
      a value. */
  datatype Terminator = Arrow | CommaOrEnd

  predicate AtTerminator(s: string, t: Terminator)
  {
    match t
    case Arrow => |s| >= 2 && s[0] == '=' && s[1] == '>'
    case CommaOrEnd => s == [] || s[0] == ','
  }

  /** A scanned field: its content with escapes resolved, and whether it was
      written in double quotes. */
  datatype Field = Field(content: string, quoted: bool)

  /** Puts `c` in front of the content of a successfully scanned field. */
  function Prepend(c: char, r: Result<(string, string)>): Result<(string, string)>
  {
    match r
    case Ok(p) => Ok(([c] + p.0, p.1))
    case Err(e) => Err(e)
  }

  /** Reads the body of a quoted field; `s` starts just after the opening
      quote. A backslash takes the next character literally (so `\"` gives
      `"` and `\\` gives `\`); the first unescaped `"` closes the field and
      the rest of the input follows it. */
  function ScanQuoted(s: string): (r: Result<(string, string)>)
    ensures r.Ok? ==> |r.value.1| < |s|
    ensures r.Err? ==> r.error == UnterminatedQuote
  {
    if s == [] then Err(UnterminatedQuote)
    else if s[0] == '"' then Ok(([], s[1..]))
    else if s[0] == '\\' then
      if |s| == 1 then Err(UnterminatedQuote)
      else Prepend(s[1], ScanQuoted(s[2..]))
    else Prepend(s[0], ScanQuoted(s[1..]))
  }

  /** Reads a bare field up to its terminator, which it leaves unread. A
      backslash takes the next character literally, so an escaped character
      never ends the field and is never trimmed; unescaped whitespace right
      before the terminator is dropped. */
  function ScanBare(s: string, t: Terminator): (r: Result<(string, string)>)
    ensures r.Ok? ==> |r.value.1| <= |s| && AtTerminator(r.value.1, t)
    ensures r.Ok? && !AtTerminator(s, t) ==> |r.value.1| < |s|
    ensures r.Err? ==> r.error == MalformedEntry || (t == Arrow && r.error == MissingSeparator)
  {
    if AtTerminator(s, t) then Ok(([], s))
    else if s == [] then Err(MissingSeparator)
    else if s[0] == '\\' then
      if |s| == 1 then Err(MalformedEntry)
      else Prepend(s[1], ScanBare(s[2..], t))
    else
      var r := ScanBare(s[1..], t);
      if IsSpace(s[0]) && r.Ok? && r.value.0 == [] then r else Prepend(s[0], r)
  }

  /** Tags a scanned content with whether its field was quoted. */
  function AsField(r: Result<(string, string)>, quoted: bool): Result<(Field, string)>
  {
    match r
    case Ok(p) => Ok((Field(p.0, quoted), p.1))
    case Err(e) => Err(e)
  }

  /** Reads the next field: skips whitespace, then a quoted field if the next
      character is `"`, otherwise a bare field ending at `t`. A bare field
      with no characters at all is malformed. */
  function ReadField(s: string, t: Terminator): (r: Result<(Field, string)>)
    ensures r.Ok? ==> |r.value.1| < |s|
    ensures r.Ok? && !r.value.0.quoted ==> AtTerminator(r.value.1, t)
  {
    var u := SkipSpace(s);
    if u != [] && u[0] == '"' then AsField(ScanQuoted(u[1..]), true)
    else if AtTerminator(u, t) then Err(MalformedEntry)
    else AsField(ScanBare(u, t), false)
  }
}
