/** The decoder: parses one hstore literal into an ordered mapping. */
module Decoder {
  import opened HstoreValue
  import opened Scanner

  /** ASCII lower case, as the null check compares case-insensitively. */
  function Lower(c: char): char
  {
    if 'A' <= c <= 'Z' then (c as int - 'A' as int + 'a' as int) as char else c
  }

  /** `w` is the word `null` in any mix of upper and lower case. */
  predicate IsNullWord(w: string)
  {
    |w| == 4 && Lower(w[0]) == 'n' && Lower(w[1]) == 'u' && Lower(w[2]) == 'l' && Lower(w[3]) == 'l'
  }

  /** The value a scanned value field stands for: only a BARE field spelling
      `null` is the null marker; quoting always gives a string. */
  function Interpret(f: Field): (v: Value)
    ensures v == Null <==> !f.quoted && IsNullWord(f.content)
    ensures v.Str? ==> v.s == f.content
  {
    if !f.quoted && IsNullWord(f.content) then Null else Str(f.content)
  }

  /** Reads one pair: a key field, `=>` (whitespace around it skipped), a
      value field, and the whitespace after it. Gives the pair and the input
      that follows. */
  function ParseEntry(s: string): (r: Result<(Entry, string)>)
    ensures r.Ok? ==> |r.value.1| < |s|
    ensures r.Ok? ==> r.value.1 == [] || !IsSpace(r.value.1[0])
  {
    match ReadField(s, Arrow)
    case Err(e) => Err(e)
    case Ok((key, afterKey)) =>
      var u := SkipSpace(afterKey);
      if !AtTerminator(u, Arrow) then Err(MissingSeparator)
      else
        match ReadField(u[2..], CommaOrEnd)
        case Err(e) => Err(e)
        case Ok((val, afterValue)) => Ok(((key.content, Interpret(val)), SkipSpace(afterValue)))
  }

  /** Puts `e` in front of the pairs read after it. */
  function Cons(e: Entry, r: Result<seq<Entry>>): Result<seq<Entry>>
  {
    match r
    case Ok(es) => Ok([e] + es)
    case Err(x) => Err(x)
  }

  /** Reads pairs until the input is used up. After each pair, one `,` is
      consumed if present, and reading goes on while input remains; a `,`
      after the last pair is allowed and whitespace between tokens is
      skipped. A bare value runs up to the next `,` or the end, so the
      separator can be missing only after a quoted value. */
  function ParseEntries(s: string): Result<seq<Entry>>
    decreases |s|
  {
    var t := SkipSpace(s);
    if t == [] then Ok([])
    else
      match ParseEntry(t)
      case Err(e) => Err(e)
      case Ok(p) =>
        var rest := p.1;
        if rest == [] then Ok([p.0])
        else if rest[0] != ',' then Cons(p.0, ParseEntries(rest))
        else Cons(p.0, ParseEntries(rest[1..]))
  }

  /** Only whitespace, or nothing at all, reads as no pairs; any other
      input gives at least one pair or an error. */
  lemma ParseEntriesEmpty(s: string)
    ensures ParseEntries(s) == Ok([]) <==> AllSpace(s)
  {
    SkipSpaceDrops(s);
  }

  /** Decodes one hstore literal into a mapping with distinct keys in
      first-occurrence order, where a repeated key holds its last value. */
  function Decode(s: string): (r: Result<seq<Entry>>)
    ensures r.Ok? ==> DistinctKeys(r.value)
  {
    match ParseEntries(s)
    case Err(e) => Err(e)
    case Ok(ps) =>
      BuildLastWins(ps, "");
      Ok(Build(ps))
  }

  /** Decoding fails exactly when reading the pairs fails; otherwise every
      key read is in the result once, at the position of its first
      occurrence and holding the value of its last occurrence. */
  lemma DecodeLastWins(s: string, k: string)
    ensures Decode(s).Err? <==> ParseEntries(s).Err?
    ensures ParseEntries(s).Ok? ==> Keys(Decode(s).value) == Keys(ParseEntries(s).value)
    ensures ParseEntries(s).Ok? ==> Lookup(Decode(s).value, k) == LastValue(ParseEntries(s).value, k)
    ensures ParseEntries(s).Ok? ==> KeyList(Decode(s).value) == FirstKeys(ParseEntries(s).value)
  {
    if ParseEntries(s).Ok? {
      BuildLastWins(ParseEntries(s).value, k);
      BuildKeyOrder(ParseEntries(s).value);
    }
  }

  /** Empty and whitespace-only input decode to the empty mapping, and
      nothing else does. */
  lemma DecodeEmpty(s: string)
    ensures Decode(s) == Ok([]) <==> AllSpace(s)
  {
    ParseEntriesEmpty(s);
    match ParseEntries(s)
    case Err(_) =>
    case Ok(ps) =>
      if ps != [] {
        assert ps[|ps| - 1].0 in Keys(ps) by { KeysIndex(ps, ps[|ps| - 1].0); }
      }
  }
}
