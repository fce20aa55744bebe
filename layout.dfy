/** The ways one mapping can be written as an hstore literal, and the proof
    that the decoder reads every one of them back as that mapping: keys and
    values quoted or bare, with any characters backslash-escaped (inside
    quotes, `"` and `\` always are), any whitespace around keys, `=>`,
    values and separators, the null marker spelled in any case, and one
    optional trailing comma. The encoder's output is one such writing,
    which gives the round trip. */
module Layout {
  import opened HstoreValue
  import opened Quoter
  import opened Scanner
  import opened Decoder
  import opened Encoder

  /** How a field is written: in double quotes, or bare, with a backslash in
      front of each character marked in `escaped`. */
  datatype Form = Quoted(escaped: seq<bool>) | Bare(escaped: seq<bool>)

  /** The text between the quotes of a quoted field with content `x`: every
      `"` and `\` escaped, as the encoder writes them, and any other
      character escaped where `esc` marks it (characters past the end of
      `esc` are not marked). */
  function QuotedText(x: string, esc: seq<bool>): string
  {
    if x == [] then []
    else
      var e := NeedsEscape(x[0]) || (|esc| > 0 && esc[0]);
      (if e then ['\\', x[0]] else [x[0]]) + QuotedText(x[1..], if esc == [] then [] else esc[1..])
  }

  /** With no extra marks, the inside of a quoted field is what `Quote`
      writes between its quotes. */
  lemma {:induction false} QuotedTextEscape(x: string)
    ensures QuotedText(x, []) == Escape(x)
    ensures "\"" + QuotedText(x, []) + "\"" == Quote(x)
  {
    if x != [] {
      QuotedTextEscape(x[1..]);
      var head := if NeedsEscape(x[0]) then ['\\', x[0]] else [x[0]];
      assert Escape(x) == head + Escape(x[1..]);
    }
  }

  /** The raw text of a bare field with content `x`. */
  function BareText(x: string, esc: seq<bool>): string
  {
    if x == [] then []
    else
      var e := |esc| > 0 && esc[0];
      (if e then ['\\', x[0]] else [x[0]]) + BareText(x[1..], if esc == [] then [] else esc[1..])
  }

  /** What each character of a bare field must avoid unless escaped: a
      backslash, the start of its terminator, and being whitespace at the
      very end (which the scanner would trim). */
  predicate BareTail(x: string, esc: seq<bool>, t: Terminator)
    decreases |x|
  {
    && |esc| == |x|
    && (x != [] ==>
         && (!esc[0] ==>
              && x[0] != '\\'
              && (t == CommaOrEnd ==> x[0] != ',')
              && (|x| == 1 ==> !IsSpace(x[0]))
              && (t == Arrow && |x| > 1 && !esc[1] ==> !(x[0] == '=' && x[1] == '>')))
         && BareTail(x[1..], esc[1..], t))
  }

  /** A bare field with nothing escaped is its content verbatim. */
  lemma {:induction false} PlainText(x: string, esc: seq<bool>)
    requires |esc| == |x| && forall i :: 0 <= i < |esc| ==> !esc[i]
    ensures BareText(x, esc) == x
  {
    if x != [] {
      PlainText(x[1..], esc[1..]);
      assert x == [x[0]] + x[1..];
    }
  }

  /** A bare field that reads back as `x`: non-empty, and not starting with
      unescaped whitespace (skipped) or an unescaped `"` (a quoted field). */
  predicate BareWritable(x: string, esc: seq<bool>, t: Terminator)
  {
    BareTail(x, esc, t) && |x| > 0 && (!esc[0] ==> !IsSpace(x[0]) && x[0] != '"')
  }

  function FieldText(x: string, f: Form): string
  {
    match f
    case Quoted(esc) => "\"" + QuotedText(x, esc) + "\""
    case Bare(esc) => BareText(x, esc)
  }

  predicate FormOk(x: string, f: Form, t: Terminator)
  {
    f.Bare? ==> BareWritable(x, f.escaped, t)
  }

  /** How one pair is written: the whitespace before the key, around `=>`
      and after the value, the form of the key and of the value, and the
      spelling of `null` used when the value is the null marker. */
  datatype Spelling = Spelling(
    lead: string, keyForm: Form, beforeArrow: string, afterArrow: string,
    valueForm: Form, nullWord: string, trail: string)

  function ValueText(v: Value, sp: Spelling): string
  {
    match v
    case Null => FieldText(sp.nullWord, sp.valueForm)
    case Str(x) => FieldText(x, sp.valueForm)
  }

  /** The pair without its leading whitespace. */
  function EntryBody(e: Entry, sp: Spelling): string
  {
    FieldText(e.0, sp.keyForm) + sp.beforeArrow + "=>" + sp.afterArrow + ValueText(e.1, sp) + sp.trail
  }

  function EntryText(e: Entry, sp: Spelling): string
  {
    sp.lead + EntryBody(e, sp)
  }

  /** `sp` is a writing of `e` the decoder reads back as `e`: the padding is
      whitespace, bare fields are writable, a null marker is a bare null word
      and a bare string is not one. */
  predicate Writable(e: Entry, sp: Spelling)
  {
    && AllSpace(sp.lead) && AllSpace(sp.beforeArrow) && AllSpace(sp.afterArrow) && AllSpace(sp.trail)
    && FormOk(e.0, sp.keyForm, Arrow)
    && match e.1
       case Null => sp.valueForm.Bare? && IsNullWord(sp.nullWord) && FormOk(sp.nullWord, sp.valueForm, CommaOrEnd)
       case Str(x) => FormOk(x, sp.valueForm, CommaOrEnd) && (sp.valueForm.Bare? ==> !IsNullWord(x))
  }

  /** Every pair is written in a way that reads back. */
  predicate AllWritable(m: seq<Entry>, sps: seq<Spelling>)
    requires |sps| == |m|
  {
    m == [] || (Writable(m[0], sps[0]) && AllWritable(m[1..], sps[1..]))
  }

  lemma AllWritableRest(m: seq<Entry>, sps: seq<Spelling>)
    requires |sps| == |m| && m != [] && AllWritable(m, sps)
    ensures Writable(m[0], sps[0]) && AllWritable(m[1..], sps[1..])
  {
  }

  /** A whole literal: the pairs joined by `,`, then an optional trailing
      `,`, then `last`. */
  function Render(m: seq<Entry>, sps: seq<Spelling>, comma: bool, last: string): string
    requires |sps| == |m|
  {
    if m == [] then last
    else if |m| == 1 then EntryText(m[0], sps[0]) + (if comma then "," else "") + last
    else EntryText(m[0], sps[0]) + "," + Render(m[1..], sps[1..], comma, last)
  }

  // ---------------------------------------------------------------------
  // Scanning lemmas

  lemma {:induction false} SkipSpacePrefix(ws: string, r: string)
    requires AllSpace(ws)
    requires r == [] || !IsSpace(r[0])
    ensures SkipSpace(ws + r) == r
  {
    if ws != [] {
      assert (ws + r)[1..] == ws[1..] + r;
      SkipSpacePrefix(ws[1..], r);
    }
  }

  /** The inside of a quoted field, however its characters are escaped,
      reads back as exactly `x` up to the closing quote, and the input after
      that quote is left untouched. */
  lemma {:induction false} ScanQuotedText(x: string, esc: seq<bool>, rest: string)
    ensures ScanQuoted(QuotedText(x, esc) + "\"" + rest) == Ok((x, rest))
  {
    var s := QuotedText(x, esc) + "\"" + rest;
    if x == [] {
      assert s == "\"" + rest;
    } else {
      var esc' := if esc == [] then [] else esc[1..];
      var tail := QuotedText(x[1..], esc') + "\"" + rest;
      ScanQuotedText(x[1..], esc', rest);
      var e := NeedsEscape(x[0]) || (|esc| > 0 && esc[0]);
      var head := if e then ['\\', x[0]] else [x[0]];
      assert QuotedText(x, esc) == head + QuotedText(x[1..], esc');
      assert s == head + tail;
      if e {
        assert s[0] == '\\' && s[1] == x[0] && s[2..] == tail;
        assert ScanQuoted(s) == Prepend(x[0], ScanQuoted(tail));
      } else {
        assert s[0] == x[0] && s[1..] == tail;
        assert ScanQuoted(s) == Prepend(x[0], ScanQuoted(tail));
      }
      assert x == [x[0]] + x[1..];
    }
  }

  /** Unescaped whitespace right before a terminator is no content. */
  lemma {:induction false} ScanBareSpaces(ws: string, rest: string, t: Terminator)
    requires AllSpace(ws) && AtTerminator(rest, t)
    ensures ScanBare(ws + rest, t) == Ok(([], rest))
  {
    if ws == [] {
      assert ws + rest == rest;
    } else {
      var s := ws + rest;
      assert s[0] == ws[0] && s[1..] == ws[1..] + rest;
      ScanBareSpaces(ws[1..], rest, t);
    }
  }

  lemma {:induction false} BareTextHead(x: string, esc: seq<bool>)
    requires |esc| == |x| && x != []
    ensures BareText(x, esc) == (if esc[0] then ['\\', x[0]] else [x[0]]) + BareText(x[1..], esc[1..])
    ensures |BareText(x, esc)| >= 1
  {
  }

  lemma BareTailRest(x: string, esc: seq<bool>, t: Terminator)
    requires BareTail(x, esc, t) && x != []
    ensures BareTail(x[1..], esc[1..], t)
  {
  }

  /** A written bare field does not start with its own terminator. */
  lemma BareTextNotAtTerminator(x: string, esc: seq<bool>, ws: string, rest: string, t: Terminator)
    requires BareTail(x, esc, t) && AllSpace(ws) && AtTerminator(rest, t) && x != []
    ensures !AtTerminator(BareText(x, esc) + ws + rest, t)
  {
    var s := BareText(x, esc) + ws + rest;
    BareTextHead(x, esc);
    var tail := BareText(x[1..], esc[1..]) + ws + rest;
    if !esc[0] {
      assert s == [x[0]] + tail;
      if t == Arrow && x[0] == '=' {
        if |x| > 1 {
          BareTextHead(x[1..], esc[1..]);
          assert !esc[1] ==> x[1] != '>';
          assert s[1] == tail[0];
        } else {
          assert tail == ws + rest;
          assert ws != [] ==> IsSpace(tail[0]);
        }
      }
    } else {
      assert s == ['\\', x[0]] + tail;
    }
  }

  lemma ScanBareEscaped(c: char, tail: string, t: Terminator)
    ensures ScanBare(['\\', c] + tail, t) == Prepend(c, ScanBare(tail, t))
  {
    var s := ['\\', c] + tail;
    assert s[0] == '\\' && s[1] == c && s[2..] == tail;
  }

  lemma ScanBarePlain(c: char, tail: string, t: Terminator)
    requires c != '\\' && !AtTerminator([c] + tail, t)
    requires !IsSpace(c) || ScanBare(tail, t).Err? || ScanBare(tail, t).value.0 != []
    ensures ScanBare([c] + tail, t) == Prepend(c, ScanBare(tail, t))
  {
    var s := [c] + tail;
    assert s[0] == c && s[1..] == tail;
  }

  /** A bare field written with `BareText`, followed by whitespace and its
      terminator, reads back as its content. */
  lemma {:induction false} ScanBareText(x: string, esc: seq<bool>, ws: string, rest: string, t: Terminator)
    requires BareTail(x, esc, t) && AllSpace(ws) && AtTerminator(rest, t)
    ensures ScanBare(BareText(x, esc) + ws + rest, t) == Ok((x, rest))
  {
    if x == [] {
      assert BareText(x, esc) + ws + rest == ws + rest;
      ScanBareSpaces(ws, rest, t);
    } else {
      BareTailRest(x, esc, t);
      ScanBareText(x[1..], esc[1..], ws, rest, t);
      var tail := BareText(x[1..], esc[1..]) + ws + rest;
      BareTextSplit(x, esc, tail, ws, rest);
      if esc[0] {
        ScanBareEscapedStep(x, tail, t);
      } else {
        BareTextNotAtTerminator(x, esc, ws, rest, t);
        ScanBarePlainStep(x, tail, t);
      }
    }
  }

  lemma BareTextSplit(x: string, esc: seq<bool>, tail: string, ws: string, rest: string)
    requires |esc| == |x| && x != [] && tail == BareText(x[1..], esc[1..]) + ws + rest
    ensures BareText(x, esc) + ws + rest == (if esc[0] then ['\\', x[0]] else [x[0]]) + tail
  {
    var head := if esc[0] then ['\\', x[0]] else [x[0]];
    var b := BareText(x[1..], esc[1..]);
    BareTextHead(x, esc);
    ConcatAssoc(head, b, ws, rest);
  }

  /** Regrouping the pieces of `BareTextSplit`, in a context of its own:
      inside that lemma the same step runs out of resource. */
  lemma ConcatAssoc(h: string, b: string, ws: string, rest: string)
    ensures (h + b) + ws + rest == h + (b + ws + rest)
  {
  }

  /** An escaped character is content, whatever it is. */
  lemma ScanBareEscapedStep(x: string, tail: string, t: Terminator)
    requires x != [] && ScanBare(tail, t).Ok? && ScanBare(tail, t).value.0 == x[1..]
    ensures ScanBare(['\\', x[0]] + tail, t) == Ok((x, ScanBare(tail, t).value.1))
  {
    ScanBareEscaped(x[0], tail, t);
    assert x == [x[0]] + x[1..];
  }

  /** An unescaped character that is no terminator and no trailing
      whitespace is content. */
  lemma ScanBarePlainStep(x: string, tail: string, t: Terminator)
    requires x != [] && x[0] != '\\' && !AtTerminator([x[0]] + tail, t)
    requires |x| == 1 ==> !IsSpace(x[0])
    requires ScanBare(tail, t).Ok? && ScanBare(tail, t).value.0 == x[1..]
    ensures ScanBare([x[0]] + tail, t) == Ok((x, ScanBare(tail, t).value.1))
  {
    ScanBarePlain(x[0], tail, t);
    assert x == [x[0]] + x[1..];
  }

  lemma ReadQuotedText(ws: string, x: string, esc: seq<bool>, ws2: string, rest: string, t: Terminator)
    requires AllSpace(ws) && AllSpace(ws2) && (rest == [] || !IsSpace(rest[0]))
    ensures ReadField(ws + FieldText(x, Quoted(esc)) + ws2 + rest, t) == Ok((Field(x, true), ws2 + rest))
  {
    var q := QuotedText(x, esc);
    var after := ws2 + rest;
    var body := "\"" + (q + "\"" + after);
    assert ws + FieldText(x, Quoted(esc)) + ws2 + rest == ws + body;
    SkipSpacePrefix(ws, body);
    assert body[1..] == q + "\"" + after;
    ScanQuotedText(x, esc, after);
  }

  lemma ReadBareText(ws: string, x: string, esc: seq<bool>, ws2: string, rest: string, t: Terminator)
    requires AllSpace(ws) && AllSpace(ws2) && AtTerminator(rest, t) && BareWritable(x, esc, t)
    ensures ReadField(ws + BareText(x, esc) + ws2 + rest, t) == Ok((Field(x, false), rest))
  {
    var s := ws + BareText(x, esc) + ws2 + rest;
    var body := BareText(x, esc) + ws2 + rest;
    assert s == ws + body;
    BareTextHead(x, esc);
    BareTextNotAtTerminator(x, esc, ws2, rest, t);
    ScanBareText(x, esc, ws2, rest, t);
    SkipSpacePrefix(ws, body);
    assert body[0] != '"';
  }

  /** A field in any writable form, after any whitespace, and followed by
      whitespace and its terminator, is read as its content, with the form's
      quotedness; the next token after it is the terminator. */
  lemma ReadFieldText(ws: string, x: string, f: Form, ws2: string, rest: string, t: Terminator)
    requires AllSpace(ws) && AllSpace(ws2) && AtTerminator(rest, t) && FormOk(x, f, t)
    ensures ReadField(ws + FieldText(x, f) + ws2 + rest, t).Ok?
    ensures ReadField(ws + FieldText(x, f) + ws2 + rest, t).value.0 == Field(x, f.Quoted?)
    ensures SkipSpace(ReadField(ws + FieldText(x, f) + ws2 + rest, t).value.1) == rest
  {
    assert rest == [] || !IsSpace(rest[0]);
    match f
    case Quoted(esc) =>
      ReadQuotedText(ws, x, esc, ws2, rest, t);
      SkipSpacePrefix(ws2, rest);
    case Bare(esc) =>
      ReadBareText(ws, x, esc, ws2, rest, t);
      SkipSpacePrefix([], rest);
      assert [] + rest == rest;
  }

  predicate IsLetter(c: char)
  {
    'A' <= c <= 'Z' || 'a' <= c <= 'z'
  }

  /** Letters need no escaping in a bare field. */
  lemma {:induction false} LettersTail(x: string, esc: seq<bool>, t: Terminator)
    requires |esc| == |x| && forall i :: 0 <= i < |x| ==> IsLetter(x[i])
    ensures BareTail(x, esc, t)
  {
    if x != [] {
      assert forall i :: 0 <= i < |x| - 1 ==> x[1..][i] == x[i + 1];
      LettersTail(x[1..], esc[1..], t);
    }
  }

  /** A null word is plain letters, so it can be written bare, with or
      without escapes. */
  lemma NullWordPlain(w: string, esc: seq<bool>)
    requires IsNullWord(w) && |esc| == 4
    ensures BareWritable(w, esc, CommaOrEnd)
  {
    LettersTail(w, esc, CommaOrEnd);
  }

  // ---------------------------------------------------------------------
  // Reading pairs and whole literals back

  /** One written pair is read back as that pair, and the decoder stops
      right before whatever follows it (a `,` or the end). */
  lemma {:induction false} ParseEntryText(e: Entry, sp: Spelling, rest: string)
    requires Writable(e, sp)
    requires rest == [] || rest[0] == ','
    ensures ParseEntry(EntryBody(e, sp) + rest) == Ok((e, rest))
  {
    var r := sp.afterArrow + ValueText(e.1, sp) + sp.trail + rest;
    assert EntryBody(e, sp) + rest == FieldText(e.0, sp.keyForm) + sp.beforeArrow + ("=>" + r);
    ReadKeyText(e, sp, "=>" + r);
    assert ("=>" + r)[2..] == r;
    ReadValueText(e, sp, rest);
  }

  /** The key of a written pair is read back as that key, up to its `=>`. */
  lemma ReadKeyText(e: Entry, sp: Spelling, r: string)
    requires Writable(e, sp) && AtTerminator(r, Arrow)
    ensures ReadField(FieldText(e.0, sp.keyForm) + sp.beforeArrow + r, Arrow).Ok?
    ensures ReadField(FieldText(e.0, sp.keyForm) + sp.beforeArrow + r, Arrow).value.0.content == e.0
    ensures SkipSpace(ReadField(FieldText(e.0, sp.keyForm) + sp.beforeArrow + r, Arrow).value.1) == r
  {
    assert [] + FieldText(e.0, sp.keyForm) == FieldText(e.0, sp.keyForm);
    ReadFieldText([], e.0, sp.keyForm, sp.beforeArrow, r, Arrow);
  }

  /** The value of a written pair, after `=>`, is read back as that value. */
  lemma ReadValueText(e: Entry, sp: Spelling, rest: string)
    requires Writable(e, sp)
    requires rest == [] || rest[0] == ','
    ensures ReadField(sp.afterArrow + ValueText(e.1, sp) + sp.trail + rest, CommaOrEnd).Ok?
    ensures Interpret(ReadField(sp.afterArrow + ValueText(e.1, sp) + sp.trail + rest, CommaOrEnd).value.0) == e.1
    ensures SkipSpace(ReadField(sp.afterArrow + ValueText(e.1, sp) + sp.trail + rest, CommaOrEnd).value.1) == rest
  {
    match e.1
    case Null =>
      ReadFieldText(sp.afterArrow, sp.nullWord, sp.valueForm, sp.trail, rest, CommaOrEnd);
    case Str(x) =>
      ReadFieldText(sp.afterArrow, x, sp.valueForm, sp.trail, rest, CommaOrEnd);
  }

  /** The text of a written pair does not start with whitespace once its
      lead is dropped. */
  lemma EntryBodyStart(e: Entry, sp: Spelling)
    requires Writable(e, sp)
    ensures EntryBody(e, sp) != [] && !IsSpace(EntryBody(e, sp)[0])
  {
    match sp.keyForm
    case Quoted(_) =>
    case Bare(esc) => BareTextHead(e.0, esc);
  }

  /** Trailing whitespace after a pair belongs to its trail. */
  lemma EntryTrail(e: Entry, sp: Spelling, last: string)
    ensures EntryText(e, sp) + last == EntryText(e, sp.(trail := sp.trail + last))
  {
  }

  /** After a pair, the decoder stops at the end or goes on after the `,`. */
  lemma ParseEntriesStep(e: Entry, sp: Spelling, X: string)
    requires Writable(e, sp)
    requires X == [] || X[0] == ','
    ensures ParseEntries(EntryText(e, sp) + X) ==
      if X == [] then Ok([e]) else Cons(e, ParseEntries(X[1..]))
  {
    var body := EntryBody(e, sp) + X;
    assert EntryText(e, sp) + X == sp.lead + body;
    EntryBodyStart(e, sp);
    SkipSpacePrefix(sp.lead, body);
    ParseEntryText(e, sp, X);
  }

  /** A literal with one pair: the pair, the optional comma, and `last`. */
  lemma RenderSingle(e: Entry, sp: Spelling, comma: bool, last: string)
    ensures comma ==> Render([e], [sp], comma, last) == EntryText(e, sp) + ("," + last)
    ensures !comma ==> Render([e], [sp], comma, last) == EntryText(e, sp.(trail := sp.trail + last)) + []
  {
    EntryTrail(e, sp, last);
  }

  /** A literal with more than one pair: the first pair, `,`, the rest. */
  lemma RenderCons(m: seq<Entry>, sps: seq<Spelling>, comma: bool, last: string)
    requires |sps| == |m| && |m| > 1
    ensures Render(m, sps, comma, last) == EntryText(m[0], sps[0]) + ("," + Render(m[1..], sps[1..], comma, last))
  {
    var h, r := EntryText(m[0], sps[0]), Render(m[1..], sps[1..], comma, last);
    assert (h + ",") + r == h + ("," + r);
  }

  /** A literal with one pair. */
  lemma ParseSingle(e: Entry, sp: Spelling, comma: bool, last: string)
    requires Writable(e, sp) && AllSpace(last)
    ensures ParseEntries(Render([e], [sp], comma, last)) == Ok([e])
  {
    RenderSingle(e, sp, comma, last);
    if comma {
      var X := "," + last;
      ParseEntriesStep(e, sp, X);
      assert X[1..] == last;
      ParseEntriesEmpty(last);
      assert [e] + [] == [e];
    } else {
      var sp' := sp.(trail := sp.trail + last);
      assert AllSpace(sp'.trail);
      assert Writable(e, sp');
      ParseEntriesStep(e, sp', []);
    }
  }

  /** A pair, `,`, then text that reads as `ms`, reads as the pair then `ms`. */
  lemma ParseConsText(e: Entry, sp: Spelling, rest: string, ms: seq<Entry>)
    requires Writable(e, sp) && ParseEntries(rest) == Ok(ms)
    ensures ParseEntries(EntryText(e, sp) + ("," + rest)) == Ok([e] + ms)
  {
    var X := "," + rest;
    ParseEntriesStep(e, sp, X);
    assert X[1..] == rest;
  }

  /** A literal with more than one pair: the first, then the rest. */
  lemma ParseCons(m: seq<Entry>, sps: seq<Spelling>, comma: bool, last: string)
    requires |sps| == |m| && |m| > 1 && Writable(m[0], sps[0])
    requires ParseEntries(Render(m[1..], sps[1..], comma, last)) == Ok(m[1..])
    ensures ParseEntries(Render(m, sps, comma, last)) == Ok(m)
  {
    RenderCons(m, sps, comma, last);
    ParseConsText(m[0], sps[0], Render(m[1..], sps[1..], comma, last), m[1..]);
    assert m == [m[0]] + m[1..];
  }

  /** The decoder reads every writing of a sequence of pairs back as exactly
      those pairs, in order. */
  lemma {:induction false} ParseRendered(m: seq<Entry>, sps: seq<Spelling>, comma: bool, last: string)
    requires |sps| == |m|
    requires AllWritable(m, sps)
    requires AllSpace(last)
    ensures ParseEntries(Render(m, sps, comma, last)) == Ok(m)
  {
    if m == [] {
      ParseEntriesEmpty(last);
    } else {
      AllWritableRest(m, sps);
      if |m| == 1 {
        assert m == [m[0]] && sps == [sps[0]];
        ParseSingle(m[0], sps[0], comma, last);
      } else {
        ParseRendered(m[1..], sps[1..], comma, last);
        ParseCons(m, sps, comma, last);
      }
    }
  }

  /** With distinct keys, decoding a writing gives back the mapping itself. */
  lemma DecodeRendered(m: seq<Entry>, sps: seq<Spelling>, comma: bool, last: string)
    requires |sps| == |m|
    requires AllWritable(m, sps)
    requires AllSpace(last)
    requires DistinctKeys(m)
    ensures Decode(Render(m, sps, comma, last)) == Ok(m)
  {
    ParseRendered(m, sps, comma, last);
    BuildDistinct(m);
  }

  // ---------------------------------------------------------------------
  // Pairs with no `,` between them

  /** A pair whose value is quoted ends at the closing quote, so it is read
      back whatever non-blank text follows it, `,` or not. */
  lemma ParseQuotedEntryText(e: Entry, sp: Spelling, rest: string)
    requires Writable(e, sp) && sp.valueForm.Quoted?
    requires rest == [] || !IsSpace(rest[0])
    ensures ParseEntry(EntryBody(e, sp) + rest) == Ok((e, rest))
  {
    var x := e.1.s;
    var r := sp.afterArrow + FieldText(x, sp.valueForm) + sp.trail + rest;
    assert EntryBody(e, sp) + rest == FieldText(e.0, sp.keyForm) + sp.beforeArrow + ("=>" + r);
    ReadKeyText(e, sp, "=>" + r);
    assert ("=>" + r)[2..] == r;
    ReadQuotedText(sp.afterArrow, x, sp.valueForm.escaped, sp.trail, rest, CommaOrEnd);
    SkipSpacePrefix(sp.trail, rest);
  }

  /** After a pair with a quoted value, the decoder goes straight on with
      the text that follows when that text does not start with `,`. */
  lemma ParseAdjacent(e: Entry, sp: Spelling, rest: string, ms: seq<Entry>)
    requires Writable(e, sp) && sp.valueForm.Quoted?
    requires rest != [] && !IsSpace(rest[0]) && rest[0] != ','
    requires ParseEntries(rest) == Ok(ms)
    ensures ParseEntries(EntryText(e, sp) + rest) == Ok([e] + ms)
  {
    var body := EntryBody(e, sp) + rest;
    assert EntryText(e, sp) + rest == sp.lead + body;
    EntryBodyStart(e, sp);
    SkipSpacePrefix(sp.lead, body);
    ParseQuotedEntryText(e, sp, rest);
  }

  /** A pair with a quoted value followed, with no `,`, by any writing of
      more pairs whose first pair has no leading whitespace (whitespace
      between the two belongs to the first pair's trail) and does not begin
      with `,`: the decoder reads all the pairs, in order. */
  lemma ParseRenderedAfterQuoted(e: Entry, sp: Spelling, m: seq<Entry>, sps: seq<Spelling>, comma: bool, last: string)
    requires Writable(e, sp) && sp.valueForm.Quoted?
    requires |sps| == |m| && m != [] && AllWritable(m, sps) && AllSpace(last)
    requires sps[0].lead == [] && EntryBody(m[0], sps[0])[0] != ','
    ensures ParseEntries(EntryText(e, sp) + Render(m, sps, comma, last)) == Ok([e] + m)
  {
    var rest := Render(m, sps, comma, last);
    ParseRendered(m, sps, comma, last);
    AllWritableRest(m, sps);
    EntryBodyStart(m[0], sps[0]);
    var head := EntryText(m[0], sps[0]);
    assert head == EntryBody(m[0], sps[0]);
    if |m| == 1 {
      assert rest == head + (if comma then "," else "") + last;
    } else {
      RenderCons(m, sps, comma, last);
    }
    assert rest[0] == head[0];
    ParseAdjacent(e, sp, rest, m);
  }
}
