/** The encoder's output is one of the writings the decoder accepts, so
    decoding an encoded mapping gives it back, and re-encoding a decoded
    literal is stable. */
module RoundTrip {
  import opened HstoreValue
  import opened Quoter
  import opened Scanner
  import opened Decoder
  import opened Encoder
  import opened Layout

  /** The writing the encoder uses for one pair: both fields quoted, no
      whitespace around `=>`, and the null marker as the bare word `NULL`.
      `lead` is the space the encoder's `", "` separator puts before every
      pair but the first. */
  function EncodeSpelling(e: Entry, lead: string): Spelling
  {
    Spelling(lead, Quoted([]), "", "", if e.1.Null? then Bare([false, false, false, false]) else Quoted([]), "NULL", "")
  }

  function EncodeSpellings(m: seq<Entry>, lead: string): (sps: seq<Spelling>)
    ensures |sps| == |m|
  {
    if m == [] then [] else [EncodeSpelling(m[0], lead)] + EncodeSpellings(m[1..], " ")
  }

  /** The encoder writes one pair exactly as its spelling says. */
  lemma EncodeEntryText(e: Entry, lead: string)
    ensures EntryText(e, EncodeSpelling(e, lead)) == lead + EncodeEntry(e)
  {
    if e.1.Null? {
      EncodeNullText(e.0, lead);
    } else {
      EncodeStrText(e.0, e.1.s, lead);
    }
  }

  lemma EncodeNullText(k: string, lead: string)
    ensures EntryText((k, Null), EncodeSpelling((k, Null), lead)) == lead + EncodeEntry((k, Null))
  {
    QuotedTextEscape(k);
    PlainText("NULL", [false, false, false, false]);
  }

  lemma EncodeStrText(k: string, x: string, lead: string)
    ensures EntryText((k, Str(x)), EncodeSpelling((k, Str(x)), lead)) == lead + EncodeEntry((k, Str(x)))
  {
    QuotedTextEscape(k);
    QuotedTextEscape(x);
  }

  /** The encoder's output is the writing of the mapping by its spellings. */
  lemma {:induction false} EncodeIsRender(m: seq<Entry>, lead: string)
    requires m != [] || lead == []
    ensures Render(m, EncodeSpellings(m, lead), false, "") == lead + Encode(m)
  {
    if |m| == 1 {
      EncodeEntryText(m[0], lead);
      assert EncodeSpellings(m, lead) == [EncodeSpelling(m[0], lead)];
    } else if |m| > 1 {
      EncodeIsRender(m[1..], " ");
      EncodeRenderCons(m, lead);
    }
  }

  /** One step of `EncodeIsRender`: the first pair, then `", "` and the rest. */
  lemma EncodeRenderCons(m: seq<Entry>, lead: string)
    requires |m| > 1
    requires Render(m[1..], EncodeSpellings(m[1..], " "), false, "") == " " + Encode(m[1..])
    ensures Render(m, EncodeSpellings(m, lead), false, "") == lead + Encode(m)
  {
    var sps := EncodeSpellings(m, lead);
    var head, tail := EncodeEntry(m[0]), Encode(m[1..]);
    EncodeEntryText(m[0], lead);
    assert sps[0] == EncodeSpelling(m[0], lead) && sps[1..] == EncodeSpellings(m[1..], " ");
    RenderCons(m, sps, false, "");
    assert (lead + head) + ("," + (" " + tail)) == lead + (head + ", " + tail);
  }

  /** Every spelling the encoder uses reads back. */
  lemma {:induction false} EncodeWritable(m: seq<Entry>, lead: string)
    requires AllSpace(lead)
    ensures AllWritable(m, EncodeSpellings(m, lead))
  {
    if m != [] {
      var sps := EncodeSpellings(m, lead);
      assert sps[1..] == EncodeSpellings(m[1..], " ");
      EncodeWritable(m[1..], " ");
      if m[0].1.Null? {
        NullWordPlain("NULL", [false, false, false, false]);
      }
      assert Writable(m[0], sps[0]);
    }
  }

  /** Every sequence of pairs, repeated keys included, is read back from its
      encoding pair by pair. */
  lemma ParseEncode(m: seq<Entry>)
    ensures ParseEntries(Encode(m)) == Ok(m)
  {
    EncodeIsRender(m, "");
    assert "" + Encode(m) == Encode(m);
    EncodeWritable(m, "");
    ParseRendered(m, EncodeSpellings(m, ""), false, "");
  }

  /** Decoding an encoded mapping gives the mapping back. */
  lemma DecodeEncode(m: seq<Entry>)
    requires DistinctKeys(m)
    ensures Decode(Encode(m)) == Ok(m)
  {
    ParseEncode(m);
    BuildDistinct(m);
  }

  /** Encoding what a literal decodes to, and decoding that again, gives the
      same mapping: the encoder writes a canonical form of any literal. */
  lemma DecodeEncodeDecode(s: string)
    requires Decode(s).Ok?
    ensures Decode(Encode(Decode(s).value)) == Decode(s)
  {
    DecodeEncode(Decode(s).value);
  }
}
