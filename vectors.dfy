/** The codec's documented input/output pairs, each proved from the
    general theorems: a decoding example is one writing of its expected
    mapping (the spelling used for each pair is spelled out in the proof),
    and an encoding example follows from the encoder's definition. */
module CoderVectors {
  import opened HstoreValue
  import opened Quoter
  import opened Scanner
  import opened Decoder
  import opened Encoder
  import opened Layout

  /** Empty and whitespace-only literals are the empty mapping. */
  lemma DecodeBlank()
    ensures Decode("") == Ok([])
    ensures Decode("    ") == Ok([])
    ensures Decode("\t \n \r") == Ok([])
  {
    DecodeLine13();
    DecodeLine14();
    DecodeLine15();
  }

  lemma DecodeLine13()
    ensures Decode("") == Ok([])
  {
    DecodeEmpty("");
  }

  lemma DecodeLine14()
    ensures Decode("    ") == Ok([])
  {
    BlankLine14();
    DecodeEmpty("    ");
  }

  lemma BlankLine14()
    ensures AllSpace("    ")
  {
  }

  lemma DecodeLine15()
    ensures Decode("\t \n \r") == Ok([])
  {
    BlankLine15();
    DecodeEmpty("\t \n \r");
  }

  lemma BlankLine15()
    ensures AllSpace("\t \n \r")
  {
  }

  /** A literal made of one written pair, `t`, then an optional `,` and
      whitespace, decodes to that pair. */
  lemma DecodeOne(e: Entry, sp: Spelling, t: string, comma: bool, last: string, text: string)
    requires Writable(e, sp) && AllSpace(last)
    requires EntryText(e, sp) == t && text == t + (if comma then "," else "") + last
    ensures Decode(text) == Ok([e])
  {
    DecodeRendered([e], [sp], comma, last);
  }

  /** A literal made of two written pairs with different keys, `t1` and
      `t2`, joined by `,`, decodes to them in order. */
  lemma DecodeTwo(e1: Entry, sp1: Spelling, t1: string, e2: Entry, sp2: Spelling, t2: string, text: string)
    requires Writable(e1, sp1) && Writable(e2, sp2) && e1.0 != e2.0
    requires EntryText(e1, sp1) == t1 && EntryText(e2, sp2) == t2 && text == t1 + "," + t2
    ensures Decode(text) == Ok([e1, e2])
  {
    var m, sps := [e1, e2], [sp1, sp2];
    assert m[1..] == [e2] && sps[1..] == [sp2];
    assert Render([e2], [sp2], false, "") == t2;
    DecodeRendered(m, sps, false, "");
  }

  /** Bare one-letter fields, with and without whitespace around every token. */
  lemma DecodeBarePair()
    ensures Decode("a=>b") == Ok([("a", Str("b"))])
    ensures Decode(" a=>b") == Ok([("a", Str("b"))])
    ensures Decode(" a =>b") == Ok([("a", Str("b"))])
    ensures Decode(" a => b") == Ok([("a", Str("b"))])
    ensures Decode(" a => b ") == Ok([("a", Str("b"))])
    ensures Decode("a => b ") == Ok([("a", Str("b"))])
    ensures Decode("a=> b ") == Ok([("a", Str("b"))])
    ensures Decode("a=>b ") == Ok([("a", Str("b"))])
  {
    DecodeLine17();
    DecodeLine18();
    DecodeLine19();
    DecodeLine20();
    DecodeLine21();
    DecodeLine22();
    DecodeLine23();
    DecodeLine24();
  }

  lemma WritingLine17()
    ensures Writable(("a", Str("b")), Spelling("", Bare([false]), "", "", Bare([false]), "", ""))
  {
    LettersTail("a", [false], Arrow);
    LettersTail("b", [false], CommaOrEnd);
  }

  lemma TextLine17()
    ensures EntryText(("a", Str("b")), Spelling("", Bare([false]), "", "", Bare([false]), "", "")) == "a=>b"
  {
    PlainText("a", [false]);
    PlainText("b", [false]);
  }

  lemma DecodeLine17()
    ensures Decode("a=>b") == Ok([("a", Str("b"))])
  {
    WritingLine17();
    TextLine17();
    DecodeOne(("a", Str("b")), Spelling("", Bare([false]), "", "", Bare([false]), "", ""), "a=>b",
              false, "", "a=>b");
  }

  lemma WritingLine18()
    ensures Writable(("a", Str("b")), Spelling(" ", Bare([false]), "", "", Bare([false]), "", ""))
  {
    LettersTail("a", [false], Arrow);
    LettersTail("b", [false], CommaOrEnd);
  }

  lemma TextLine18()
    ensures EntryText(("a", Str("b")), Spelling(" ", Bare([false]), "", "", Bare([false]), "", "")) == " a=>b"
  {
    PlainText("a", [false]);
    PlainText("b", [false]);
  }

  lemma DecodeLine18()
    ensures Decode(" a=>b") == Ok([("a", Str("b"))])
  {
    WritingLine18();
    TextLine18();
    DecodeOne(("a", Str("b")), Spelling(" ", Bare([false]), "", "", Bare([false]), "", ""), " a=>b",
              false, "", " a=>b");
  }

  lemma WritingLine19()
    ensures Writable(("a", Str("b")), Spelling(" ", Bare([false]), " ", "", Bare([false]), "", ""))
  {
    LettersTail("a", [false], Arrow);
    LettersTail("b", [false], CommaOrEnd);
  }

  lemma TextLine19()
    ensures EntryText(("a", Str("b")), Spelling(" ", Bare([false]), " ", "", Bare([false]), "", "")) == " a =>b"
  {
    PlainText("a", [false]);
    PlainText("b", [false]);
  }

  lemma DecodeLine19()
    ensures Decode(" a =>b") == Ok([("a", Str("b"))])
  {
    WritingLine19();
    TextLine19();
    DecodeOne(("a", Str("b")), Spelling(" ", Bare([false]), " ", "", Bare([false]), "", ""), " a =>b",
              false, "", " a =>b");
  }

  lemma WritingLine20()
    ensures Writable(("a", Str("b")), Spelling(" ", Bare([false]), " ", " ", Bare([false]), "", ""))
  {
    LettersTail("a", [false], Arrow);
    LettersTail("b", [false], CommaOrEnd);
  }

  lemma TextLine20()
    ensures EntryText(("a", Str("b")), Spelling(" ", Bare([false]), " ", " ", Bare([false]), "", "")) == " a => b"
  {
    PlainText("a", [false]);
    PlainText("b", [false]);
  }

  lemma DecodeLine20()
    ensures Decode(" a => b") == Ok([("a", Str("b"))])
  {
    WritingLine20();
    TextLine20();
    DecodeOne(("a", Str("b")), Spelling(" ", Bare([false]), " ", " ", Bare([false]), "", ""), " a => b",
              false, "", " a => b");
  }

  lemma WritingLine21()
    ensures Writable(("a", Str("b")), Spelling(" ", Bare([false]), " ", " ", Bare([false]), "", " "))
  {
    LettersTail("a", [false], Arrow);
    LettersTail("b", [false], CommaOrEnd);
  }

  lemma TextLine21()
    ensures EntryText(("a", Str("b")), Spelling(" ", Bare([false]), " ", " ", Bare([false]), "", " ")) == " a => b "
  {
    PlainText("a", [false]);
    PlainText("b", [false]);
  }

  lemma DecodeLine21()
    ensures Decode(" a => b ") == Ok([("a", Str("b"))])
  {
    WritingLine21();
    TextLine21();
    DecodeOne(("a", Str("b")), Spelling(" ", Bare([false]), " ", " ", Bare([false]), "", " "), " a => b ",
              false, "", " a => b ");
  }

  lemma WritingLine22()
    ensures Writable(("a", Str("b")), Spelling("", Bare([false]), " ", " ", Bare([false]), "", " "))
  {
    LettersTail("a", [false], Arrow);
    LettersTail("b", [false], CommaOrEnd);
  }

  lemma TextLine22()
    ensures EntryText(("a", Str("b")), Spelling("", Bare([false]), " ", " ", Bare([false]), "", " ")) == "a => b "
  {
    PlainText("a", [false]);
    PlainText("b", [false]);
  }

  lemma DecodeLine22()
    ensures Decode("a => b ") == Ok([("a", Str("b"))])
  {
    WritingLine22();
    TextLine22();
    DecodeOne(("a", Str("b")), Spelling("", Bare([false]), " ", " ", Bare([false]), "", " "), "a => b ",
              false, "", "a => b ");
  }

  lemma WritingLine23()
    ensures Writable(("a", Str("b")), Spelling("", Bare([false]), "", " ", Bare([false]), "", " "))
  {
    LettersTail("a", [false], Arrow);
    LettersTail("b", [false], CommaOrEnd);
  }

  lemma TextLine23()
    ensures EntryText(("a", Str("b")), Spelling("", Bare([false]), "", " ", Bare([false]), "", " ")) == "a=> b "
  {
    PlainText("a", [false]);
    PlainText("b", [false]);
  }

  lemma DecodeLine23()
    ensures Decode("a=> b ") == Ok([("a", Str("b"))])
  {
    WritingLine23();
    TextLine23();
    DecodeOne(("a", Str("b")), Spelling("", Bare([false]), "", " ", Bare([false]), "", " "), "a=> b ",
              false, "", "a=> b ");
  }

  lemma WritingLine24()
    ensures Writable(("a", Str("b")), Spelling("", Bare([false]), "", "", Bare([false]), "", " "))
  {
    LettersTail("a", [false], Arrow);
    LettersTail("b", [false], CommaOrEnd);
  }

  lemma TextLine24()
    ensures EntryText(("a", Str("b")), Spelling("", Bare([false]), "", "", Bare([false]), "", " ")) == "a=>b "
  {
    PlainText("a", [false]);
    PlainText("b", [false]);
  }

  lemma DecodeLine24()
    ensures Decode("a=>b ") == Ok([("a", Str("b"))])
  {
    WritingLine24();
    TextLine24();
    DecodeOne(("a", Str("b")), Spelling("", Bare([false]), "", "", Bare([false]), "", " "), "a=>b ",
              false, "", "a=>b ");
  }

  /** Quoted one-letter fields, with and without whitespace around every token. */
  lemma DecodeQuotedPair()
    ensures Decode("\"a\"=>\"b\"") == Ok([("a", Str("b"))])
    ensures Decode(" \"a\"=>\"b\"") == Ok([("a", Str("b"))])
    ensures Decode(" \"a\" =>\"b\"") == Ok([("a", Str("b"))])
    ensures Decode(" \"a\" => \"b\"") == Ok([("a", Str("b"))])
    ensures Decode(" \"a\" => \"b\" ") == Ok([("a", Str("b"))])
    ensures Decode("\"a\" => \"b\" ") == Ok([("a", Str("b"))])
    ensures Decode("\"a\"=> \"b\" ") == Ok([("a", Str("b"))])
    ensures Decode("\"a\"=>\"b\" ") == Ok([("a", Str("b"))])
  {
    DecodeLine26();
    DecodeLine27();
    DecodeLine28();
    DecodeLine29();
    DecodeLine30();
    DecodeLine31();
    DecodeLine32();
    DecodeLine33();
  }

  lemma WritingLine26()
    ensures Writable(("a", Str("b")), Spelling("", Quoted([]), "", "", Quoted([]), "", ""))
  {
  }

  lemma TextLine26()
    ensures EntryText(("a", Str("b")), Spelling("", Quoted([]), "", "", Quoted([]), "", "")) == "\"a\"=>\"b\""
  {
  }

  lemma DecodeLine26()
    ensures Decode("\"a\"=>\"b\"") == Ok([("a", Str("b"))])
  {
    WritingLine26();
    TextLine26();
    DecodeOne(("a", Str("b")), Spelling("", Quoted([]), "", "", Quoted([]), "", ""), "\"a\"=>\"b\"",
              false, "", "\"a\"=>\"b\"");
  }

  lemma WritingLine27()
    ensures Writable(("a", Str("b")), Spelling(" ", Quoted([]), "", "", Quoted([]), "", ""))
  {
  }

  lemma TextLine27()
    ensures EntryText(("a", Str("b")), Spelling(" ", Quoted([]), "", "", Quoted([]), "", "")) == " \"a\"=>\"b\""
  {
  }

  lemma DecodeLine27()
    ensures Decode(" \"a\"=>\"b\"") == Ok([("a", Str("b"))])
  {
    WritingLine27();
    TextLine27();
    DecodeOne(("a", Str("b")), Spelling(" ", Quoted([]), "", "", Quoted([]), "", ""), " \"a\"=>\"b\"",
              false, "", " \"a\"=>\"b\"");
  }

  lemma WritingLine28()
    ensures Writable(("a", Str("b")), Spelling(" ", Quoted([]), " ", "", Quoted([]), "", ""))
  {
  }

  lemma TextLine28()
    ensures EntryText(("a", Str("b")), Spelling(" ", Quoted([]), " ", "", Quoted([]), "", "")) == " \"a\" =>\"b\""
  {
  }

  lemma DecodeLine28()
    ensures Decode(" \"a\" =>\"b\"") == Ok([("a", Str("b"))])
  {
    WritingLine28();
    TextLine28();
    DecodeOne(("a", Str("b")), Spelling(" ", Quoted([]), " ", "", Quoted([]), "", ""), " \"a\" =>\"b\"",
              false, "", " \"a\" =>\"b\"");
  }

  lemma WritingLine29()
    ensures Writable(("a", Str("b")), Spelling(" ", Quoted([]), " ", " ", Quoted([]), "", ""))
  {
  }

  lemma TextLine29()
    ensures EntryText(("a", Str("b")), Spelling(" ", Quoted([]), " ", " ", Quoted([]), "", "")) == " \"a\" => \"b\""
  {
  }

  lemma DecodeLine29()
    ensures Decode(" \"a\" => \"b\"") == Ok([("a", Str("b"))])
  {
    WritingLine29();
    TextLine29();
    DecodeOne(("a", Str("b")), Spelling(" ", Quoted([]), " ", " ", Quoted([]), "", ""), " \"a\" => \"b\"",
              false, "", " \"a\" => \"b\"");
  }

  lemma WritingLine30()
    ensures Writable(("a", Str("b")), Spelling(" ", Quoted([]), " ", " ", Quoted([]), "", " "))
  {
  }

  lemma TextLine30()
    ensures EntryText(("a", Str("b")), Spelling(" ", Quoted([]), " ", " ", Quoted([]), "", " ")) == " \"a\" => \"b\" "
  {
  }

  lemma DecodeLine30()
    ensures Decode(" \"a\" => \"b\" ") == Ok([("a", Str("b"))])
  {
    WritingLine30();
    TextLine30();
    DecodeOne(("a", Str("b")), Spelling(" ", Quoted([]), " ", " ", Quoted([]), "", " "), " \"a\" => \"b\" ",
              false, "", " \"a\" => \"b\" ");
  }

  lemma WritingLine31()
    ensures Writable(("a", Str("b")), Spelling("", Quoted([]), " ", " ", Quoted([]), "", " "))
  {
  }

  lemma TextLine31()
    ensures EntryText(("a", Str("b")), Spelling("", Quoted([]), " ", " ", Quoted([]), "", " ")) == "\"a\" => \"b\" "
  {
  }

  lemma DecodeLine31()
    ensures Decode("\"a\" => \"b\" ") == Ok([("a", Str("b"))])
  {
    WritingLine31();
    TextLine31();
    DecodeOne(("a", Str("b")), Spelling("", Quoted([]), " ", " ", Quoted([]), "", " "), "\"a\" => \"b\" ",
              false, "", "\"a\" => \"b\" ");
  }

  lemma WritingLine32()
    ensures Writable(("a", Str("b")), Spelling("", Quoted([]), "", " ", Quoted([]), "", " "))
  {
  }

  lemma TextLine32()
    ensures EntryText(("a", Str("b")), Spelling("", Quoted([]), "", " ", Quoted([]), "", " ")) == "\"a\"=> \"b\" "
  {
  }

  lemma DecodeLine32()
    ensures Decode("\"a\"=> \"b\" ") == Ok([("a", Str("b"))])
  {
    WritingLine32();
    TextLine32();
    DecodeOne(("a", Str("b")), Spelling("", Quoted([]), "", " ", Quoted([]), "", " "), "\"a\"=> \"b\" ",
              false, "", "\"a\"=> \"b\" ");
  }

  lemma WritingLine33()
    ensures Writable(("a", Str("b")), Spelling("", Quoted([]), "", "", Quoted([]), "", " "))
  {
  }

  lemma TextLine33()
    ensures EntryText(("a", Str("b")), Spelling("", Quoted([]), "", "", Quoted([]), "", " ")) == "\"a\"=>\"b\" "
  {
  }

  lemma DecodeLine33()
    ensures Decode("\"a\"=>\"b\" ") == Ok([("a", Str("b"))])
  {
    WritingLine33();
    TextLine33();
    DecodeOne(("a", Str("b")), Spelling("", Quoted([]), "", "", Quoted([]), "", " "), "\"a\"=>\"b\" ",
              false, "", "\"a\"=>\"b\" ");
  }

  /** Bare two-letter fields, with and without whitespace around every token. */
  lemma DecodeBareLongPair()
    ensures Decode("aa=>bb") == Ok([("aa", Str("bb"))])
    ensures Decode(" aa=>bb") == Ok([("aa", Str("bb"))])
    ensures Decode(" aa =>bb") == Ok([("aa", Str("bb"))])
    ensures Decode(" aa => bb") == Ok([("aa", Str("bb"))])
    ensures Decode(" aa => bb ") == Ok([("aa", Str("bb"))])
    ensures Decode("aa => bb ") == Ok([("aa", Str("bb"))])
    ensures Decode("aa=> bb ") == Ok([("aa", Str("bb"))])
    ensures Decode("aa=>bb ") == Ok([("aa", Str("bb"))])
  {
    DecodeLine35();
    DecodeLine36();
    DecodeLine37();
    DecodeLine38();
    DecodeLine39();
    DecodeLine40();
    DecodeLine41();
    DecodeLine42();
  }

  lemma WritingLine35()
    ensures Writable(("aa", Str("bb")), Spelling("", Bare([false, false]), "", "", Bare([false, false]), "", ""))
  {
    LettersTail("aa", [false, false], Arrow);
    LettersTail("bb", [false, false], CommaOrEnd);
  }

  lemma TextLine35()
    ensures EntryText(("aa", Str("bb")), Spelling("", Bare([false, false]), "", "", Bare([false, false]), "", "")) == "aa=>bb"
  {
    PlainText("aa", [false, false]);
    PlainText("bb", [false, false]);
  }

  lemma DecodeLine35()
    ensures Decode("aa=>bb") == Ok([("aa", Str("bb"))])
  {
    WritingLine35();
    TextLine35();
    DecodeOne(("aa", Str("bb")), Spelling("", Bare([false, false]), "", "", Bare([false, false]), "", ""), "aa=>bb",
              false, "", "aa=>bb");
  }

  lemma WritingLine36()
    ensures Writable(("aa", Str("bb")), Spelling(" ", Bare([false, false]), "", "", Bare([false, false]), "", ""))
  {
    LettersTail("aa", [false, false], Arrow);
    LettersTail("bb", [false, false], CommaOrEnd);
  }

  lemma TextLine36()
    ensures EntryText(("aa", Str("bb")), Spelling(" ", Bare([false, false]), "", "", Bare([false, false]), "", "")) == " aa=>bb"
  {
    PlainText("aa", [false, false]);
    PlainText("bb", [false, false]);
  }

  lemma DecodeLine36()
    ensures Decode(" aa=>bb") == Ok([("aa", Str("bb"))])
  {
    WritingLine36();
    TextLine36();
    DecodeOne(("aa", Str("bb")), Spelling(" ", Bare([false, false]), "", "", Bare([false, false]), "", ""), " aa=>bb",
              false, "", " aa=>bb");
  }

  lemma WritingLine37()
    ensures Writable(("aa", Str("bb")), Spelling(" ", Bare([false, false]), " ", "", Bare([false, false]), "", ""))
  {
    LettersTail("aa", [false, false], Arrow);
    LettersTail("bb", [false, false], CommaOrEnd);
  }

  lemma TextLine37()
    ensures EntryText(("aa", Str("bb")), Spelling(" ", Bare([false, false]), " ", "", Bare([false, false]), "", "")) == " aa =>bb"
  {
    PlainText("aa", [false, false]);
    PlainText("bb", [false, false]);
  }

  lemma DecodeLine37()
    ensures Decode(" aa =>bb") == Ok([("aa", Str("bb"))])
  {
    WritingLine37();
    TextLine37();
    DecodeOne(("aa", Str("bb")), Spelling(" ", Bare([false, false]), " ", "", Bare([false, false]), "", ""), " aa =>bb",
              false, "", " aa =>bb");
  }

  lemma WritingLine38()
    ensures Writable(("aa", Str("bb")), Spelling(" ", Bare([false, false]), " ", " ", Bare([false, false]), "", ""))
  {
    LettersTail("aa", [false, false], Arrow);
    LettersTail("bb", [false, false], CommaOrEnd);
  }

  lemma TextLine38()
    ensures EntryText(("aa", Str("bb")), Spelling(" ", Bare([false, false]), " ", " ", Bare([false, false]), "", "")) == " aa => bb"
  {
    PlainText("aa", [false, false]);
    PlainText("bb", [false, false]);
  }

  lemma DecodeLine38()
    ensures Decode(" aa => bb") == Ok([("aa", Str("bb"))])
  {
    WritingLine38();
    TextLine38();
    DecodeOne(("aa", Str("bb")), Spelling(" ", Bare([false, false]), " ", " ", Bare([false, false]), "", ""), " aa => bb",
              false, "", " aa => bb");
  }

  lemma WritingLine39()
    ensures Writable(("aa", Str("bb")), Spelling(" ", Bare([false, false]), " ", " ", Bare([false, false]), "", " "))
  {
    LettersTail("aa", [false, false], Arrow);
    LettersTail("bb", [false, false], CommaOrEnd);
  }

  lemma TextLine39()
    ensures EntryText(("aa", Str("bb")), Spelling(" ", Bare([false, false]), " ", " ", Bare([false, false]), "", " ")) == " aa => bb "
  {
    PlainText("aa", [false, false]);
    PlainText("bb", [false, false]);
  }

  lemma DecodeLine39()
    ensures Decode(" aa => bb ") == Ok([("aa", Str("bb"))])
  {
    WritingLine39();
    TextLine39();
    DecodeOne(("aa", Str("bb")), Spelling(" ", Bare([false, false]), " ", " ", Bare([false, false]), "", " "), " aa => bb ",
              false, "", " aa => bb ");
  }

  lemma WritingLine40()
    ensures Writable(("aa", Str("bb")), Spelling("", Bare([false, false]), " ", " ", Bare([false, false]), "", " "))
  {
    LettersTail("aa", [false, false], Arrow);
    LettersTail("bb", [false, false], CommaOrEnd);
  }

  lemma TextLine40()
    ensures EntryText(("aa", Str("bb")), Spelling("", Bare([false, false]), " ", " ", Bare([false, false]), "", " ")) == "aa => bb "
  {
    PlainText("aa", [false, false]);
    PlainText("bb", [false, false]);
  }

  lemma DecodeLine40()
    ensures Decode("aa => bb ") == Ok([("aa", Str("bb"))])
  {
    WritingLine40();
    TextLine40();
    DecodeOne(("aa", Str("bb")), Spelling("", Bare([false, false]), " ", " ", Bare([false, false]), "", " "), "aa => bb ",
              false, "", "aa => bb ");
  }

  lemma WritingLine41()
    ensures Writable(("aa", Str("bb")), Spelling("", Bare([false, false]), "", " ", Bare([false, false]), "", " "))
  {
    LettersTail("aa", [false, false], Arrow);
    LettersTail("bb", [false, false], CommaOrEnd);
  }

  lemma TextLine41()
    ensures EntryText(("aa", Str("bb")), Spelling("", Bare([false, false]), "", " ", Bare([false, false]), "", " ")) == "aa=> bb "
  {
    PlainText("aa", [false, false]);
    PlainText("bb", [false, false]);
  }

  lemma DecodeLine41()
    ensures Decode("aa=> bb ") == Ok([("aa", Str("bb"))])
  {
    WritingLine41();
    TextLine41();
    DecodeOne(("aa", Str("bb")), Spelling("", Bare([false, false]), "", " ", Bare([false, false]), "", " "), "aa=> bb ",
              false, "", "aa=> bb ");
  }

  lemma WritingLine42()
    ensures Writable(("aa", Str("bb")), Spelling("", Bare([false, false]), "", "", Bare([false, false]), "", " "))
  {
    LettersTail("aa", [false, false], Arrow);
    LettersTail("bb", [false, false], CommaOrEnd);
  }

  lemma TextLine42()
    ensures EntryText(("aa", Str("bb")), Spelling("", Bare([false, false]), "", "", Bare([false, false]), "", " ")) == "aa=>bb "
  {
    PlainText("aa", [false, false]);
    PlainText("bb", [false, false]);
  }

  lemma DecodeLine42()
    ensures Decode("aa=>bb ") == Ok([("aa", Str("bb"))])
  {
    WritingLine42();
    TextLine42();
    DecodeOne(("aa", Str("bb")), Spelling("", Bare([false, false]), "", "", Bare([false, false]), "", " "), "aa=>bb ",
              false, "", "aa=>bb ");
  }

  /** Quoted two-letter fields, with and without whitespace around every token. */
  lemma DecodeQuotedLongPair()
    ensures Decode("\"aa\"=>\"bb\"") == Ok([("aa", Str("bb"))])
    ensures Decode(" \"aa\"=>\"bb\"") == Ok([("aa", Str("bb"))])
    ensures Decode(" \"aa\" =>\"bb\"") == Ok([("aa", Str("bb"))])
    ensures Decode(" \"aa\" => \"bb\"") == Ok([("aa", Str("bb"))])
    ensures Decode(" \"aa\" => \"bb\" ") == Ok([("aa", Str("bb"))])
    ensures Decode("\"aa\" => \"bb\" ") == Ok([("aa", Str("bb"))])
    ensures Decode("\"aa\"=> \"bb\" ") == Ok([("aa", Str("bb"))])
    ensures Decode("\"aa\"=>\"bb\" ") == Ok([("aa", Str("bb"))])
  {
    DecodeLine44();
    DecodeLine45();
    DecodeLine46();
    DecodeLine47();
    DecodeLine48();
    DecodeLine49();
    DecodeLine50();
    DecodeLine51();
  }

  lemma WritingLine44()
    ensures Writable(("aa", Str("bb")), Spelling("", Quoted([]), "", "", Quoted([]), "", ""))
  {
  }

  lemma TextLine44()
    ensures EntryText(("aa", Str("bb")), Spelling("", Quoted([]), "", "", Quoted([]), "", "")) == "\"aa\"=>\"bb\""
  {
  }

  lemma DecodeLine44()
    ensures Decode("\"aa\"=>\"bb\"") == Ok([("aa", Str("bb"))])
  {
    WritingLine44();
    TextLine44();
    DecodeOne(("aa", Str("bb")), Spelling("", Quoted([]), "", "", Quoted([]), "", ""), "\"aa\"=>\"bb\"",
              false, "", "\"aa\"=>\"bb\"");
  }

  lemma WritingLine45()
    ensures Writable(("aa", Str("bb")), Spelling(" ", Quoted([]), "", "", Quoted([]), "", ""))
  {
  }

  lemma TextLine45()
    ensures EntryText(("aa", Str("bb")), Spelling(" ", Quoted([]), "", "", Quoted([]), "", "")) == " \"aa\"=>\"bb\""
  {
  }

  lemma DecodeLine45()
    ensures Decode(" \"aa\"=>\"bb\"") == Ok([("aa", Str("bb"))])
  {
    WritingLine45();
    TextLine45();
    DecodeOne(("aa", Str("bb")), Spelling(" ", Quoted([]), "", "", Quoted([]), "", ""), " \"aa\"=>\"bb\"",
              false, "", " \"aa\"=>\"bb\"");
  }

  lemma WritingLine46()
    ensures Writable(("aa", Str("bb")), Spelling(" ", Quoted([]), " ", "", Quoted([]), "", ""))
  {
  }

  lemma TextLine46()
    ensures EntryText(("aa", Str("bb")), Spelling(" ", Quoted([]), " ", "", Quoted([]), "", "")) == " \"aa\" =>\"bb\""
  {
  }

  lemma DecodeLine46()
    ensures Decode(" \"aa\" =>\"bb\"") == Ok([("aa", Str("bb"))])
  {
    WritingLine46();
    TextLine46();
    DecodeOne(("aa", Str("bb")), Spelling(" ", Quoted([]), " ", "", Quoted([]), "", ""), " \"aa\" =>\"bb\"",
              false, "", " \"aa\" =>\"bb\"");
  }

  lemma WritingLine47()
    ensures Writable(("aa", Str("bb")), Spelling(" ", Quoted([]), " ", " ", Quoted([]), "", ""))
  {
  }

  lemma TextLine47()
    ensures EntryText(("aa", Str("bb")), Spelling(" ", Quoted([]), " ", " ", Quoted([]), "", "")) == " \"aa\" => \"bb\""
  {
  }

  lemma DecodeLine47()
    ensures Decode(" \"aa\" => \"bb\"") == Ok([("aa", Str("bb"))])
  {
    WritingLine47();
    TextLine47();
    DecodeOne(("aa", Str("bb")), Spelling(" ", Quoted([]), " ", " ", Quoted([]), "", ""), " \"aa\" => \"bb\"",
              false, "", " \"aa\" => \"bb\"");
  }

  lemma WritingLine48()
    ensures Writable(("aa", Str("bb")), Spelling(" ", Quoted([]), " ", " ", Quoted([]), "", " "))
  {
  }

  lemma TextLine48()
    ensures EntryText(("aa", Str("bb")), Spelling(" ", Quoted([]), " ", " ", Quoted([]), "", " ")) == " \"aa\" => \"bb\" "
  {
  }

  lemma DecodeLine48()
    ensures Decode(" \"aa\" => \"bb\" ") == Ok([("aa", Str("bb"))])
  {
    WritingLine48();
    TextLine48();
    DecodeOne(("aa", Str("bb")), Spelling(" ", Quoted([]), " ", " ", Quoted([]), "", " "), " \"aa\" => \"bb\" ",
              false, "", " \"aa\" => \"bb\" ");
  }

  lemma WritingLine49()
    ensures Writable(("aa", Str("bb")), Spelling("", Quoted([]), " ", " ", Quoted([]), "", " "))
  {
  }

  lemma TextLine49()
    ensures EntryText(("aa", Str("bb")), Spelling("", Quoted([]), " ", " ", Quoted([]), "", " ")) == "\"aa\" => \"bb\" "
  {
  }

  lemma DecodeLine49()
    ensures Decode("\"aa\" => \"bb\" ") == Ok([("aa", Str("bb"))])
  {
    WritingLine49();
    TextLine49();
    DecodeOne(("aa", Str("bb")), Spelling("", Quoted([]), " ", " ", Quoted([]), "", " "), "\"aa\" => \"bb\" ",
              false, "", "\"aa\" => \"bb\" ");
  }

  lemma WritingLine50()
    ensures Writable(("aa", Str("bb")), Spelling("", Quoted([]), "", " ", Quoted([]), "", " "))
  {
  }

  lemma TextLine50()
    ensures EntryText(("aa", Str("bb")), Spelling("", Quoted([]), "", " ", Quoted([]), "", " ")) == "\"aa\"=> \"bb\" "
  {
  }

  lemma DecodeLine50()
    ensures Decode("\"aa\"=> \"bb\" ") == Ok([("aa", Str("bb"))])
  {
    WritingLine50();
    TextLine50();
    DecodeOne(("aa", Str("bb")), Spelling("", Quoted([]), "", " ", Quoted([]), "", " "), "\"aa\"=> \"bb\" ",
              false, "", "\"aa\"=> \"bb\" ");
  }

  lemma WritingLine51()
    ensures Writable(("aa", Str("bb")), Spelling("", Quoted([]), "", "", Quoted([]), "", " "))
  {
  }

  lemma TextLine51()
    ensures EntryText(("aa", Str("bb")), Spelling("", Quoted([]), "", "", Quoted([]), "", " ")) == "\"aa\"=>\"bb\" "
  {
  }

  lemma DecodeLine51()
    ensures Decode("\"aa\"=>\"bb\" ") == Ok([("aa", Str("bb"))])
  {
    WritingLine51();
    TextLine51();
    DecodeOne(("aa", Str("bb")), Spelling("", Quoted([]), "", "", Quoted([]), "", " "), "\"aa\"=>\"bb\" ",
              false, "", "\"aa\"=>\"bb\" ");
  }

  /** Two pairs, the separator `,` with or without whitespace on either side, fields bare or quoted. */
  lemma DecodeTwoPairs()
    ensures Decode("aa=>bb, cc=>dd") == Ok([("aa", Str("bb")), ("cc", Str("dd"))])
    ensures Decode("aa=>bb , cc=>dd") == Ok([("aa", Str("bb")), ("cc", Str("dd"))])
    ensures Decode("aa=>bb ,cc=>dd") == Ok([("aa", Str("bb")), ("cc", Str("dd"))])
    ensures Decode("aa=>bb, \"cc\"=>dd") == Ok([("aa", Str("bb")), ("cc", Str("dd"))])
    ensures Decode("aa=>bb , \"cc\"=>dd") == Ok([("aa", Str("bb")), ("cc", Str("dd"))])
    ensures Decode("aa=>bb ,\"cc\"=>dd") == Ok([("aa", Str("bb")), ("cc", Str("dd"))])
    ensures Decode("aa=>\"bb\", cc=>dd") == Ok([("aa", Str("bb")), ("cc", Str("dd"))])
    ensures Decode("aa=>\"bb\" , cc=>dd") == Ok([("aa", Str("bb")), ("cc", Str("dd"))])
    ensures Decode("aa=>\"bb\" ,cc=>dd") == Ok([("aa", Str("bb")), ("cc", Str("dd"))])
  {
    DecodeLine53();
    DecodeLine54();
    DecodeLine55();
    DecodeLine56();
    DecodeLine57();
    DecodeLine58();
    DecodeLine59();
    DecodeLine60();
    DecodeLine61();
  }

  lemma WritingLine53First()
    ensures Writable(("aa", Str("bb")), Spelling("", Bare([false, false]), "", "", Bare([false, false]), "", ""))
  {
    LettersTail("aa", [false, false], Arrow);
    LettersTail("bb", [false, false], CommaOrEnd);
  }

  lemma TextLine53First()
    ensures EntryText(("aa", Str("bb")), Spelling("", Bare([false, false]), "", "", Bare([false, false]), "", "")) == "aa=>bb"
  {
    PlainText("aa", [false, false]);
    PlainText("bb", [false, false]);
  }

  lemma WritingLine53Second()
    ensures Writable(("cc", Str("dd")), Spelling(" ", Bare([false, false]), "", "", Bare([false, false]), "", ""))
  {
    LettersTail("cc", [false, false], Arrow);
    LettersTail("dd", [false, false], CommaOrEnd);
  }

  lemma TextLine53Second()
    ensures EntryText(("cc", Str("dd")), Spelling(" ", Bare([false, false]), "", "", Bare([false, false]), "", "")) == " cc=>dd"
  {
    PlainText("cc", [false, false]);
    PlainText("dd", [false, false]);
  }

  lemma JoinLine53()
    ensures "aa=>bb, cc=>dd" == "aa=>bb" + "," + " cc=>dd"
  {
  }

  lemma DecodeLine53()
    ensures Decode("aa=>bb, cc=>dd") == Ok([("aa", Str("bb")), ("cc", Str("dd"))])
  {
    WritingLine53First();
    TextLine53First();
    WritingLine53Second();
    TextLine53Second();
    JoinLine53();
    DecodeTwo(("aa", Str("bb")), Spelling("", Bare([false, false]), "", "", Bare([false, false]), "", ""), "aa=>bb",
              ("cc", Str("dd")), Spelling(" ", Bare([false, false]), "", "", Bare([false, false]), "", ""), " cc=>dd",
              "aa=>bb, cc=>dd");
  }

  lemma WritingLine54First()
    ensures Writable(("aa", Str("bb")), Spelling("", Bare([false, false]), "", "", Bare([false, false]), "", " "))
  {
    LettersTail("aa", [false, false], Arrow);
    LettersTail("bb", [false, false], CommaOrEnd);
  }

  lemma TextLine54First()
    ensures EntryText(("aa", Str("bb")), Spelling("", Bare([false, false]), "", "", Bare([false, false]), "", " ")) == "aa=>bb "
  {
    PlainText("aa", [false, false]);
    PlainText("bb", [false, false]);
  }

  lemma WritingLine54Second()
    ensures Writable(("cc", Str("dd")), Spelling(" ", Bare([false, false]), "", "", Bare([false, false]), "", ""))
  {
    LettersTail("cc", [false, false], Arrow);
    LettersTail("dd", [false, false], CommaOrEnd);
  }

  lemma TextLine54Second()
    ensures EntryText(("cc", Str("dd")), Spelling(" ", Bare([false, false]), "", "", Bare([false, false]), "", "")) == " cc=>dd"
  {
    PlainText("cc", [false, false]);
    PlainText("dd", [false, false]);
  }

  lemma JoinLine54()
    ensures "aa=>bb , cc=>dd" == "aa=>bb " + "," + " cc=>dd"
  {
  }

  lemma DecodeLine54()
    ensures Decode("aa=>bb , cc=>dd") == Ok([("aa", Str("bb")), ("cc", Str("dd"))])
  {
    WritingLine54First();
    TextLine54First();
    WritingLine54Second();
    TextLine54Second();
    JoinLine54();
    DecodeTwo(("aa", Str("bb")), Spelling("", Bare([false, false]), "", "", Bare([false, false]), "", " "), "aa=>bb ",
              ("cc", Str("dd")), Spelling(" ", Bare([false, false]), "", "", Bare([false, false]), "", ""), " cc=>dd",
              "aa=>bb , cc=>dd");
  }

  lemma WritingLine55First()
    ensures Writable(("aa", Str("bb")), Spelling("", Bare([false, false]), "", "", Bare([false, false]), "", " "))
  {
    LettersTail("aa", [false, false], Arrow);
    LettersTail("bb", [false, false], CommaOrEnd);
  }

  lemma TextLine55First()
    ensures EntryText(("aa", Str("bb")), Spelling("", Bare([false, false]), "", "", Bare([false, false]), "", " ")) == "aa=>bb "
  {
    PlainText("aa", [false, false]);
    PlainText("bb", [false, false]);
  }

  lemma WritingLine55Second()
    ensures Writable(("cc", Str("dd")), Spelling("", Bare([false, false]), "", "", Bare([false, false]), "", ""))
  {
    LettersTail("cc", [false, false], Arrow);
    LettersTail("dd", [false, false], CommaOrEnd);
  }

  lemma TextLine55Second()
    ensures EntryText(("cc", Str("dd")), Spelling("", Bare([false, false]), "", "", Bare([false, false]), "", "")) == "cc=>dd"
  {
    PlainText("cc", [false, false]);
    PlainText("dd", [false, false]);
  }

  lemma JoinLine55()
    ensures "aa=>bb ,cc=>dd" == "aa=>bb " + "," + "cc=>dd"
  {
  }

  lemma DecodeLine55()
    ensures Decode("aa=>bb ,cc=>dd") == Ok([("aa", Str("bb")), ("cc", Str("dd"))])
  {
    WritingLine55First();
    TextLine55First();
    WritingLine55Second();
    TextLine55Second();
    JoinLine55();
    DecodeTwo(("aa", Str("bb")), Spelling("", Bare([false, false]), "", "", Bare([false, false]), "", " "), "aa=>bb ",
              ("cc", Str("dd")), Spelling("", Bare([false, false]), "", "", Bare([false, false]), "", ""), "cc=>dd",
              "aa=>bb ,cc=>dd");
  }

  lemma WritingLine56First()
    ensures Writable(("aa", Str("bb")), Spelling("", Bare([false, false]), "", "", Bare([false, false]), "", ""))
  {
    LettersTail("aa", [false, false], Arrow);
    LettersTail("bb", [false, false], CommaOrEnd);
  }

  lemma TextLine56First()
    ensures EntryText(("aa", Str("bb")), Spelling("", Bare([false, false]), "", "", Bare([false, false]), "", "")) == "aa=>bb"
  {
    PlainText("aa", [false, false]);
    PlainText("bb", [false, false]);
  }

  lemma WritingLine56Second()
    ensures Writable(("cc", Str("dd")), Spelling(" ", Quoted([]), "", "", Bare([false, false]), "", ""))
  {
    LettersTail("dd", [false, false], CommaOrEnd);
  }

  lemma TextLine56Second()
    ensures EntryText(("cc", Str("dd")), Spelling(" ", Quoted([]), "", "", Bare([false, false]), "", "")) == " \"cc\"=>dd"
  {
    PlainText("dd", [false, false]);
  }

  lemma JoinLine56()
    ensures "aa=>bb, \"cc\"=>dd" == "aa=>bb" + "," + " \"cc\"=>dd"
  {
  }

  lemma DecodeLine56()
    ensures Decode("aa=>bb, \"cc\"=>dd") == Ok([("aa", Str("bb")), ("cc", Str("dd"))])
  {
    WritingLine56First();
    TextLine56First();
    WritingLine56Second();
    TextLine56Second();
    JoinLine56();
    DecodeTwo(("aa", Str("bb")), Spelling("", Bare([false, false]), "", "", Bare([false, false]), "", ""), "aa=>bb",
              ("cc", Str("dd")), Spelling(" ", Quoted([]), "", "", Bare([false, false]), "", ""), " \"cc\"=>dd",
              "aa=>bb, \"cc\"=>dd");
  }

  lemma WritingLine57First()
    ensures Writable(("aa", Str("bb")), Spelling("", Bare([false, false]), "", "", Bare([false, false]), "", " "))
  {
    LettersTail("aa", [false, false], Arrow);
    LettersTail("bb", [false, false], CommaOrEnd);
  }

  lemma TextLine57First()
    ensures EntryText(("aa", Str("bb")), Spelling("", Bare([false, false]), "", "", Bare([false, false]), "", " ")) == "aa=>bb "
  {
    PlainText("aa", [false, false]);
    PlainText("bb", [false, false]);
  }

  lemma WritingLine57Second()
    ensures Writable(("cc", Str("dd")), Spelling(" ", Quoted([]), "", "", Bare([false, false]), "", ""))
  {
    LettersTail("dd", [false, false], CommaOrEnd);
  }

  lemma TextLine57Second()
    ensures EntryText(("cc", Str("dd")), Spelling(" ", Quoted([]), "", "", Bare([false, false]), "", "")) == " \"cc\"=>dd"
  {
    PlainText("dd", [false, false]);
  }

  lemma JoinLine57()
    ensures "aa=>bb , \"cc\"=>dd" == "aa=>bb " + "," + " \"cc\"=>dd"
  {
  }

  lemma DecodeLine57()
    ensures Decode("aa=>bb , \"cc\"=>dd") == Ok([("aa", Str("bb")), ("cc", Str("dd"))])
  {
    WritingLine57First();
    TextLine57First();
    WritingLine57Second();
    TextLine57Second();
    JoinLine57();
    DecodeTwo(("aa", Str("bb")), Spelling("", Bare([false, false]), "", "", Bare([false, false]), "", " "), "aa=>bb ",
              ("cc", Str("dd")), Spelling(" ", Quoted([]), "", "", Bare([false, false]), "", ""), " \"cc\"=>dd",
              "aa=>bb , \"cc\"=>dd");
  }

  lemma WritingLine58First()
    ensures Writable(("aa", Str("bb")), Spelling("", Bare([false, false]), "", "", Bare([false, false]), "", " "))
  {
    LettersTail("aa", [false, false], Arrow);
    LettersTail("bb", [false, false], CommaOrEnd);
  }

  lemma TextLine58First()
    ensures EntryText(("aa", Str("bb")), Spelling("", Bare([false, false]), "", "", Bare([false, false]), "", " ")) == "aa=>bb "
  {
    PlainText("aa", [false, false]);
    PlainText("bb", [false, false]);
  }

  lemma WritingLine58Second()
    ensures Writable(("cc", Str("dd")), Spelling("", Quoted([]), "", "", Bare([false, false]), "", ""))
  {
    LettersTail("dd", [false, false], CommaOrEnd);
  }

  lemma TextLine58Second()
    ensures EntryText(("cc", Str("dd")), Spelling("", Quoted([]), "", "", Bare([false, false]), "", "")) == "\"cc\"=>dd"
  {
    PlainText("dd", [false, false]);
  }

  lemma JoinLine58()
    ensures "aa=>bb ,\"cc\"=>dd" == "aa=>bb " + "," + "\"cc\"=>dd"
  {
  }

  lemma DecodeLine58()
    ensures Decode("aa=>bb ,\"cc\"=>dd") == Ok([("aa", Str("bb")), ("cc", Str("dd"))])
  {
    WritingLine58First();
    TextLine58First();
    WritingLine58Second();
    TextLine58Second();
    JoinLine58();
    DecodeTwo(("aa", Str("bb")), Spelling("", Bare([false, false]), "", "", Bare([false, false]), "", " "), "aa=>bb ",
              ("cc", Str("dd")), Spelling("", Quoted([]), "", "", Bare([false, false]), "", ""), "\"cc\"=>dd",
              "aa=>bb ,\"cc\"=>dd");
  }

  lemma WritingLine59First()
    ensures Writable(("aa", Str("bb")), Spelling("", Bare([false, false]), "", "", Quoted([]), "", ""))
  {
    LettersTail("aa", [false, false], Arrow);
  }

  lemma TextLine59First()
    ensures EntryText(("aa", Str("bb")), Spelling("", Bare([false, false]), "", "", Quoted([]), "", "")) == "aa=>\"bb\""
  {
    PlainText("aa", [false, false]);
  }

  lemma WritingLine59Second()
    ensures Writable(("cc", Str("dd")), Spelling(" ", Bare([false, false]), "", "", Bare([false, false]), "", ""))
  {
    LettersTail("cc", [false, false], Arrow);
    LettersTail("dd", [false, false], CommaOrEnd);
  }

  lemma TextLine59Second()
    ensures EntryText(("cc", Str("dd")), Spelling(" ", Bare([false, false]), "", "", Bare([false, false]), "", "")) == " cc=>dd"
  {
    PlainText("cc", [false, false]);
    PlainText("dd", [false, false]);
  }

  lemma JoinLine59()
    ensures "aa=>\"bb\", cc=>dd" == "aa=>\"bb\"" + "," + " cc=>dd"
  {
  }

  lemma DecodeLine59()
    ensures Decode("aa=>\"bb\", cc=>dd") == Ok([("aa", Str("bb")), ("cc", Str("dd"))])
  {
    WritingLine59First();
    TextLine59First();
    WritingLine59Second();
    TextLine59Second();
    JoinLine59();
    DecodeTwo(("aa", Str("bb")), Spelling("", Bare([false, false]), "", "", Quoted([]), "", ""), "aa=>\"bb\"",
              ("cc", Str("dd")), Spelling(" ", Bare([false, false]), "", "", Bare([false, false]), "", ""), " cc=>dd",
              "aa=>\"bb\", cc=>dd");
  }

  lemma WritingLine60First()
    ensures Writable(("aa", Str("bb")), Spelling("", Bare([false, false]), "", "", Quoted([]), "", " "))
  {
    LettersTail("aa", [false, false], Arrow);
  }

  lemma TextLine60First()
    ensures EntryText(("aa", Str("bb")), Spelling("", Bare([false, false]), "", "", Quoted([]), "", " ")) == "aa=>\"bb\" "
  {
    PlainText("aa", [false, false]);
  }

  lemma WritingLine60Second()
    ensures Writable(("cc", Str("dd")), Spelling(" ", Bare([false, false]), "", "", Bare([false, false]), "", ""))
  {
    LettersTail("cc", [false, false], Arrow);
    LettersTail("dd", [false, false], CommaOrEnd);
  }

  lemma TextLine60Second()
    ensures EntryText(("cc", Str("dd")), Spelling(" ", Bare([false, false]), "", "", Bare([false, false]), "", "")) == " cc=>dd"
  {
    PlainText("cc", [false, false]);
    PlainText("dd", [false, false]);
  }

  lemma JoinLine60()
    ensures "aa=>\"bb\" , cc=>dd" == "aa=>\"bb\" " + "," + " cc=>dd"
  {
  }

  lemma DecodeLine60()
    ensures Decode("aa=>\"bb\" , cc=>dd") == Ok([("aa", Str("bb")), ("cc", Str("dd"))])
  {
    WritingLine60First();
    TextLine60First();
    WritingLine60Second();
    TextLine60Second();
    JoinLine60();
    DecodeTwo(("aa", Str("bb")), Spelling("", Bare([false, false]), "", "", Quoted([]), "", " "), "aa=>\"bb\" ",
              ("cc", Str("dd")), Spelling(" ", Bare([false, false]), "", "", Bare([false, false]), "", ""), " cc=>dd",
              "aa=>\"bb\" , cc=>dd");
  }

  lemma WritingLine61First()
    ensures Writable(("aa", Str("bb")), Spelling("", Bare([false, false]), "", "", Quoted([]), "", " "))
  {
    LettersTail("aa", [false, false], Arrow);
  }

  lemma TextLine61First()
    ensures EntryText(("aa", Str("bb")), Spelling("", Bare([false, false]), "", "", Quoted([]), "", " ")) == "aa=>\"bb\" "
  {
    PlainText("aa", [false, false]);
  }

  lemma WritingLine61Second()
    ensures Writable(("cc", Str("dd")), Spelling("", Bare([false, false]), "", "", Bare([false, false]), "", ""))
  {
    LettersTail("cc", [false, false], Arrow);
    LettersTail("dd", [false, false], CommaOrEnd);
  }

  lemma TextLine61Second()
    ensures EntryText(("cc", Str("dd")), Spelling("", Bare([false, false]), "", "", Bare([false, false]), "", "")) == "cc=>dd"
  {
    PlainText("cc", [false, false]);
    PlainText("dd", [false, false]);
  }

  lemma JoinLine61()
    ensures "aa=>\"bb\" ,cc=>dd" == "aa=>\"bb\" " + "," + "cc=>dd"
  {
  }

  lemma DecodeLine61()
    ensures Decode("aa=>\"bb\" ,cc=>dd") == Ok([("aa", Str("bb")), ("cc", Str("dd"))])
  {
    WritingLine61First();
    TextLine61First();
    WritingLine61Second();
    TextLine61Second();
    JoinLine61();
    DecodeTwo(("aa", Str("bb")), Spelling("", Bare([false, false]), "", "", Quoted([]), "", " "), "aa=>\"bb\" ",
              ("cc", Str("dd")), Spelling("", Bare([false, false]), "", "", Bare([false, false]), "", ""), "cc=>dd",
              "aa=>\"bb\" ,cc=>dd");
  }

  /** Only a bare `null`, in any case, is the null marker; quoted it is a string, and a longer word is a string. */
  lemma DecodeNull()
    ensures Decode("aa=>null") == Ok([("aa", Null)])
    ensures Decode("aa=>NuLl") == Ok([("aa", Null)])
    ensures Decode("aa=>\"NuLl\"") == Ok([("aa", Str("NuLl"))])
    ensures Decode("aa=>nulla") == Ok([("aa", Str("nulla"))])
  {
    DecodeLine63();
    DecodeLine64();
    DecodeLine65();
    DecodeLine66();
  }

  lemma WritingLine63()
    ensures Writable(("aa", Null), Spelling("", Bare([false, false]), "", "", Bare([false, false, false, false]), "null", ""))
  {
    LettersTail("aa", [false, false], Arrow);
    LettersTail("null", [false, false, false, false], CommaOrEnd);
  }

  lemma TextLine63()
    ensures EntryText(("aa", Null), Spelling("", Bare([false, false]), "", "", Bare([false, false, false, false]), "null", "")) == "aa=>null"
  {
    PlainText("aa", [false, false]);
    PlainText("null", [false, false, false, false]);
  }

  lemma DecodeLine63()
    ensures Decode("aa=>null") == Ok([("aa", Null)])
  {
    WritingLine63();
    TextLine63();
    DecodeOne(("aa", Null), Spelling("", Bare([false, false]), "", "", Bare([false, false, false, false]), "null", ""), "aa=>null",
              false, "", "aa=>null");
  }

  lemma WritingLine64()
    ensures Writable(("aa", Null), Spelling("", Bare([false, false]), "", "", Bare([false, false, false, false]), "NuLl", ""))
  {
    LettersTail("aa", [false, false], Arrow);
    LettersTail("NuLl", [false, false, false, false], CommaOrEnd);
  }

  lemma TextLine64()
    ensures EntryText(("aa", Null), Spelling("", Bare([false, false]), "", "", Bare([false, false, false, false]), "NuLl", "")) == "aa=>NuLl"
  {
    PlainText("aa", [false, false]);
    PlainText("NuLl", [false, false, false, false]);
  }

  lemma DecodeLine64()
    ensures Decode("aa=>NuLl") == Ok([("aa", Null)])
  {
    WritingLine64();
    TextLine64();
    DecodeOne(("aa", Null), Spelling("", Bare([false, false]), "", "", Bare([false, false, false, false]), "NuLl", ""), "aa=>NuLl",
              false, "", "aa=>NuLl");
  }

  lemma WritingLine65()
    ensures Writable(("aa", Str("NuLl")), Spelling("", Bare([false, false]), "", "", Quoted([]), "", ""))
  {
    LettersTail("aa", [false, false], Arrow);
  }

  lemma TextLine65()
    ensures EntryText(("aa", Str("NuLl")), Spelling("", Bare([false, false]), "", "", Quoted([]), "", "")) == "aa=>\"NuLl\""
  {
    PlainText("aa", [false, false]);
  }

  lemma DecodeLine65()
    ensures Decode("aa=>\"NuLl\"") == Ok([("aa", Str("NuLl"))])
  {
    WritingLine65();
    TextLine65();
    DecodeOne(("aa", Str("NuLl")), Spelling("", Bare([false, false]), "", "", Quoted([]), "", ""), "aa=>\"NuLl\"",
              false, "", "aa=>\"NuLl\"");
  }

  lemma WritingLine66()
    ensures Writable(("aa", Str("nulla")), Spelling("", Bare([false, false]), "", "", Bare([false, false, false, false, false]), "", ""))
  {
    LettersTail("aa", [false, false], Arrow);
    LettersTail("nulla", [false, false, false, false, false], CommaOrEnd);
  }

  lemma TextLine66()
    ensures EntryText(("aa", Str("nulla")), Spelling("", Bare([false, false]), "", "", Bare([false, false, false, false, false]), "", "")) == "aa=>nulla"
  {
    PlainText("aa", [false, false]);
    PlainText("nulla", [false, false, false, false, false]);
  }

  lemma DecodeLine66()
    ensures Decode("aa=>nulla") == Ok([("aa", Str("nulla"))])
  {
    WritingLine66();
    TextLine66();
    DecodeOne(("aa", Str("nulla")), Spelling("", Bare([false, false]), "", "", Bare([false, false, false, false, false]), "", ""), "aa=>nulla",
              false, "", "aa=>nulla");
  }

  /** A number written bare is decoded as its text. */
  lemma DecodeNumberText()
    ensures Decode("a=>5") == Ok([("a", Str("5"))])
    ensures Decode("a=>5.5") == Ok([("a", Str("5.5"))])
  {
    DecodeLine68();
    DecodeLine69();
  }

  lemma WritingLine68()
    ensures Writable(("a", Str("5")), Spelling("", Bare([false]), "", "", Bare([false]), "", ""))
  {
    LettersTail("a", [false], Arrow);
  }

  lemma TextLine68()
    ensures EntryText(("a", Str("5")), Spelling("", Bare([false]), "", "", Bare([false]), "", "")) == "a=>5"
  {
    PlainText("a", [false]);
    PlainText("5", [false]);
  }

  lemma DecodeLine68()
    ensures Decode("a=>5") == Ok([("a", Str("5"))])
  {
    WritingLine68();
    TextLine68();
    DecodeOne(("a", Str("5")), Spelling("", Bare([false]), "", "", Bare([false]), "", ""), "a=>5",
              false, "", "a=>5");
  }

  lemma WritingLine69()
    ensures Writable(("a", Str("5.5")), Spelling("", Bare([false]), "", "", Bare([false, false, false]), "", ""))
  {
    LettersTail("a", [false], Arrow);
  }

  lemma TextLine69()
    ensures EntryText(("a", Str("5.5")), Spelling("", Bare([false]), "", "", Bare([false, false, false]), "", "")) == "a=>5.5"
  {
    PlainText("a", [false]);
    PlainText("5.5", [false, false, false]);
  }

  lemma DecodeLine69()
    ensures Decode("a=>5.5") == Ok([("a", Str("5.5"))])
  {
    WritingLine69();
    TextLine69();
    DecodeOne(("a", Str("5.5")), Spelling("", Bare([false]), "", "", Bare([false, false, false]), "", ""), "a=>5.5",
              false, "", "a=>5.5");
  }

  /** Inside quotes `=`, `>` and `,` are content and `\"` is a quote. */
  lemma DecodeQuotedSpecials()
    ensures Decode("\"a\"=>\"==>,\\\"\"") == Ok([("a", Str("==>,\""))])
  {
    DecodeLine72();
  }

  lemma WritingLine72()
    ensures Writable(("a", Str("==>,\"")), Spelling("", Quoted([]), "", "", Quoted([]), "", ""))
  {
  }

  lemma TextLine72()
    ensures EntryText(("a", Str("==>,\"")), Spelling("", Quoted([]), "", "", Quoted([]), "", "")) == "\"a\"=>\"==>,\\\"\""
  {
  }

  lemma DecodeLine72()
    ensures Decode("\"a\"=>\"==>,\\\"\"") == Ok([("a", Str("==>,\""))])
  {
    WritingLine72();
    TextLine72();
    DecodeOne(("a", Str("==>,\"")), Spelling("", Quoted([]), "", "", Quoted([]), "", ""), "\"a\"=>\"==>,\\\"\"",
              false, "", "\"a\"=>\"==>,\\\"\"");
  }

  /** One `,` after the last pair is allowed, with whitespace around it. */
  lemma DecodeTrailingComma()
    ensures Decode("a=>b,") == Ok([("a", Str("b"))])
    ensures Decode("a=>b ,") == Ok([("a", Str("b"))])
    ensures Decode("a=>b, ") == Ok([("a", Str("b"))])
    ensures Decode("a=>b , ") == Ok([("a", Str("b"))])
  {
    DecodeLine74();
    DecodeLine75();
    DecodeLine76();
    DecodeLine77();
  }

  lemma WritingLine74()
    ensures Writable(("a", Str("b")), Spelling("", Bare([false]), "", "", Bare([false]), "", ""))
  {
    LettersTail("a", [false], Arrow);
    LettersTail("b", [false], CommaOrEnd);
  }

  lemma TextLine74()
    ensures EntryText(("a", Str("b")), Spelling("", Bare([false]), "", "", Bare([false]), "", "")) == "a=>b"
  {
    PlainText("a", [false]);
    PlainText("b", [false]);
  }

  lemma JoinLine74()
    ensures "a=>b," == "a=>b" + "," + ""
  {
  }

  lemma DecodeLine74()
    ensures Decode("a=>b,") == Ok([("a", Str("b"))])
  {
    WritingLine74();
    TextLine74();
    JoinLine74();
    DecodeOne(("a", Str("b")), Spelling("", Bare([false]), "", "", Bare([false]), "", ""), "a=>b",
              true, "", "a=>b,");
  }

  lemma WritingLine75()
    ensures Writable(("a", Str("b")), Spelling("", Bare([false]), "", "", Bare([false]), "", " "))
  {
    LettersTail("a", [false], Arrow);
    LettersTail("b", [false], CommaOrEnd);
  }

  lemma TextLine75()
    ensures EntryText(("a", Str("b")), Spelling("", Bare([false]), "", "", Bare([false]), "", " ")) == "a=>b "
  {
    PlainText("a", [false]);
    PlainText("b", [false]);
  }

  lemma JoinLine75()
    ensures "a=>b ," == "a=>b " + "," + ""
  {
  }

  lemma DecodeLine75()
    ensures Decode("a=>b ,") == Ok([("a", Str("b"))])
  {
    WritingLine75();
    TextLine75();
    JoinLine75();
    DecodeOne(("a", Str("b")), Spelling("", Bare([false]), "", "", Bare([false]), "", " "), "a=>b ",
              true, "", "a=>b ,");
  }

  lemma WritingLine76()
    ensures Writable(("a", Str("b")), Spelling("", Bare([false]), "", "", Bare([false]), "", ""))
  {
    LettersTail("a", [false], Arrow);
    LettersTail("b", [false], CommaOrEnd);
  }

  lemma TextLine76()
    ensures EntryText(("a", Str("b")), Spelling("", Bare([false]), "", "", Bare([false]), "", "")) == "a=>b"
  {
    PlainText("a", [false]);
    PlainText("b", [false]);
  }

  lemma JoinLine76()
    ensures "a=>b, " == "a=>b" + "," + " "
  {
  }

  lemma DecodeLine76()
    ensures Decode("a=>b, ") == Ok([("a", Str("b"))])
  {
    WritingLine76();
    TextLine76();
    JoinLine76();
    DecodeOne(("a", Str("b")), Spelling("", Bare([false]), "", "", Bare([false]), "", ""), "a=>b",
              true, " ", "a=>b, ");
  }

  lemma WritingLine77()
    ensures Writable(("a", Str("b")), Spelling("", Bare([false]), "", "", Bare([false]), "", " "))
  {
    LettersTail("a", [false], Arrow);
    LettersTail("b", [false], CommaOrEnd);
  }

  lemma TextLine77()
    ensures EntryText(("a", Str("b")), Spelling("", Bare([false]), "", "", Bare([false]), "", " ")) == "a=>b "
  {
    PlainText("a", [false]);
    PlainText("b", [false]);
  }

  lemma JoinLine77()
    ensures "a=>b , " == "a=>b " + "," + " "
  {
  }

  lemma DecodeLine77()
    ensures Decode("a=>b , ") == Ok([("a", Str("b"))])
  {
    WritingLine77();
    TextLine77();
    JoinLine77();
    DecodeOne(("a", Str("b")), Spelling("", Bare([false]), "", "", Bare([false]), "", " "), "a=>b ",
              true, " ", "a=>b , ");
  }

  /** Empty quoted fields, an escaped quote inside quotes, and a quote inside bare fields. */
  lemma DecodeEmptyAndQuote()
    ensures Decode("a=>\"\"") == Ok([("a", Str(""))])
    ensures Decode("\"\"=>\"\\\"\"") == Ok([("", Str("\""))])
    ensures Decode("\\\"a=>q\"w") == Ok([("\"a", Str("q\"w"))])
  {
    DecodeLine79();
    DecodeLine80();
    DecodeLine81();
  }

  lemma WritingLine79()
    ensures Writable(("a", Str("")), Spelling("", Bare([false]), "", "", Quoted([]), "", ""))
  {
    LettersTail("a", [false], Arrow);
  }

  lemma TextLine79()
    ensures EntryText(("a", Str("")), Spelling("", Bare([false]), "", "", Quoted([]), "", "")) == "a=>\"\""
  {
    PlainText("a", [false]);
  }

  lemma DecodeLine79()
    ensures Decode("a=>\"\"") == Ok([("a", Str(""))])
  {
    WritingLine79();
    TextLine79();
    DecodeOne(("a", Str("")), Spelling("", Bare([false]), "", "", Quoted([]), "", ""), "a=>\"\"",
              false, "", "a=>\"\"");
  }

  lemma WritingLine80()
    ensures Writable(("", Str("\"")), Spelling("", Quoted([]), "", "", Quoted([]), "", ""))
  {
  }

  lemma TextLine80()
    ensures EntryText(("", Str("\"")), Spelling("", Quoted([]), "", "", Quoted([]), "", "")) == "\"\"=>\"\\\"\""
  {
  }

  lemma DecodeLine80()
    ensures Decode("\"\"=>\"\\\"\"") == Ok([("", Str("\""))])
  {
    WritingLine80();
    TextLine80();
    DecodeOne(("", Str("\"")), Spelling("", Quoted([]), "", "", Quoted([]), "", ""), "\"\"=>\"\\\"\"",
              false, "", "\"\"=>\"\\\"\"");
  }

  lemma WritingLine81()
    ensures Writable(("\"a", Str("q\"w")), Spelling("", Bare([true, false]), "", "", Bare([false, false, false]), "", ""))
  {
  }

  lemma TextLine81()
    ensures EntryText(("\"a", Str("q\"w")), Spelling("", Bare([true, false]), "", "", Bare([false, false, false]), "", "")) == "\\\"a=>q\"w"
  {
    PlainText("q\"w", [false, false, false]);
    PlainText("a", [false]);
  }

  lemma DecodeLine81()
    ensures Decode("\\\"a=>q\"w") == Ok([("\"a", Str("q\"w"))])
  {
    WritingLine81();
    TextLine81();
    DecodeOne(("\"a", Str("q\"w")), Spelling("", Bare([true, false]), "", "", Bare([false, false, false]), "", ""), "\\\"a=>q\"w",
              false, "", "\\\"a=>q\"w");
  }

  /** In a bare key `>` and `,` are content; in a bare value `=` is content. */
  lemma DecodeSeparatorChars()
    ensures Decode(">,=>q=w,") == Ok([(">,", Str("q=w"))])
    ensures Decode(">, =>q=w,") == Ok([(">,", Str("q=w"))])
    ensures Decode(">, =>q=w ,") == Ok([(">,", Str("q=w"))])
    ensures Decode(">, =>q=w , ") == Ok([(">,", Str("q=w"))])
    ensures Decode(">,=>q=w , ") == Ok([(">,", Str("q=w"))])
    ensures Decode(">,=>q=w, ") == Ok([(">,", Str("q=w"))])
  {
    DecodeLine83();
    DecodeLine84();
    DecodeLine85();
    DecodeLine86();
    DecodeLine87();
    DecodeLine88();
  }

  lemma WritingLine83()
    ensures Writable((">,", Str("q=w")), Spelling("", Bare([false, false]), "", "", Bare([false, false, false]), "", ""))
  {
  }

  lemma TextLine83()
    ensures EntryText((">,", Str("q=w")), Spelling("", Bare([false, false]), "", "", Bare([false, false, false]), "", "")) == ">,=>q=w"
  {
    PlainText(">,", [false, false]);
    PlainText("q=w", [false, false, false]);
  }

  lemma JoinLine83()
    ensures ">,=>q=w," == ">,=>q=w" + "," + ""
  {
  }

  lemma DecodeLine83()
    ensures Decode(">,=>q=w,") == Ok([(">,", Str("q=w"))])
  {
    WritingLine83();
    TextLine83();
    JoinLine83();
    DecodeOne((">,", Str("q=w")), Spelling("", Bare([false, false]), "", "", Bare([false, false, false]), "", ""), ">,=>q=w",
              true, "", ">,=>q=w,");
  }

  lemma WritingLine84()
    ensures Writable((">,", Str("q=w")), Spelling("", Bare([false, false]), " ", "", Bare([false, false, false]), "", ""))
  {
  }

  lemma TextLine84()
    ensures EntryText((">,", Str("q=w")), Spelling("", Bare([false, false]), " ", "", Bare([false, false, false]), "", "")) == ">, =>q=w"
  {
    PlainText(">,", [false, false]);
    PlainText("q=w", [false, false, false]);
  }

  lemma JoinLine84()
    ensures ">, =>q=w," == ">, =>q=w" + "," + ""
  {
  }

  lemma DecodeLine84()
    ensures Decode(">, =>q=w,") == Ok([(">,", Str("q=w"))])
  {
    WritingLine84();
    TextLine84();
    JoinLine84();
    DecodeOne((">,", Str("q=w")), Spelling("", Bare([false, false]), " ", "", Bare([false, false, false]), "", ""), ">, =>q=w",
              true, "", ">, =>q=w,");
  }

  lemma WritingLine85()
    ensures Writable((">,", Str("q=w")), Spelling("", Bare([false, false]), " ", "", Bare([false, false, false]), "", " "))
  {
  }

  lemma TextLine85()
    ensures EntryText((">,", Str("q=w")), Spelling("", Bare([false, false]), " ", "", Bare([false, false, false]), "", " ")) == ">, =>q=w "
  {
    PlainText(">,", [false, false]);
    PlainText("q=w", [false, false, false]);
  }

  lemma JoinLine85()
    ensures ">, =>q=w ," == ">, =>q=w " + "," + ""
  {
  }

  lemma DecodeLine85()
    ensures Decode(">, =>q=w ,") == Ok([(">,", Str("q=w"))])
  {
    WritingLine85();
    TextLine85();
    JoinLine85();
    DecodeOne((">,", Str("q=w")), Spelling("", Bare([false, false]), " ", "", Bare([false, false, false]), "", " "), ">, =>q=w ",
              true, "", ">, =>q=w ,");
  }

  lemma WritingLine86()
    ensures Writable((">,", Str("q=w")), Spelling("", Bare([false, false]), " ", "", Bare([false, false, false]), "", " "))
  {
  }

  lemma TextLine86()
    ensures EntryText((">,", Str("q=w")), Spelling("", Bare([false, false]), " ", "", Bare([false, false, false]), "", " ")) == ">, =>q=w "
  {
    PlainText(">,", [false, false]);
    PlainText("q=w", [false, false, false]);
  }

  lemma JoinLine86()
    ensures ">, =>q=w , " == ">, =>q=w " + "," + " "
  {
  }

  lemma DecodeLine86()
    ensures Decode(">, =>q=w , ") == Ok([(">,", Str("q=w"))])
  {
    WritingLine86();
    TextLine86();
    JoinLine86();
    DecodeOne((">,", Str("q=w")), Spelling("", Bare([false, false]), " ", "", Bare([false, false, false]), "", " "), ">, =>q=w ",
              true, " ", ">, =>q=w , ");
  }

  lemma WritingLine87()
    ensures Writable((">,", Str("q=w")), Spelling("", Bare([false, false]), "", "", Bare([false, false, false]), "", " "))
  {
  }

  lemma TextLine87()
    ensures EntryText((">,", Str("q=w")), Spelling("", Bare([false, false]), "", "", Bare([false, false, false]), "", " ")) == ">,=>q=w "
  {
    PlainText(">,", [false, false]);
    PlainText("q=w", [false, false, false]);
  }

  lemma JoinLine87()
    ensures ">,=>q=w , " == ">,=>q=w " + "," + " "
  {
  }

  lemma DecodeLine87()
    ensures Decode(">,=>q=w , ") == Ok([(">,", Str("q=w"))])
  {
    WritingLine87();
    TextLine87();
    JoinLine87();
    DecodeOne((">,", Str("q=w")), Spelling("", Bare([false, false]), "", "", Bare([false, false, false]), "", " "), ">,=>q=w ",
              true, " ", ">,=>q=w , ");
  }

  lemma WritingLine88()
    ensures Writable((">,", Str("q=w")), Spelling("", Bare([false, false]), "", "", Bare([false, false, false]), "", ""))
  {
  }

  lemma TextLine88()
    ensures EntryText((">,", Str("q=w")), Spelling("", Bare([false, false]), "", "", Bare([false, false, false]), "", "")) == ">,=>q=w"
  {
    PlainText(">,", [false, false]);
    PlainText("q=w", [false, false, false]);
  }

  lemma JoinLine88()
    ensures ">,=>q=w, " == ">,=>q=w" + "," + " "
  {
  }

  lemma DecodeLine88()
    ensures Decode(">,=>q=w, ") == Ok([(">,", Str("q=w"))])
  {
    WritingLine88();
    TextLine88();
    JoinLine88();
    DecodeOne((">,", Str("q=w")), Spelling("", Bare([false, false]), "", "", Bare([false, false, false]), "", ""), ">,=>q=w",
              true, " ", ">,=>q=w, ");
  }

  /** A quoted key starting with `=` or an escaped quote, and bare values with an escaped or a plain `=` or `>`. */
  lemma DecodeEscapedBare()
    ensures Decode("\"=a\"=>q\\=w") == Ok([("=a", Str("q=w"))])
    ensures Decode("\"\\\"a\"=>q>w") == Ok([("\"a", Str("q>w"))])
  {
    DecodeLine91();
    DecodeLine92();
  }

  /** The row the test table leaves commented out: an escaped `=` at the
      start of a bare key. The model reads it as the row expects. */
  lemma DecodeEscapedKey()
    ensures Decode("\\=a=>q=w") == Ok([("=a", Str("q=w"))])
  {
    WritingLine90();
    TextLine90();
    DecodeOne(("=a", Str("q=w")), Spelling("", Bare([true, false]), "", "", Bare([false, false, false]), "", ""), "\\=a=>q=w",
              false, "", "\\=a=>q=w");
  }

  /** A backslash inside quotes takes the next character literally,
      whatever it is, not only `"` and `\`. */
  lemma DecodeQuotedAnyEscape()
    ensures Decode("\"\\a\"=>b") == Ok([("a", Str("b"))])
    ensures Decode("\"a\"=>\"\\b\\c\"") == Ok([("a", Str("bc"))])
  {
    WritingEscapedQuotedKey();
    TextEscapedQuotedKey();
    DecodeOne(("a", Str("b")), Spelling("", Quoted([true]), "", "", Bare([false]), "", ""), "\"\\a\"=>b",
              false, "", "\"\\a\"=>b");
    WritingEscapedQuotedValue();
    TextEscapedQuotedValue();
    DecodeOne(("a", Str("bc")), Spelling("", Quoted([]), "", "", Quoted([true, true]), "", ""), "\"a\"=>\"\\b\\c\"",
              false, "", "\"a\"=>\"\\b\\c\"");
  }

  lemma WritingEscapedQuotedKey()
    ensures Writable(("a", Str("b")), Spelling("", Quoted([true]), "", "", Bare([false]), "", ""))
  {
  }

  lemma TextEscapedQuotedKey()
    ensures EntryText(("a", Str("b")), Spelling("", Quoted([true]), "", "", Bare([false]), "", "")) == "\"\\a\"=>b"
  {
    PlainText("b", [false]);
  }

  lemma WritingEscapedQuotedValue()
    ensures Writable(("a", Str("bc")), Spelling("", Quoted([]), "", "", Quoted([true, true]), "", ""))
  {
  }

  lemma TextEscapedQuotedValue()
    ensures EntryText(("a", Str("bc")), Spelling("", Quoted([]), "", "", Quoted([true, true]), "", "")) == "\"a\"=>\"\\b\\c\""
  {
    assert QuotedText("c", [true]) == "\\c";
    assert QuotedText("bc", [true, true]) == "\\b\\c";
  }

  lemma WritingLine90()
    ensures Writable(("=a", Str("q=w")), Spelling("", Bare([true, false]), "", "", Bare([false, false, false]), "", ""))
  {
  }

  lemma TextLine90()
    ensures EntryText(("=a", Str("q=w")), Spelling("", Bare([true, false]), "", "", Bare([false, false, false]), "", "")) == "\\=a=>q=w"
  {
    PlainText("a", [false]);
    PlainText("q=w", [false, false, false]);
  }

  lemma WritingLine91()
    ensures Writable(("=a", Str("q=w")), Spelling("", Quoted([]), "", "", Bare([false, true, false]), "", ""))
  {
  }

  lemma TextLine91()
    ensures EntryText(("=a", Str("q=w")), Spelling("", Quoted([]), "", "", Bare([false, true, false]), "", "")) == "\"=a\"=>q\\=w"
  {
    PlainText("w", [false]);
    assert BareText("=w", [true, false]) == "\\=w";
  }

  lemma DecodeLine91()
    ensures Decode("\"=a\"=>q\\=w") == Ok([("=a", Str("q=w"))])
  {
    WritingLine91();
    TextLine91();
    DecodeOne(("=a", Str("q=w")), Spelling("", Quoted([]), "", "", Bare([false, true, false]), "", ""), "\"=a\"=>q\\=w",
              false, "", "\"=a\"=>q\\=w");
  }

  lemma WritingLine92()
    ensures Writable(("\"a", Str("q>w")), Spelling("", Quoted([]), "", "", Bare([false, false, false]), "", ""))
  {
  }

  lemma TextLine92()
    ensures EntryText(("\"a", Str("q>w")), Spelling("", Quoted([]), "", "", Bare([false, false, false]), "", "")) == "\"\\\"a\"=>q>w"
  {
    PlainText("q>w", [false, false, false]);
  }

  lemma DecodeLine92()
    ensures Decode("\"\\\"a\"=>q>w") == Ok([("\"a", Str("q>w"))])
  {
    WritingLine92();
    TextLine92();
    DecodeOne(("\"a", Str("q>w")), Spelling("", Quoted([]), "", "", Bare([false, false, false]), "", ""), "\"\\\"a\"=>q>w",
              false, "", "\"\\\"a\"=>q>w");
  }

  /** Inputs the decoder refuses, one for each kind of error: a quote that
      is never closed, a key with no `=>` after it (also when it follows a
      quoted value with no `,` in between), a missing value and a bare
      value cut short by a lone backslash. */
  lemma DecodeErrors()
    ensures Decode("\"a") == Err(UnterminatedQuote)
    ensures Decode("a") == Err(MissingSeparator)
    ensures Decode("a=>") == Err(MalformedEntry)
    ensures Decode("a=>b\\") == Err(MalformedEntry)
    ensures Decode("a=>\"b\"c") == Err(MissingSeparator)
  {
    UnclosedQuote();
    NoArrow();
    NoValue();
    LoneBackslash();
    TextAfterQuote();
  }

  lemma UnclosedQuote()
    ensures Decode("\"a") == Err(UnterminatedQuote)
  {
    var s := "\"a";
    assert SkipSpace(s) == s;
    assert ScanQuoted(s[1..]) == Err(UnterminatedQuote);
    assert ReadField(s, Arrow) == Err(UnterminatedQuote);
  }

  lemma NoArrow()
    ensures Decode("a") == Err(MissingSeparator)
  {
    KeyWithoutArrow('a');
  }

  /** A one-letter key and nothing after it. */
  lemma KeyWithoutArrow(c: char)
    requires IsLetter(c)
    ensures ParseEntries([c]) == Err(MissingSeparator)
  {
    var s := [c];
    assert SkipSpace(s) == s;
    assert ScanBare(s[1..], Arrow) == Err(MissingSeparator);
    assert ScanBare(s, Arrow) == Err(MissingSeparator);
    assert ReadField(s, Arrow) == Err(MissingSeparator);
  }

  /** A one-letter bare key, read up to the `=>` that follows it. */
  lemma LetterKey(c: char, rest: string)
    requires IsLetter(c) && AtTerminator(rest, Arrow)
    ensures ReadField([c] + rest, Arrow) == Ok((Field([c], false), rest))
  {
    var s := [c] + rest;
    assert SkipSpace(s) == s;
    assert s[1..] == rest;
    assert ScanBare(rest, Arrow) == Ok(([], rest));
    assert [c] + [] == [c];
  }

  /** A one-letter bare key and `=>`: what follows is read as the value. */
  lemma LetterKeyPair(k: char, v: string)
    requires IsLetter(k)
    ensures ParseEntry([k, '=', '>'] + v) ==
      match ReadField(v, CommaOrEnd)
      case Err(e) => Err(e)
      case Ok((f, after)) => Ok((([k], Interpret(f)), SkipSpace(after)))
  {
    var s := [k, '=', '>'] + v;
    LetterKey(k, s[1..]);
    assert s == [k] + s[1..];
    assert SkipSpace(s[1..]) == s[1..] && s[1..][2..] == v;
  }

  lemma NoValue()
    ensures Decode("a=>") == Err(MalformedEntry)
  {
    LetterKeyPair('a', []);
    assert "a=>" == ['a', '=', '>'] + [];
    assert ReadField([], CommaOrEnd) == Err(MalformedEntry);
  }

  lemma LoneBackslash()
    ensures Decode("a=>b\\") == Err(MalformedEntry)
  {
    var v := "b\\";
    LetterKeyPair('a', v);
    assert "a=>b\\" == ['a', '=', '>'] + v;
    assert SkipSpace(v) == v;
    assert ScanBare(v[1..], CommaOrEnd) == Err(MalformedEntry);
    assert ReadField(v, CommaOrEnd) == Err(MalformedEntry);
  }

  /** A one-character quoted value, read up to its closing quote. */
  lemma QuotedChar(c: char, rest: string)
    requires c != '"' && c != '\\'
    ensures ReadField(['"', c, '"'] + rest, CommaOrEnd) == Ok((Field([c], true), rest))
  {
    var v := ['"', c, '"'] + rest;
    assert SkipSpace(v) == v;
    assert v[1..][1..] == v[2..] && v[2..][1..] == rest;
    assert ScanQuoted(v[2..]) == Ok(([], rest));
    assert [c] + [] == [c];
  }

  /** `k=>"x"` followed by anything: the quoted value ends at its closing
      quote, whatever comes next. */
  lemma QuotedPairThen(k: char, x: char, rest: string)
    requires IsLetter(k) && x != '"' && x != '\\'
    ensures ParseEntry([k, '=', '>', '"', x, '"'] + rest) == Ok((([k], Str([x])), SkipSpace(rest)))
  {
    var v := ['"', x, '"'] + rest;
    assert [k, '=', '>', '"', x, '"'] + rest == [k, '=', '>'] + v;
    LetterKeyPair(k, v);
    QuotedChar(x, rest);
  }

  lemma TextAfterQuote()
    ensures Decode("a=>\"b\"c") == Err(MissingSeparator)
  {
    QuotedPairThen('a', 'b', "c");
    assert "a=>\"b\"c" == ['a', '=', '>', '"', 'b', '"'] + "c";
    assert SkipSpace("c") == "c";
    KeyWithoutArrow('c');
  }

  /** The `,` between pairs may be left out after a quoted value. */
  lemma DecodeNoSeparator()
    ensures Decode("a=>\"b\" c=>d") == Ok([("a", Str("b")), ("c", Str("d"))])
  {
    ParseNoSeparator();
    BuildDistinct([("a", Str("b")), ("c", Str("d"))]);
  }

  lemma ParseNoSeparator()
    ensures ParseEntries("a=>\"b\" c=>d") == Ok([("a", Str("b")), ("c", Str("d"))])
  {
    SplitNoSeparator();
    ParseNoSeparatorPieces();
  }

  lemma SplitNoSeparator()
    ensures "a=>\"b\" c=>d" == ['a', '=', '>', '"', 'b', '"'] + " c=>d"
  {
  }

  lemma ParseNoSeparatorPieces()
    ensures ParseEntries(['a', '=', '>', '"', 'b', '"'] + " c=>d") == Ok([("a", Str("b")), ("c", Str("d"))])
  {
    ParseSecondPair();
    ParseAfterQuoted('a', 'b', " c=>d", [("c", Str("d"))]);
    assert [(['a'], Str(['b']))] + [("c", Str("d"))] == [("a", Str("b")), ("c", Str("d"))];
  }

  lemma ParseSecondPair()
    ensures SkipSpace(" c=>d") == "c=>d"
    ensures ParseEntries("c=>d") == Ok([("c", Str("d"))])
  {
    WritingNoSeparator();
    TextNoSeparator();
    ParseSingle(("c", Str("d")), Spelling("", Bare([false]), "", "", Bare([false]), "", ""), false, "");
  }

  /** After `k=>"x"`, reading goes on with whatever follows, `,` or not. */
  lemma ParseAfterQuoted(k: char, x: char, rest: string, ms: seq<Entry>)
    requires IsLetter(k) && x != '"' && x != '\\'
    requires SkipSpace(rest) != [] && SkipSpace(rest)[0] != ','
    requires ParseEntries(SkipSpace(rest)) == Ok(ms)
    ensures ParseEntries([k, '=', '>', '"', x, '"'] + rest) == Ok([([k], Str([x]))] + ms)
  {
    var s := [k, '=', '>', '"', x, '"'] + rest;
    assert SkipSpace(s) == s;
    QuotedPairThen(k, x, rest);
  }

  lemma WritingNoSeparator()
    ensures Writable(("c", Str("d")), Spelling("", Bare([false]), "", "", Bare([false]), "", ""))
  {
    LettersTail("c", [false], Arrow);
    LettersTail("d", [false], CommaOrEnd);
  }

  lemma TextNoSeparator()
    ensures EntryText(("c", Str("d")), Spelling("", Bare([false]), "", "", Bare([false]), "", "")) == "c=>d"
  {
    PlainText("c", [false]);
    PlainText("d", [false]);
  }

  /** A repeated key keeps the position of its first occurrence and takes
      the value of its last. */
  lemma DecodeRepeatedKey()
    ensures Decode("a=>x, b=>y, a=>z") == Ok([("a", Str("z")), ("b", Str("y"))])
  {
    var ps := [("a", Str("x")), ("b", Str("y")), ("a", Str("z"))];
    ParseRepeatedKey();
    RepeatedKeyBuild();
  }

  lemma ParseRepeatedKey()
    ensures ParseEntries("a=>x, b=>y, a=>z") == Ok([("a", Str("x")), ("b", Str("y")), ("a", Str("z"))])
  {
    var ps := [("a", Str("x")), ("b", Str("y")), ("a", Str("z"))];
    var sps := [Spelling("", Bare([false]), "", "", Bare([false]), "", ""), Spelling(" ", Bare([false]), "", "", Bare([false]), "", ""), Spelling(" ", Bare([false]), "", "", Bare([false]), "", "")];
    WritingRepeatedFirst();
    WritingRepeatedSecond();
    WritingRepeatedThird();
    TextRepeatedFirst();
    TextRepeatedSecond();
    TextRepeatedThird();
    assert ps[1..][1..] == [ps[2]] && sps[1..][1..] == [sps[2]];
    assert AllWritable(ps[1..][1..], sps[1..][1..]);
    assert AllWritable(ps, sps);
    assert Render(ps[1..][1..], sps[1..][1..], false, "") == " a=>z";
    assert Render(ps, sps, false, "") == "a=>x, b=>y, a=>z";
    ParseRendered(ps, sps, false, "");
  }

  lemma RepeatedKeyBuild()
    ensures Build([("a", Str("x")), ("b", Str("y")), ("a", Str("z"))]) == [("a", Str("z")), ("b", Str("y"))]
  {
    var ps := [("a", Str("x")), ("b", Str("y")), ("a", Str("z"))];
    assert ps[..2][..1] == [ps[0]] && ps[..2] == [ps[0], ps[1]];
    assert Build([ps[0]]) == [ps[0]];
    assert Build(ps[..2]) == [ps[0], ps[1]];
  }

  lemma WritingRepeatedFirst()
    ensures Writable(("a", Str("x")), Spelling("", Bare([false]), "", "", Bare([false]), "", ""))
  {
    LettersTail("a", [false], Arrow);
    LettersTail("x", [false], CommaOrEnd);
  }

  lemma TextRepeatedFirst()
    ensures EntryText(("a", Str("x")), Spelling("", Bare([false]), "", "", Bare([false]), "", "")) == "a=>x"
  {
    PlainText("a", [false]);
    PlainText("x", [false]);
  }

  lemma WritingRepeatedSecond()
    ensures Writable(("b", Str("y")), Spelling(" ", Bare([false]), "", "", Bare([false]), "", ""))
  {
    LettersTail("b", [false], Arrow);
    LettersTail("y", [false], CommaOrEnd);
  }

  lemma TextRepeatedSecond()
    ensures EntryText(("b", Str("y")), Spelling(" ", Bare([false]), "", "", Bare([false]), "", "")) == " b=>y"
  {
    PlainText("b", [false]);
    PlainText("y", [false]);
  }

  lemma WritingRepeatedThird()
    ensures Writable(("a", Str("z")), Spelling(" ", Bare([false]), "", "", Bare([false]), "", ""))
  {
    LettersTail("a", [false], Arrow);
    LettersTail("z", [false], CommaOrEnd);
  }

  lemma TextRepeatedThird()
    ensures EntryText(("a", Str("z")), Spelling(" ", Bare([false]), "", "", Bare([false]), "", "")) == " a=>z"
  {
    PlainText("a", [false]);
    PlainText("z", [false]);
  }

  /** Keys and strings always quoted, the null marker as `NULL`, pairs
      joined by `", "`, quotes and backslashes escaped. */
  lemma EncodeExamples()
    ensures Encode([]) == ""
    ensures Encode([("a", Str(""))]) == "\"a\"=>\"\""
    ensures Encode([("", Str("a"))]) == "\"\"=>\"a\""
    ensures Encode([("", Str("\""))]) == "\"\"=>\"\\\"\""
    ensures Encode([("a", Str("b\""))]) == "\"a\"=>\"b\\\"\""
    ensures Encode([("a", Str("b")), ("c", Str("d"))]) == "\"a\"=>\"b\", \"c\"=>\"d\""
    ensures Encode([("a", Null)]) == "\"a\"=>NULL"
    ensures Encode([("a\"", Str("\"b\\"))]) == "\"a\\\"\"=>\"\\\"b\\\\\""
  {
    EncodeLine110();
    EncodeLine111();
    EncodeLine112();
    EncodeLine113();
    EncodeLine115();
    EncodeLine117();
    EncodeLine119();
    EncodeLine120();
  }

  lemma EncodeLine110()
    ensures Encode([]) == ""
  {
  }

  lemma EncodeLine111()
    ensures Encode([("a", Str(""))]) == "\"a\"=>\"\""
  {
  }

  lemma EncodeLine112()
    ensures Encode([("", Str("a"))]) == "\"\"=>\"a\""
  {
  }

  lemma EncodeLine113()
    ensures Encode([("", Str("\""))]) == "\"\"=>\"\\\"\""
  {
  }

  lemma EncodeLine115()
    ensures Encode([("a", Str("b\""))]) == "\"a\"=>\"b\\\"\""
  {
  }

  lemma EncodeLine117()
    ensures Encode([("a", Str("b")), ("c", Str("d"))]) == "\"a\"=>\"b\", \"c\"=>\"d\""
  {
    var m := [("a", Str("b")), ("c", Str("d"))];
    assert m[1..] == [("c", Str("d"))];
    assert EncodeEntry(m[0]) == "\"a\"=>\"b\"";
    assert EncodeEntry(m[1]) == "\"c\"=>\"d\"";
  }

  lemma EncodeLine119()
    ensures Encode([("a", Null)]) == "\"a\"=>NULL"
  {
  }

  lemma EncodeLine120()
    ensures Encode([("a\"", Str("\"b\\"))]) == "\"a\\\"\"=>\"\\\"b\\\\\""
  {
    QuoteLine120Key();
    QuoteLine120Value();
  }

  lemma QuoteLine120Key()
    ensures Quote("a\"") == "\"a\\\"\""
  {
    assert Escape("\"") == "\\\"";
  }

  lemma QuoteLine120Value()
    ensures Quote("\"b\\") == "\"\\\"b\\\\\""
  {
    assert Escape("\\") == "\\\\";
    assert Escape("b\\") == "b\\\\";
  }
}
