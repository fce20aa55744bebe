# hstore literal codec

A Dafny model of `Intaro\HStore\Coder`. The codec has two pure operations
between an ordered mapping of string keys to string-or-null values and the
single-line text form of a PostgreSQL `hstore` value:

- `decode` parses a literal such as `a=>b, "c d"=>NULL` into a mapping.
- `encode` renders a mapping as `"a"=>"b", "c d"=>NULL`.

The behaviour is pinned down by the tables in `tests/CoderTest.php`.
The model follows them.

Modules:

- `HstoreValue` (`hstore_value.dfy`) holds the data model.
  - `Value` is `Str(s)` or `Null`.
  - A mapping is a `seq<Entry>`, so its order is observable, as `assertSame` observes it.
  - `Result` carries the three decode errors `UnterminatedQuote`, `MissingSeparator` and `MalformedEntry`.
  - `Put`/`Build` give associative-array assignment: a repeated key keeps its first position and takes its last value.
- `Quoter` (`quoter.dfy`): `Quote` escapes `\` and `"` with a backslash and wraps the text in double quotes.
- `Encoder` (`encoder.dfy`) emits `quote(key)=>quote(value)`, or `quote(key)=>NULL`, for each pair, joined by `", "`.
- `Scanner` (`scanner.dfy`) is the field scanner. The cursor is the unread suffix of the input.
  - Whitespace (space, tab, newline, carriage return) is skipped.
  - A quoted field ends at the first unescaped `"`.
  - A bare field ends at its terminator: `=>` for keys, `,` or the end for values.
  - In a bare field, a backslash takes the next character literally, and unescaped trailing whitespace is trimmed.
- `Decoder` (`decoder.dfy`): `ParseEntry`, `ParseEntries` and `Decode`.
  - Only a bare field spelling `null`, in any case, becomes the null marker.
  - After each pair one `,` is consumed if present, and reading goes on while input remains. So one trailing `,` is accepted, and the `,` may be left out after a quoted value (`a=>"b" c=>d` has two pairs).
- `Layout` (`layout.dfy`) is the main theorem, `ParseRendered`.
  - It covers every writing of a mapping with a `,` between pairs: any whitespace around every token, quoted or bare fields with any characters backslash-escaped (inside quotes, `"` and `\` always are), any case of `null`, and an optional trailing comma.
  - The decoder reads every such writing back as that mapping.
  - `ParseAdjacent` and `ParseRenderedAfterQuoted` cover the `,` left out after a quoted value: the next pair may follow directly, unless it begins with `,`.
- `RoundTrip` (`roundtrip.dfy`) shows that the encoder's output is one such writing. This gives `decode(encode(m)) == m` and the stability of `encode` after `decode`.
- `CoderVectors` (`vectors.dfy`) proves each decode and encode row of the test tables, and one example for each error kind.

Choices the test tables do not pin down:

- The error kinds:
  - A quote left open gives `UnterminatedQuote`.
  - A key not followed by `=>` gives `MissingSeparator`.
  - Each of the following gives `MalformedEntry`:
    - a missing or empty bare field;
    - a bare field ending in a lone backslash.
- Text right after a quoted value starts the next pair, so `a=>"b"c` fails with `MissingSeparator` on the key `c`. No row of the tables covers a missing `,`; the model follows the loop described in the `Decoder` bullet above, in which the separator is optional.
- A backslash inside quotes takes any next character literally, not only `"` and `\` (`Layout.ScanQuotedText` in general, `CoderVectors.DecodeQuotedAnyEscape` on examples).
- Escaped whitespace at the end of a bare field is kept, not trimmed.

## Model

| member | source | states |
|---|---|---|
| HstoreValue.Put | tests/CoderTest.php:102-105 | storing under a key adds exactly that key; a new key goes at the end |
| HstoreValue.PutLookup | tests/CoderTest.php:102-105 | after storing `v` under `k`, `k` maps to `v` and every other key is unchanged |
| HstoreValue.PutInPlace | tests/CoderTest.php:102-105 | re-storing an existing key keeps the length and every key's position |
| HstoreValue.PutDistinct | tests/CoderTest.php:102-105 | storing keeps keys distinct |
| HstoreValue.Build | tests/CoderTest.php:102-105 | the mapping built from the pairs read has exactly their keys |
| HstoreValue.BuildLastWins | tests/CoderTest.php:102-105 | the built mapping has distinct keys and each key holds the value of its last occurrence |
| HstoreValue.PutKeyList | tests/CoderTest.php:102-105 | storing a key already present keeps the key order; a new key goes last |
| HstoreValue.BuildKeyOrder | tests/CoderTest.php:102-105 | the built mapping lists its keys in the order of their first occurrence among the pairs |
| HstoreValue.BuildDistinct | tests/CoderTest.php:102-105 | pairs with distinct keys build to themselves, in order |
| Quoter.Escape | tests/CoderTest.php:113-120 | escaping adds one character per `"` or `\` and leaves text without them unchanged |
| Quoter.Quote | tests/CoderTest.php:111-120 | the quoted field starts and ends with `"` and is two characters longer than the escaped text; that it reads back as the text is `Layout.ReadQuotedText` |
| Encoder.EncodeValue | tests/CoderTest.php:111-119 | the null marker is written `NULL`, and a string is written quoted |
| Encoder.EncodeEntry | tests/CoderTest.php:111-120 | one pair is the quoted key, `=>`, and the encoded value; its text is stated by `RoundTrip.EncodeIsRender` and `RoundTrip.EncodeExamples` |
| Encoder.Encode | tests/CoderTest.php:110-117 | the empty mapping, and only it, encodes to the empty string |
| Scanner.SkipSpace | tests/CoderTest.php:13-24 | the result is no longer than the input and does not start with whitespace; that it is a suffix is `Scanner.SkipSpaceDrops` |
| Scanner.SkipSpaceDrops | tests/CoderTest.php:13-15 | the result is a suffix of the input, everything skipped is whitespace, and all is skipped exactly when the input is whitespace only |
| Scanner.ScanQuoted | tests/CoderTest.php:26-33 | a quoted field consumes input, and its only failure is an unterminated quote |
| Scanner.ScanBare | tests/CoderTest.php:83-91 | a bare field stops right at its terminator, and fails only with the documented error kinds |
| Scanner.ReadField | tests/CoderTest.php:17-33 | reading a field consumes input, and a bare field leaves the cursor at its terminator |
| Decoder.Interpret | tests/CoderTest.php:63-66 | a value is the null marker if and only if it is bare and spells `null` in any case; otherwise it is its content |
| Decoder.ParseEntry | tests/CoderTest.php:17-51 | a pair consumes input and stops before non-whitespace |
| Decoder.ParseEntries | tests/CoderTest.php:13-92 | reads pairs until the input runs out, taking one optional `,` after each; stated by `Decoder.ParseEntriesEmpty`, `Layout.ParseRendered` and `Layout.ParseAdjacent` |
| Decoder.ParseEntriesEmpty | tests/CoderTest.php:13-15 | the pairs read are none if and only if the input is whitespace only |
| Decoder.Decode | tests/CoderTest.php:102-105 | a decoded mapping never repeats a key |
| Decoder.DecodeLastWins | tests/CoderTest.php:102-105 | decoding fails exactly when reading the pairs fails; otherwise it has the keys read, in order of first occurrence, each with its last value |
| Decoder.DecodeEmpty | tests/CoderTest.php:13-15 | the empty mapping is decoded if and only if the input is whitespace only |
| Layout.QuotedTextEscape | tests/CoderTest.php:113-120 | with no extra escapes, a quoted field is exactly what the quoter writes, so the encoder's fields are among the writings covered |
| Layout.ScanQuotedText | tests/CoderTest.php:79-80 | a quoted field, with `"` and `\` escaped and any other characters escaped or not, reads back as its text up to the closing quote, with the rest of the input untouched |
| Layout.ReadQuotedText | tests/CoderTest.php:26-33 | a quoted field with content `x`, however escaped and after any whitespace, reads back as `x` and marks the field quoted, leaving whatever follows |
| Layout.ScanBareText | tests/CoderTest.php:83-91 | a bare field, with any characters escaped and followed by whitespace and its terminator, reads back as its content |
| Layout.ReadFieldText | tests/CoderTest.php:17-51 | a field in any writable form, after any whitespace, reads as its content and quotedness, and the next token is its terminator |
| Layout.NullWordPlain | tests/CoderTest.php:63-64 | any spelling of `null` can be written bare, escaped or not |
| Layout.ParseEntryText | tests/CoderTest.php:17-51 | a written pair reads back as that pair, and the decoder stops at the `,` or the end after it |
| Layout.ParseRendered | tests/CoderTest.php:17-88 | every writing of a sequence of pairs with `,` between them is read back as exactly those pairs, in order |
| Layout.DecodeRendered | tests/CoderTest.php:17-92 | every such writing of a mapping with distinct keys decodes to that mapping |
| Layout.ParseQuotedEntryText | tests/CoderTest.php:26-33 | a written pair with a quoted value reads back as that pair whatever non-blank text follows |
| Layout.ParseAdjacent | tests/CoderTest.php:102-105 | after a pair with a quoted value, pairs that follow with no `,` are read too |
| Layout.ParseRenderedAfterQuoted | tests/CoderTest.php:102-105 | a pair with a quoted value followed with no `,` by any writing of more pairs reads back as all of them, in order |
| RoundTrip.EncodeIsRender | tests/CoderTest.php:117 | the encoder's output is the writing with quoted fields, bare `NULL`, and one space before every pair after the first |
| RoundTrip.EncodeWritable | tests/CoderTest.php:110-120 | every pair written that way reads back |
| RoundTrip.ParseEncode | tests/CoderTest.php:110-120 | any sequence of pairs is read back from its encoding, in order |
| RoundTrip.DecodeEncode | tests/CoderTest.php:172 | decoding the encoding of a mapping gives the mapping |
| RoundTrip.DecodeEncodeDecode | tests/CoderTest.php:172 | encoding then decoding what a literal decodes to gives the same mapping |
| CoderVectors.DecodeBlank | tests/CoderTest.php:13-15 | empty and whitespace-only literals decode to the empty mapping |
| CoderVectors.DecodeBarePair | tests/CoderTest.php:17-24 | each spacing of `a=>b` decodes to `{a: b}` |
| CoderVectors.DecodeQuotedPair | tests/CoderTest.php:26-33 | each spacing of `"a"=>"b"` decodes to `{a: b}` |
| CoderVectors.DecodeBareLongPair | tests/CoderTest.php:35-42 | each spacing of `aa=>bb` decodes to `{aa: bb}` |
| CoderVectors.DecodeQuotedLongPair | tests/CoderTest.php:44-51 | each spacing of `"aa"=>"bb"` decodes to `{aa: bb}` |
| CoderVectors.DecodeTwoPairs | tests/CoderTest.php:53-61 | two pairs, with any spacing around `,` and either field form, decode in order |
| CoderVectors.DecodeNull | tests/CoderTest.php:63-66 | bare `null`/`NuLl` is null; `"NuLl"` and `nulla` are strings |
| CoderVectors.DecodeNumberText | tests/CoderTest.php:68-69 | bare numbers decode as their text |
| CoderVectors.DecodeQuotedSpecials | tests/CoderTest.php:72 | `=`, `>`, `,` and `\"` inside quotes are content |
| CoderVectors.DecodeTrailingComma | tests/CoderTest.php:74-77 | one trailing `,`, with whitespace around it, is ignored |
| CoderVectors.DecodeQuotedAnyEscape | tests/CoderTest.php:72 | `"\a"=>b` decodes to `{a: b}` and `"a"=>"\b\c"` to `{a: bc}`: inside quotes a backslash takes any next character |
| CoderVectors.DecodeEmptyAndQuote | tests/CoderTest.php:79-81 | empty quoted fields and quotes inside fields decode as the table says |
| CoderVectors.DecodeSeparatorChars | tests/CoderTest.php:83-88 | a bare key may hold `>` and `,`, and a bare value may hold `=` |
| CoderVectors.DecodeEscapedKey | tests/CoderTest.php:90 | the commented-out row `\=a=>q=w` decodes to `{=a: q=w}` |
| CoderVectors.DecodeEscapedBare | tests/CoderTest.php:91-92 | `"=a"=>q\=w` and `"\"a"=>q>w` decode as the table says |
| CoderVectors.DecodeErrors | tests/CoderTest.php:102-105 | refused inputs for each error kind, including text right after a quoted value (a documented choice) |
| CoderVectors.DecodeNoSeparator | tests/CoderTest.php:102-105 | `a=>"b" c=>d`, with no `,`, decodes to two pairs |
| CoderVectors.DecodeRepeatedKey | tests/CoderTest.php:102-105 | `a=>x, b=>y, a=>z` decodes to `{a: z, b: y}`: first position, last value |
| CoderVectors.EncodeExamples | tests/CoderTest.php:110-120 | every string/null row of the encode table |

## Left out

- `testExtension` (tests/CoderTest.php:139-148) checks whether a native PHP extension is loaded. That is deployment, not codec behaviour.
- `testMemoryUsage` (tests/CoderTest.php:150-184) measures memory around 10000 encode/decode calls. Only the round trip it performs (line 172) is modelled, as `RoundTrip.DecodeEncode`.
- PHP type coercions are not modelled: keys and values are strings or null only. This leaves out:
  - integer and float values being stringified by `encode` (lines 122-123);
  - positional arrays becoming keys `"0"`, `"1"` (line 124);
  - the numeric key `"5"` becoming the integer key `5` (line 70).
- The row at line 90 (`\=a=>q=w`) is commented out in the test file, so no behaviour is asserted for it. The model decodes it to `{=a: q=w}`, the result the row expects (`CoderVectors.DecodeEscapedKey`).
- The source of the class `Intaro\HStore\Coder` is not available, so its behaviour is rebuilt from the test tables. The error kinds and the duplicate-key order are documented choices that no test asserts.
- Quoter.Escape: its contract states the length and the identity on text without `"` or `\`. Its full correctness is stated by `Layout.QuotedTextEscape` with the round trip `Layout.ScanQuotedText`.
