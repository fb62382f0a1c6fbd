# MyTokenReader: a verified model of the math-language token reader

`MyTokenReader` is the scanner of a small expression language. It holds the
whole source text and a cursor, `currentIndex`. Each call of `next()` skips
spaces and then extracts one run of characters. Inside double quotes a run
reads up to the closing quote or a newline. Outside quotes a run reads up to
a space or a newline, and one of the symbols `=`, `+`, `-`, `;` either ends
the run or is a run of its own. `next()` then classifies the run as a
number, a name, a symbol or a string. An empty run is skipped by calling
`next()` again. At end of input `next()` returns `null`.

The project has three files:

- `token_spec.dfy` (module `TokenSpec`) holds the `Token` datatype and the
  character classes: `IsSymbolChar`, `IsDigit`, `IsLetter`, and `IsNumeral`,
  the grammar `isNumber` accepts. It also holds the functions that say what
  the reader computes:
  - `RunOf(src, start, e)` is the run `nextStringUntil(e)` returns and the
    cursor it leaves behind.
  - `Classify(run, quoted)` is the token a non-empty run becomes.
  - `Scan(src, i)` is what one call of `next()` returns, and the new cursor,
    when the cursor starts at `i`.

  The lemmas about these functions live in the same module.
- `token_reader.dfy` (module `TokenReaderImpl`) holds the class
  `MyTokenReader`. It has the `source` and `currentIndex` fields, the fixed
  `symbols` sequence, the methods `Next`, `NextStringUntil`, `IsNumber` and
  `IsSymbol`, and the function `HasNextArg`. The methods keep the Java loops
  and the recursive retry of `next()`. `Next` and `NextStringUntil` are
  proved equal to `Scan` and `RunOf`. `IsNumber` and `IsSymbol` are proved
  to decide `IsNumeral` and `IsSymbolChar`. `HasNextArg` states directly
  that it holds iff the cursor is before the end.
- `scan_examples.dfy` (module `ScanExamples`) works through concrete inputs.

`next()` ends in one of three ways, so its result is an `Outcome`:

- `Produced(token)` is a token.
- `EndOfInput` is the `null` return.
- `IndexOutOfBounds` is the exception the space-skipping loop raises. That
  loop has no bounds check, so when only spaces remain it reads
  `source.charAt(source.length())`. After the failure the cursor equals the
  source length.

Behaviour a reader may not expect:

- Input made only of spaces (`"   "`) fails with `IndexOutOfBounds` instead
  of yielding end of input. See `ScanExamples.TrailingSpaces`.
- Unquoted `--` yields two `Symbol('-')` tokens, because `-` is a symbol.
  See `ScanExamples.TwoMinusSigns`.
- A tab is an ordinary run character, so `"\n\t"` yields `Symbol('\t')`.
  Only a newline gives an empty run, although the comment at line 87 of
  MyTokenReader.java says a tab does too. See `ScanExamples.NewlineThenTab`.
- Quoted runs are also tested by `isNumber` first. So a quoted numeral is a
  number token, and a quoted single character is a symbol token.
- A quoted run also stops at a newline.

## Model

| member | source | states |
|---|---|---|
| TokenSpec.RunEnd | src/com/google/codeu/mathlang/impl/MyTokenReader.java:127-143 | the run loop scans forward to the first position that is the ending character, a newline, or (in bare mode) a symbol, or to the end of the source; no character before that position ends the run |
| TokenSpec.SpaceEnd | src/com/google/codeu/mathlang/impl/MyTokenReader.java:73-75 | the space loop stops at the first non-space position at or after the cursor, and every position it passes holds a space |
| TokenSpec.RunOf | src/com/google/codeu/mathlang/impl/MyTokenReader.java:125-149 | the run is exactly source[start .. start+len) and holds neither the ending character nor a newline; in bare mode it is one symbol alone or holds no symbol; a leading symbol is a run of its own and consumed; in quote mode symbols are copied and the cursor ends at start+len+1; the cursor ends at start+len+1 after consuming the character that stopped the loop, or at start+len when the loop stopped at a symbol; past the end the run is empty and the cursor still advances by one |
| TokenSpec.Classify | src/com/google/codeu/mathlang/impl/MyTokenReader.java:93-109 | the token carries exactly the run; first match wins: a number iff the run is a numeral (even quoted), else a name iff the run is unquoted and starts with a letter, else a symbol iff it has one character, else a string |
| TokenSpec.Scan | src/com/google/codeu/mathlang/impl/MyTokenReader.java:61-110 | with no character left (cursor at or past the end), the result is end of input and the cursor does not move; otherwise the cursor strictly increases and stays at most one past the end; end of input always leaves the cursor at or past the end; the out-of-bounds failure leaves it at the end |
| TokenSpec.ExhaustedIsStable | src/com/google/codeu/mathlang/impl/MyTokenReader.java:69-71 | after end of input has been reported, the next call reports it again with the same cursor |
| TokenSpec.ScanTokenWellFormed | src/com/google/codeu/mathlang/impl/MyTokenReader.java:89-109 | every produced token is well formed: a number's text is a numeral; a name starts with a letter, is not a numeral, and holds no space, newline or symbol; a symbol is neither a newline, a digit nor a point; a string has at least two characters, is not a numeral and holds no newline |
| TokenSpec.ScanTokenIsSlice | src/com/google/codeu/mathlang/impl/MyTokenReader.java:76-91 | the text of every produced token is a slice of the source lying between the old cursor and the new cursor |
| TokenSpec.FailureMeansTrailingSpaces | src/com/google/codeu/mathlang/impl/MyTokenReader.java:73-75 | next() fails only when, from some position at or after the cursor to the end, the source is all spaces |
| TokenSpec.TrailingSpacesFail | src/com/google/codeu/mathlang/impl/MyTokenReader.java:73-75 | conversely, if only spaces remain after the cursor, next() fails with the cursor at the end |
| TokenSpec.BareRunHasNoMinusNumeral | src/com/google/codeu/mathlang/impl/MyTokenReader.java:137-142 | a bare run that holds a minus sign is never a numeral, so an unquoted negative number cannot be read |
| TokenSpec.BareRun | src/com/google/codeu/mathlang/impl/MyTokenReader.java:84-109 | after spaces, a bare stretch with no symbol, space or newline, ended by one of those or the end, becomes the unquoted classification of exactly that stretch; a following symbol is left unconsumed, a following space or newline is consumed |
| TokenSpec.WordIsName | src/com/google/codeu/mathlang/impl/MyTokenReader.java:99-101 | a space-separated word of letters and digits that starts with a letter is one name token with exactly that text |
| TokenSpec.DigitsAreNumber | src/com/google/codeu/mathlang/impl/MyTokenReader.java:93-95 | a stretch of digits is one number token with exactly those digits |
| TokenSpec.SymbolStandsAlone | src/com/google/codeu/mathlang/impl/MyTokenReader.java:139-142 | a symbol met at the start of a run is a symbol token on its own and the cursor moves just past it |
| TokenSpec.NewlineIsSkipped | src/com/google/codeu/mathlang/impl/MyTokenReader.java:87-91 | a newline yields an empty run, and next() gives what scanning after the newline gives |
| TokenSpec.EmptyQuotesAreSkipped | src/com/google/codeu/mathlang/impl/MyTokenReader.java:79-91 | an empty pair of quotes yields no token; next() goes on after the closing quote |
| TokenSpec.EmptyRunIff | src/com/google/codeu/mathlang/impl/MyTokenReader.java:79-91 | the run taken at the first non-space character is empty, so next() retries, exactly when that character is a newline, or is a quote that is the last character or is followed by a quote or a newline |
| TokenSpec.QuoteNewlineIsSkipped | src/com/google/codeu/mathlang/impl/MyTokenReader.java:79-91 | a quote followed by a newline yields no token; next() goes on after the newline |
| TokenSpec.LoneFinalQuoteEnds | src/com/google/codeu/mathlang/impl/MyTokenReader.java:79-91 | a lone quote at the end yields no token; next() then reports end of input with the cursor one past the end |
| TokenSpec.QuotedRun | src/com/google/codeu/mathlang/impl/MyTokenReader.java:79-82 | a quote followed by text without quote or newline, then a quote, a newline or the end, becomes the quoted classification of that text, symbols and spaces included, and the cursor ends right after the closing character |
| TokenSpec.QuotedRoundTrip | src/com/google/codeu/mathlang/impl/MyTokenReader.java:79-82 | wrapping a text (no quote, no newline) in quotes and scanning gives back the token of exactly that text, with the cursor just past the closing quote |
| TokenSpec.QuotedTextIsString | src/com/google/codeu/mathlang/impl/MyTokenReader.java:105-109 | a quoted non-numeral of two or more characters comes back as a string token with exactly that text |
| TokenReaderImpl.MyTokenReader.constructor | src/com/google/codeu/mathlang/impl/MyTokenReader.java:49-53 | the reader keeps the given source and starts with the cursor at 0 |
| TokenReaderImpl.MyTokenReader.HasNextArg | src/com/google/codeu/mathlang/impl/MyTokenReader.java:116-119 | true iff the cursor is before the end of the source |
| TokenReaderImpl.MyTokenReader.Next | src/com/google/codeu/mathlang/impl/MyTokenReader.java:61-110 | result and new cursor are exactly Scan of the source at the old cursor; with nothing left it returns end of input and the cursor stays; a produced token strictly advances the cursor; the cursor never decreases and never goes past one beyond the end |
| TokenReaderImpl.MyTokenReader.NextStringUntil | src/com/google/codeu/mathlang/impl/MyTokenReader.java:125-149 | the returned run and the new cursor are exactly RunOf of the source at the old cursor |
| TokenReaderImpl.MyTokenReader.IsNumber | src/com/google/codeu/mathlang/impl/MyTokenReader.java:160-186 | true iff the text is non-empty, every character is a digit, a point, or a minus sign at index 0 of a text longer than one, and the point occurs at most once |
| TokenReaderImpl.MyTokenReader.IsSymbol | src/com/google/codeu/mathlang/impl/MyTokenReader.java:188-195 | true iff the character is one of `=`, `+`, `-`, `;` |
| ScanExamples.NameSymbolName | src/com/google/codeu/mathlang/impl/MyTokenReader.java:137-147 | `a+b` scans to Name("a"), Symbol('+'), Name("b"), then end of input with the cursor one past the end |
| ScanExamples.MinusThree | src/com/google/codeu/mathlang/impl/MyTokenReader.java:139-142 | unquoted `-3` scans to Symbol('-') and then a number token for `3` |
| ScanExamples.TwoMinusSigns | src/com/google/codeu/mathlang/impl/MyTokenReader.java:139-142 | unquoted `--` scans to two Symbol('-') tokens |
| ScanExamples.QuotedNumeral | src/com/google/codeu/mathlang/impl/MyTokenReader.java:93-95 | quoted `-4.5` is a number token |
| ScanExamples.QuotedLetter | src/com/google/codeu/mathlang/impl/MyTokenReader.java:105-107 | quoted `x` is a symbol token |
| ScanExamples.QuotedStopsAtNewline | src/com/google/codeu/mathlang/impl/MyTokenReader.java:127 | a quoted run keeps spaces and symbols and ends at a newline, which is consumed |
| ScanExamples.BareAfterNewline | src/com/google/codeu/mathlang/impl/MyTokenReader.java:84 | after a quoted run ends at a newline, the next run is bare |
| ScanExamples.TwoPoints | src/com/google/codeu/mathlang/impl/MyTokenReader.java:173-176 | `1.2.3` is one string token, not a number |
| ScanExamples.NewlineThenTab | src/com/google/codeu/mathlang/impl/MyTokenReader.java:87-91 | for newline then tab, the newline run is empty and skipped, and the tab becomes a symbol token |
| ScanExamples.TrailingSpaces | src/com/google/codeu/mathlang/impl/MyTokenReader.java:73-75 | `x` followed by two spaces gives Name("x") and then the out-of-bounds failure; three spaces fail at once |
| ScanExamples.EmptyQuotes | src/com/google/codeu/mathlang/impl/MyTokenReader.java:79-91 | `""` gives no token and then end of input |
| ScanExamples.NumeralRejects | src/com/google/codeu/mathlang/impl/MyTokenReader.java:160-186 | the empty text, a lone `-` and `1.2.3` are not numerals; `-12` and a lone `.` are |

## Left out

- `Double.parseDouble` (line 94) is not modelled. A number token carries the
  text of its run instead of a floating-point value. `isNumber` accepts `.`
  and `-.`, on which `parseDouble` throws `NumberFormatException`. The model
  turns those runs into number tokens.
- `Character.isLetter` and `Character.isDigit` are modelled as ASCII-only
  predicates. The Unicode tables are not modelled.
- The declared `IOException` is never thrown, so it is not modelled.
- The token classes, the `TokenReader` interface and the parser are not part
  of this model. They appear only as the `Token` datatype.
- `null` is modelled as the `EndOfInput` outcome. The unchecked
  `StringIndexOutOfBoundsException` is modelled as `IndexOutOfBounds`.
- Java's 32-bit `int` is not modelled for `currentIndex`. The cursor can
  reach `source.length() + 1`, which overflows only for a source of maximal
  length.
- `next()` retries by calling itself, and in Java a long run of newlines can
  overflow the call stack. The model keeps the recursion but has no stack
  limit.
- Java strings count UTF-16 code units, while a Dafny `string` is a sequence
  of Unicode scalar values. For input outside the Basic Multilingual Plane
  the model's cursor positions and the one-character test at line 105 differ
  from Java's: a quoted emoji is one character here (a symbol token) but two
  code units in Java (a string token, with the cursor one further).
- The constructor (lines 49-50) accepts a null source, after which
  `hasNextArg` (line 117) throws NullPointerException. A Dafny `string` is
  never null, so this case is not modelled.
- The `symbols` array is modelled as a constant sequence, because it is
  never modified.
- TokenReaderImpl.MyTokenReader.NextStringUntil: requires the cursor to be at
  most the source length. Both calls in `next()` meet this. It keeps the
  reader's invariant that the cursor is at most one past the end.
  `TokenSpec.RunOf` itself describes a start past the end as well.
