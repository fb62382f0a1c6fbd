/** Concrete inputs and what successive calls of next() make of them. */
module ScanExamples {
  import opened TokenSpec

  /** A symbol ends a name without a space: a+b is a name, a symbol and a
      name, and then end of input with the cursor one past the end. */
  lemma NameSymbolName()
    ensures Scan("a+b", 0) == Step(Produced(NameToken("a")), 1)
    ensures Scan("a+b", 1) == Step(Produced(SymbolToken('+')), 2)
    ensures Scan("a+b", 2) == Step(Produced(NameToken("b")), 4)
    ensures Scan("a+b", 4) == Step(EndOfInput, 4)
  {
    var src := "a+b";
    assert src[0..1] == "a" && src[2..3] == "b";
    BareRun(src, 0, 0, "a");
    SymbolStandsAlone(src, 1, 1);
    BareRun(src, 2, 2, "b");
    assert !NumeralChar("a", 0) && !NumeralChar("b", 0);
  }

  /** Unquoted -3 is the symbol minus followed by the number 3. */
  lemma MinusThree()
    ensures Scan("-3", 0) == Step(Produced(SymbolToken('-')), 1)
    ensures Scan("-3", 1) == Step(Produced(NumberToken("3")), 3)
  {
    var src := "-3";
    assert src[1..2] == "3";
    SymbolStandsAlone(src, 0, 0);
    BareRun(src, 1, 1, "3");
    assert NumeralChar("3", 0);
  }

  /** Two minus signs are two symbols, not one string. */
  lemma TwoMinusSigns()
    ensures Scan("--", 0) == Step(Produced(SymbolToken('-')), 1)
    ensures Scan("--", 1) == Step(Produced(SymbolToken('-')), 2)
  {
    SymbolStandsAlone("--", 0, 0);
    SymbolStandsAlone("--", 1, 1);
  }

  /** A quoted numeral still becomes a number, even a negative one. */
  lemma QuotedNumeral()
    ensures Scan("\"-4.5\"", 0) == Step(Produced(NumberToken("-4.5")), 6)
  {
    var src, s := "\"-4.5\"", "-4.5";
    assert src[1..5] == s;
    QuotedRun(src, 0, 0, s);
    assert NumeralChar(s, 0) && NumeralChar(s, 1) && NumeralChar(s, 2) && NumeralChar(s, 3);
    assert s[0] != '.' && s[1] != '.' && s[3] != '.';
    assert IsNumeral(s);
  }

  /** A quoted letter becomes a symbol, not a name. */
  lemma QuotedLetter()
    ensures Scan("\"x\"", 0) == Step(Produced(SymbolToken('x')), 3)
  {
    var src := "\"x\"";
    assert src[1..2] == "x";
    QuotedRun(src, 0, 0, "x");
    assert !NumeralChar("x", 0);
  }

  /** A quoted string keeps its spaces and symbols, and ends at a newline. */
  lemma QuotedStopsAtNewline()
    ensures Scan("\"a b+\ncd", 0) == Step(Produced(StringToken("a b+")), 6)
  {
    var src := "\"a b+\ncd";
    assert src[1..5] == "a b+";
    QuotedRun(src, 0, 0, "a b+");
    assert !NumeralChar("a b+", 0);
  }

  /** What follows that newline is scanned bare again. */
  lemma BareAfterNewline()
    ensures Scan("\"a b+\ncd", 6) == Step(Produced(NameToken("cd")), 9)
  {
    var src := "\"a b+\ncd";
    assert src[6..8] == "cd";
    BareRun(src, 6, 6, "cd");
    assert !NumeralChar("cd", 0);
  }

  /** A second point makes a run a string rather than a number. */
  lemma TwoPoints()
    ensures Scan("1.2.3", 0) == Step(Produced(StringToken("1.2.3")), 6)
  {
    var src := "1.2.3";
    assert src[0..5] == src;
    BareRun(src, 0, 0, src);
    assert src[1] == '.' && src[3] == '.';
  }

  /** A newline gives an empty run that is skipped; a tab is an ordinary
      character, so a lone tab is a symbol. */
  lemma NewlineThenTab()
    ensures Scan("\n\t", 0) == Step(Produced(SymbolToken('\t')), 3)
  {
    var src := "\n\t";
    assert src[1..2] == "\t";
    NewlineIsSkipped(src, 0, 0);
    BareRun(src, 1, 1, "\t");
    assert !NumeralChar("\t", 0);
  }

  /** Trailing spaces make next() read past the end and fail. */
  lemma TrailingSpaces()
    ensures Scan("x  ", 0) == Step(Produced(NameToken("x")), 2)
    ensures Scan("x  ", 2) == Step(IndexOutOfBounds, 3)
    ensures Scan("   ", 0) == Step(IndexOutOfBounds, 3)
  {
    var src := "x  ";
    assert src[0..1] == "x";
    BareRun(src, 0, 0, "x");
    assert !NumeralChar("x", 0);
    TrailingSpacesFail(src, 2);
    TrailingSpacesFail("   ", 0);
  }

  /** An empty pair of quotes gives no token, and the input ends there. */
  lemma EmptyQuotes()
    ensures Scan("\"\"", 0) == Step(EndOfInput, 2)
  {
    EmptyQuotesAreSkipped("\"\"", 0, 0);
  }

  /** isNumber rejects the empty text, a lone minus sign and two points, and
      accepts a signed integer and even a lone point. */
  lemma NumeralRejects()
    ensures !IsNumeral("") && !IsNumeral("-") && !IsNumeral("1.2.3")
    ensures IsNumeral("-12") && IsNumeral(".")
  {
    assert !NumeralChar("-", 0);
    assert "1.2.3"[1] == '.' && "1.2.3"[3] == '.';
    assert NumeralChar("-12", 0) && NumeralChar("-12", 1) && NumeralChar("-12", 2);
    assert NumeralChar(".", 0);
  }
}
