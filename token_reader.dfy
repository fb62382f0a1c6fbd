/** The token reader itself: a fixed source string and a cursor that every
    call of Next moves forward. Next and NextStringUntil are proved to
    compute what Scan and RunOf of TokenSpec say, and IsNumber and IsSymbol
    to decide IsNumeral and IsSymbolChar. */
module TokenReaderImpl {
  import opened TokenSpec

  class MyTokenReader {
    /** The text being tokenized. */
    const source: string
    /** Position of the next character to look at. */
    var currentIndex: nat
    /** Characters that are never part of a name or number run. */
    const symbols: seq<char> := ['=', '+', '-', ';']

    /** The cursor stays at most one past the end of the source. */
    ghost predicate Valid()
      reads this
    {
      currentIndex <= |source| + 1
    }

    constructor (source: string)
      ensures this.source == source && currentIndex == 0
      ensures Valid()
    {
      this.source := source;
      currentIndex := 0;
    }

    /** Whether any character is left at or after the cursor. */
    function HasNextArg(): (b: bool)
      reads this
      ensures b <==> currentIndex < |source|
    {
      var remainingIndices := |source| - currentIndex;
      remainingIndices > 0
    }

    /** Returns the next token, end of input, or the failure of the
        space-skipping loop when only spaces remain. */
    method Next() returns (out: Outcome)
      requires Valid()
      modifies this
      ensures Valid()
      ensures Step(out, currentIndex) == Scan(source, old(currentIndex))
      ensures !old(HasNextArg()) ==> out == EndOfInput && currentIndex == old(currentIndex)
      ensures out.Produced? ==> old(currentIndex) < currentIndex
      ensures old(currentIndex) <= currentIndex
      decreases |source| + 1 - currentIndex
    {
      if !HasNextArg() {
        return EndOfInput;
      }
      ghost var i := currentIndex;
      // the Java loop reads one character past the end when only spaces remain
      while currentIndex < |source| && source[currentIndex] == ' '
        invariant i <= currentIndex <= |source|
        invariant SpaceEnd(source, i) == SpaceEnd(source, currentIndex)
      {
        currentIndex := currentIndex + 1;
      }
      assert currentIndex == SpaceEnd(source, i);
      if currentIndex == |source| {
        return IndexOutOfBounds;
      }
      ghost var j := currentIndex;
      var nextString: string;
      var wasWrappedInQuotes := false;
      if source[currentIndex] == '"' {
        currentIndex := currentIndex + 1;
        wasWrappedInQuotes := true;
        nextString := NextStringUntil('"');
      } else {
        nextString := NextStringUntil(' ');
      }
      ScanAfterRun(source, i, j, wasWrappedInQuotes, Run(nextString, currentIndex));
      if |nextString| == 0 {
        out := Next();
        return;
      }
      var isNumber := IsNumber(nextString);
      if isNumber {
        return Produced(NumberToken(nextString));
      }
      if IsLetter(nextString[0]) && !wasWrappedInQuotes {
        return Produced(NameToken(nextString));
      }
      if |nextString| == 1 {
        return Produced(SymbolToken(nextString[0]));
      }
      return Produced(StringToken(nextString));
    }

    /** Collects characters from the cursor up to endingChar or a newline. In
        bare mode (endingChar is not a double quote) a symbol ends the run
        without being consumed, unless it comes first and forms a run of its
        own. */
    method NextStringUntil(endingChar: char) returns (toReturn: string)
      requires currentIndex <= |source|
      modifies this
      ensures Valid()
      ensures Run(toReturn, currentIndex) == RunOf(source, old(currentIndex), endingChar)
    {
      ghost var start := currentIndex;
      toReturn := "";
      while HasNextArg() && source[currentIndex] != endingChar && source[currentIndex] != '\n'
        invariant start <= currentIndex <= |source|
        invariant toReturn == source[start..currentIndex]
        invariant RunEnd(source, start, endingChar) == RunEnd(source, currentIndex, endingChar)
        decreases |source| - currentIndex
      {
        var nextChar := source[currentIndex];
        if endingChar != '"' {
          var isSymbol := IsSymbol(nextChar);
          if isSymbol && toReturn != [] {
            return;
          } else if isSymbol && toReturn == [] {
            toReturn := toReturn + [nextChar];
            break;
          }
        }
        toReturn := toReturn + [nextChar];
        currentIndex := currentIndex + 1;
      }
      currentIndex := currentIndex + 1;
    }

    /** Whether name is a numeral: digits, at most one point, and a minus
        sign only in front and only before something else. */
    method IsNumber(name: string) returns (b: bool)
      ensures b == IsNumeral(name)
    {
      var isDecimalRecorded := false;
      var index := 0;
      while index < |name|
        invariant 0 <= index <= |name|
        invariant isDecimalRecorded <==> '.' in name[..index]
        invariant forall k :: 0 <= k < index ==> NumeralChar(name, k)
        invariant forall j, k :: 0 <= j < k < index && name[j] == '.' ==> name[k] != '.'
      {
        var c := name[index];
        if !IsDigit(c) && !(c == '.' && !isDecimalRecorded) && !(c == '-' && index == 0 && |name| > 1) {
          if c == '.' {
            ghost var j :| 0 <= j < index && name[..index][j] == '.';
            assert name[j] == '.' && name[index] == '.';
          } else {
            assert !NumeralChar(name, index);
          }
          return false;
        }
        if c == '.' {
          isDecimalRecorded := true;
        }
        index := index + 1;
      }
      return |name| != 0;
    }

    /** Whether c is one of the symbols. */
    method IsSymbol(c: char) returns (b: bool)
      ensures b == IsSymbolChar(c)
    {
      for i := 0 to |symbols|
        invariant forall k :: 0 <= k < i ==> symbols[k] != c
      {
        if c == symbols[i] {
          return true;
        }
      }
      assert symbols[0] != c && symbols[1] != c && symbols[2] != c && symbols[3] != c;
      return false;
    }
  }
}
