/**
 * The parse state shared by the format tokens of a monetary amount format
 * (org.javamoney.moneta.internal.format.ParseContext): an immutable input text,
 * a cursor into it, an error position and the partial results of one parse.
 */
module Format {
  import opened Wrappers

  /** The numeric part of a parsed amount; only its presence matters here. */
  datatype Number = Number(unscaled: int, scale: nat)

  /** The currency of a parsed amount; only its presence matters here. */
  datatype CurrencyUnit = CurrencyUnit(code: string)

  /** The exceptions the parse state throws. */
  datatype ParseError =
    | TextRequired                 // IllegalArgumentException("text is required")
    | NullMessage                  // NullPointerException from Objects.requireNonNull
    | IndexOutOfBounds(index: int) // StringIndexOutOfBoundsException from charAt

  /**
   * Java's Character.isWhitespace on one character: the space, line and
   * paragraph separators other than the no-break spaces (U+00A0, U+2007,
   * U+202F), plus the controls U+0009-U+000D and U+001C-U+001F.
   */
  predicate IsWhitespace(c: char)
  {
    var n := c as int;
    || 0x09 <= n <= 0x0D
    || 0x1C <= n <= 0x20
    || n == 0x1680
    || 0x2000 <= n <= 0x2006
    || 0x2008 <= n <= 0x200A
    || n == 0x2028 || n == 0x2029
    || n == 0x205F
    || n == 0x3000
  }

  /** String.startsWith, compared character by character. */
  function StartsWith(s: string, prefix: string): (r: bool)
    ensures r <==> |prefix| <= |s| && s[..|prefix|] == prefix
  {
    if prefix == [] then true
    else if s == [] then false
    else s[0] == prefix[0] && StartsWith(s[1..], prefix[1..])
  }

  /** The end of the maximal run of whitespace in `s` that starts at `i`. */
  function WhitespaceEnd(s: string, i: nat): (r: nat)
    requires i <= |s|
    ensures i <= r <= |s|
    ensures forall k :: i <= k < r ==> IsWhitespace(s[k])
    ensures r == |s| || !IsWhitespace(s[r])
    decreases |s| - i
  {
    if i == |s| || !IsWhitespace(s[i]) then i else WhitespaceEnd(s, i + 1)
  }

  /** The end of the maximal run of non-whitespace in `s` that starts at `i`. */
  function TokenEnd(s: string, i: nat): (r: nat)
    requires i <= |s|
    ensures i <= r <= |s|
    ensures forall k :: i <= k < r ==> !IsWhitespace(s[k])
    ensures r == |s| || IsWhitespace(s[r])
    decreases |s| - i
  {
    if i == |s| || IsWhitespace(s[i]) then i else TokenEnd(s, i + 1)
  }

  /**
   * What a lookahead from position `i` finds: nothing when only whitespace is
   * left, otherwise the non-empty, whitespace-free, maximal run of characters
   * that starts where the whitespace after `i` ends.
   */
  function NextToken(s: string, i: nat): (r: Option<string>)
    requires i <= |s|
    ensures r.None? <==> WhitespaceEnd(s, i) == |s|
    ensures r.Some? ==>
      var start, t := WhitespaceEnd(s, i), r.value;
      && t != []
      && start + |t| <= |s|
      && t == s[start..start + |t|]
      && (forall k :: 0 <= k < |t| ==> !IsWhitespace(t[k]))
      && (start + |t| == |s| || IsWhitespace(s[start + |t|]))
  {
    var start := WhitespaceEnd(s, i);
    if start == |s| then None else Some(s[start..TokenEnd(s, start)])
  }

  /** Skipping whitespace a second time does not move the cursor. */
  lemma WhitespaceEndIdempotent(s: string, i: nat)
    requires i <= |s|
    ensures WhitespaceEnd(s, WhitespaceEnd(s, i)) == WhitespaceEnd(s, i)
  {
  }

  /**
   * WhitespaceEnd is the only position that ends a whitespace run from `i`:
   * any `j` with only whitespace before it and none at it equals it. This
   * follows from the contract of WhitespaceEnd alone.
   */
  lemma WhitespaceEndUnique(s: string, i: nat, j: nat)
    requires i <= j <= |s|
    requires forall k :: i <= k < j ==> IsWhitespace(s[k])
    requires j == |s| || !IsWhitespace(s[j])
    ensures WhitespaceEnd(s, i) == j
  {
  }

  /** TokenEnd is the only position that ends a non-whitespace run from `i`. */
  lemma TokenEndUnique(s: string, i: nat, j: nat)
    requires i <= j <= |s|
    requires forall k :: i <= k < j ==> !IsWhitespace(s[k])
    requires j == |s| || IsWhitespace(s[j])
    ensures TokenEnd(s, i) == j
  {
  }

  /**
   * Consuming `a` and then `b` succeeds exactly when consuming `a + b` does:
   * two successive token matches are one match of the concatenation.
   */
  lemma {:induction false} StartsWithConcat(s: string, a: string, b: string)
    ensures StartsWith(s, a + b) <==>
      StartsWith(s, a) && |a| <= |s| && StartsWith(s[|a|..], b)
  {
    if StartsWith(s, a + b) {
      assert s[..|a|] == (a + b)[..|a|] == a;
      assert s[|a|..][..|b|] == (a + b)[|a|..] == b;
    }
    if StartsWith(s, a) && |a| <= |s| && StartsWith(s[|a|..], b) {
      assert s[..|a + b|] == s[..|a|] + s[|a|..][..|b|];
    }
  }

  /** A lookahead from where whitespace skipping stopped finds the same token. */
  lemma NextTokenAfterSkip(s: string, i: nat)
    requires i <= |s|
    ensures NextToken(s, WhitespaceEnd(s, i)) == NextToken(s, i)
  {
  }

  /**
   * On an input laid out as whitespace `blank`, a non-empty whitespace-free
   * `token`, and a `rest` that is empty or starts with whitespace, the
   * lookahead skips exactly `blank` and returns exactly `token`.
   */
  lemma NextTokenOfLayout(blank: string, token: string, rest: string)
    requires forall k :: 0 <= k < |blank| ==> IsWhitespace(blank[k])
    requires token != [] && forall k :: 0 <= k < |token| ==> !IsWhitespace(token[k])
    requires rest == [] || IsWhitespace(rest[0])
    ensures WhitespaceEnd(blank + token + rest, 0) == |blank|
    ensures NextToken(blank + token + rest, 0) == Some(token)
  {
    var s := blank + token + rest;
    assert forall k :: 0 <= k < |blank| ==> s[k] == blank[k];
    assert s[|blank|] == token[0];
    WhitespaceEndUnique(s, 0, |blank|);
    assert forall k :: |blank| <= k < |blank| + |token| ==> s[k] == token[k - |blank|];
    assert rest != [] ==> s[|blank| + |token|] == rest[0];
    TokenEndUnique(s, |blank|, |blank| + |token|);
    assert s[|blank|..|blank| + |token|] == token;
  }

  /**
   * The state of one parse attempt, handed from format token to format token.
   * `errorIndex` is -1 while no error has been recorded.
   */
  class ParseContext {
    const originalInput: string
    var index: nat
    var errorIndex: int
    var parsedNumber: Option<Number>
    var parsedCurrency: Option<CurrencyUnit>
    var errorMessage: Option<string>

    /** The cursor never leaves the input. */
    ghost predicate Valid()
      reads this
    {
      index <= |originalInput|
    }

    constructor (text: string)
      ensures Valid()
      ensures originalInput == text && index == 0 && errorIndex == -1
      ensures parsedNumber == None && parsedCurrency == None && errorMessage == None
      ensures !HasError() && !IsComplete() && Input() == text
    {
      originalInput := text;
      index := 0;
      errorIndex := -1;
      parsedNumber := None;
      parsedCurrency := None;
      errorMessage := None;
    }

    /** The constructor as Java callers see it: a null text is rejected. */
    static method Create(text: Option<string>) returns (r: Result<ParseContext, ParseError>)
      ensures text.None? ==> r == Failure(TextRequired)
      ensures text.Some? ==>
        && r.Success? && fresh(r.value) && r.value.Valid()
        && r.value.originalInput == text.value
        && r.value.index == 0 && r.value.errorIndex == -1
        && r.value.parsedNumber == None && r.value.parsedCurrency == None
        && r.value.errorMessage == None
    {
      if text.None? {
        return Failure(TextRequired);
      }
      var context := new ParseContext(text.value);
      return Success(context);
    }

    /** Both parts of an amount have been recorded, whatever the error state. */
    predicate IsComplete()
      reads this
    {
      parsedNumber.Some? && parsedCurrency.Some?
    }

    /** A parse error position has been recorded. */
    predicate HasError()
      reads this
    {
      errorIndex >= 0
    }

    /** The residual input: the text the cursor has not yet passed. */
    function Input(): (r: string)
      reads this
      requires Valid()
      ensures |r| == |originalInput| - index
      ensures originalInput == originalInput[..index] + r
    {
      originalInput[index..]
    }

    /** Every character has been consumed. */
    function IsFullyParsed(): (r: bool)
      reads this
      requires Valid()
      ensures r <==> Input() == []
    {
      index == |originalInput|
    }

    /**
     * Consumes `token` when the residual input starts with it; on a mismatch
     * nothing changes, so another token can be tried from the same place.
     */
    method Consume(token: string) returns (consumed: bool)
      requires Valid()
      modifies this`index
      ensures Valid()
      ensures consumed <==> StartsWith(old(Input()), token)
      ensures index == if consumed then old(index) + |token| else old(index)
    {
      if StartsWith(Input(), token) {
        index := index + |token|;
        return true;
      }
      return false;
    }

    /**
     * Consumes the single character `c` when it is the next one. At the end
     * of the input the character lookup throws.
     */
    method ConsumeChar(c: char) returns (r: Result<bool, ParseError>)
      requires Valid()
      modifies this`index
      ensures Valid()
      ensures old(index) == |originalInput| ==>
        r == Failure(IndexOutOfBounds(old(index))) && index == old(index)
      ensures old(index) < |originalInput| ==>
        && r.Success?
        && (r.value <==> originalInput[old(index)] == c)
        && index == if r.value then old(index) + 1 else old(index)
    {
      if index == |originalInput| {
        return Failure(IndexOutOfBounds(index));
      }
      if originalInput[index] == c {
        index := index + 1;
        return Success(true);
      }
      return Success(false);
    }

    /** Moves the cursor past the whitespace in front of it and returns it. */
    method SkipWhitespace() returns (newIndex: nat)
      requires Valid()
      modifies this`index
      ensures Valid()
      ensures index == WhitespaceEnd(originalInput, old(index))
      ensures newIndex == index
    {
      var i := index;
      while i < |originalInput|
        invariant index == i <= |originalInput|
        invariant WhitespaceEnd(originalInput, i) == WhitespaceEnd(originalInput, old(index))
      {
        if IsWhitespace(originalInput[i]) {
          index := index + 1;
        } else {
          break;
        }
        i := i + 1;
      }
      return index;
    }

    /** Sets the error position explicitly; a negative value clears the error. */
    method SetErrorIndex(i: int)
      modifies this`errorIndex
      ensures errorIndex == i
      ensures HasError() <==> i >= 0
    {
      errorIndex := i;
    }

    /** Records the cursor as the position where parsing failed. */
    method SetError()
      modifies this`errorIndex
      ensures errorIndex == index
      ensures HasError()
    {
      errorIndex := index;
    }

    /** Stores an error message; a null message is rejected and nothing changes. */
    method SetErrorMessage(message: Option<string>) returns (r: Outcome<ParseError>)
      modifies this`errorMessage
      ensures message.None? ==> r == Fail(NullMessage) && errorMessage == old(errorMessage)
      ensures message.Some? ==> r == Pass && errorMessage == message
    {
      if message.None? {
        return Fail(NullMessage);
      }
      errorMessage := message;
      return Pass;
    }

    /**
     * Starts the parse over: cursor, error position and both results return
     * to their initial values. The error message is kept.
     */
    method Reset()
      modifies this`index, this`errorIndex, this`parsedNumber, this`parsedCurrency
      ensures Valid()
      ensures index == 0 && errorIndex == -1
      ensures parsedNumber == None && parsedCurrency == None
      ensures errorMessage == old(errorMessage)
      ensures !HasError() && !IsComplete() && Input() == originalInput
    {
      index := 0;
      errorIndex := -1;
      parsedNumber := None;
      parsedCurrency := None;
    }

    /** Records the numeric part; null (None) clears it. */
    method SetParsedNumber(number: Option<Number>)
      modifies this`parsedNumber
      ensures parsedNumber == number
      ensures IsComplete() <==> number.Some? && parsedCurrency.Some?
    {
      parsedNumber := number;
    }

    /** Records the currency; null (None) clears it. */
    method SetParsedCurrency(currency: Option<CurrencyUnit>)
      modifies this`parsedCurrency
      ensures parsedCurrency == currency
      ensures IsComplete() <==> parsedNumber.Some? && currency.Some?
    {
      parsedCurrency := currency;
    }

    /**
     * Returns the next whitespace-delimited token, or None at the end of the
     * input. Despite being a lookahead, it leaves the cursor past the
     * whitespace in front of that token.
     */
    method LookupNextToken() returns (token: Option<string>)
      requires Valid()
      modifies this`index
      ensures Valid()
      ensures index == WhitespaceEnd(originalInput, old(index))
      ensures token == NextToken(originalInput, old(index))
    {
      var _ := SkipWhitespace();
      var start := index;
      var end := index;
      while end < |originalInput| && !IsWhitespace(originalInput[end])
        invariant start <= end <= |originalInput|
        invariant TokenEnd(originalInput, end) == TokenEnd(originalInput, start)
      {
        end := end + 1;
      }
      if end > start {
        return Some(originalInput[start..end]);
      }
      return None;
    }
  }

  /** Where the scans over "  USD 10" stop, for the lookahead scenario below. */
  lemma UsdScans()
    ensures WhitespaceEnd("  USD 10", 0) == 2
    ensures NextToken("  USD 10", 0) == Some("USD")
  {
    assert "  USD 10" == "  " + "USD" + " 10";
    NextTokenOfLayout("  ", "USD", " 10");
  }

  /**
   * A lookahead over "  USD 10" yields "USD" and leaves the cursor at 2, in
   * front of the token, not at 0.
   */
  method LookupSkipsLeadingWhitespace() returns (token: Option<string>, indexAfter: nat)
    ensures token == Some("USD") && indexAfter == 2
  {
    var context := new ParseContext("  USD 10");
    UsdScans();
    token := context.LookupNextToken();
    indexAfter := context.index;
  }

  /** What the literal matches and the whitespace skip find in "EUR 2.35". */
  lemma EurAmountScans()
    ensures StartsWith("EUR 2.35", "EUR")
    ensures WhitespaceEnd("EUR 2.35", 3) == 4
    ensures StartsWith("EUR 2.35"[4..], "2.35")
  {
    var s := "EUR 2.35";
    assert s[..3] == "EUR";
    assert s[3] == ' ' && s[4] == '2';
    WhitespaceEndUnique(s, 3, 4);
    assert s[4..] == "2.35";
  }

  /**
   * "EUR 2.35" read by a currency literal, a whitespace skip and an amount
   * literal: both literals match, the input is used up, no error is recorded
   * and both results are present.
   */
  method ParseCurrencyThenAmount()
    returns (currencyRead: bool, amountRead: bool, fullyParsed: bool, hasError: bool, complete: bool)
    ensures currencyRead && amountRead && fullyParsed && !hasError && complete
  {
    var context := new ParseContext("EUR 2.35");
    EurAmountScans();
    currencyRead := context.Consume("EUR");
    assert currencyRead && context.index == 3;
    if currencyRead {
      context.SetParsedCurrency(Some(CurrencyUnit("EUR")));
    }
    var _ := context.SkipWhitespace();
    assert context.Input() == "EUR 2.35"[4..];
    amountRead := context.Consume("2.35");
    assert amountRead && context.index == 8;
    if amountRead {
      context.SetParsedNumber(Some(Number(235, 2)));
    }
    fullyParsed := context.IsFullyParsed();
    hasError := context.HasError();
    complete := context.IsComplete();
  }

  /**
   * "EUR" with the same chain: after the currency the lookahead finds no
   * token, so the amount token records the error at the end of the input.
   */
  method ParseCurrencyMissingAmount()
    returns (currencyRead: bool, amount: Option<string>, hasError: bool, errorIndex: int, complete: bool)
    ensures currencyRead && amount.None? && hasError && errorIndex == 3 && !complete
  {
    var context := new ParseContext("EUR");
    currencyRead := context.Consume("EUR");
    if currencyRead {
      context.SetParsedCurrency(Some(CurrencyUnit("EUR")));
    }
    amount := context.LookupNextToken();
    if amount.None? {
      context.SetError();
    }
    hasError := context.HasError();
    errorIndex := context.errorIndex;
    complete := context.IsComplete();
  }
}
