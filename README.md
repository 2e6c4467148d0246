# Parse state and resource cache of the Moneta monetary-amount library

This project models two pieces of the Moneta reference implementation of the Java
money API (JSR 354) and proves what their contracts promise.

- **`ParseContext`** (module `Format`, `parse_context.dfy`). A monetary-amount format
  parses text such as `"EUR 2.35"` left to right by handing one `ParseContext` to
  each of its format tokens in turn. The context holds the immutable input, a cursor
  `index`, an `errorIndex` (-1 means "no error"), an optional error message and the
  two partial results: the number and the currency. It is a Dafny class whose
  methods change exactly the fields the Java methods assign. Field-granular
  `modifies` clauses (``this`index``) make "nothing else changes" part of every
  contract. The object invariant `Valid()` is `0 <= index <= |originalInput|`.
  The scanning loops are specified by pure functions over the input:
  - `StartsWith` is `String.startsWith`;
  - `WhitespaceEnd` gives the end of a whitespace run;
  - `TokenEnd` gives the end of a non-whitespace run;
  - `NextToken` is the result of a lookahead.

  Lemmas characterise these functions:
  - each run end is unique;
  - skipping whitespace is idempotent;
  - two successive matches equal one match of the concatenation;
  - on an input laid out as whitespace, a token and a separator, the lookahead
    returns exactly that token.
  The Java getters (`getIndex`, `getErrorIndex`, `getErrorMessage`,
  `getParsedNumber`, `getParsedCurrency`, `getOriginalInput`) are reads of the
  class's fields. `hasError` and `isComplete` are the predicates `HasError` and
  `IsComplete`. Their meaning is stated in the contracts of the constructor,
  `SetError`, `SetErrorIndex`, `Reset`, `SetParsedNumber` and `SetParsedCurrency`.
- **`ResourceCache`** (module `Loader`, `resource_cache.dfy`). This is the
  interface through which remote rate data is cached locally. It is modelled by
  the contract its documentation gives: a class over a
  `map<string, seq<bv8>>` from resource id to payload.
  - `Write` replaces the entry for an id, or fails with an I/O error.
  - `IsCached` is a query.
  - `Read` returns the payload, or fails when no resource is registered.
  - `Clear` removes an entry.

  Three client methods prove the properties callers rely on:
  - a write reads back byte for byte;
  - writes to distinct ids do not interfere;
  - a cleared id misses;
  - in this model, a refused write changes nothing (the interface promises only the I/O error).

Where the code and its documentation disagree, the model follows the code:
- `lookupNextToken` is documented as not updating any index pointer, yet it calls
  `skipWhitespace` first. `LookupNextToken` therefore moves the cursor to the end of
  the leading whitespace. `LookupSkipsLeadingWhitespace` proves this on
  `"  USD 10"`.
- `reset` is documented as clearing "all containing results". It keeps the error
  message, and `Reset` says so in its `ensures`.

In `lookupNextToken` the inner `return null` (whitespace right at the start
position) cannot be reached, because the preceding whitespace skip stops at a
non-whitespace character. `LookupNextToken` therefore has a single
`end > start` test after its loop in place of Java's two returning paths. The
result is the same for every input.

## Model

| member | source | states |
|---|---|---|
| `Format.StartsWith` | src/main/java/org/javamoney/moneta/internal/format/ParseContext.java:99 | the character-by-character prefix test holds exactly when the prefix is no longer than the text and equals the text's first characters |
| `Format.WhitespaceEnd` | src/main/java/org/javamoney/moneta/internal/format/ParseContext.java:128-137 | the whitespace skip stops at or after its start and within the input; everything it passes is whitespace; it stops at the end of the input or before a non-whitespace character |
| `Format.TokenEnd` | src/main/java/org/javamoney/moneta/internal/format/ParseContext.java:257-265 | the token scan stops at or after its start and within the input; everything it passes is non-whitespace; it stops at the end of the input or before a whitespace character |
| `Format.NextToken` | src/main/java/org/javamoney/moneta/internal/format/ParseContext.java:255-271 | the lookahead finds nothing exactly when only whitespace is left. Otherwise it finds a non-empty, whitespace-free substring that starts where the whitespace ends and cannot be extended |
| `Format.WhitespaceEndIdempotent` | src/main/java/org/javamoney/moneta/internal/format/ParseContext.java:121-137 | skipping whitespace twice ends where skipping once does |
| `Format.WhitespaceEndUnique` | src/main/java/org/javamoney/moneta/internal/format/ParseContext.java:128-137 | any position reached over whitespace only, with no whitespace at it, is the one the skip stops at |
| `Format.TokenEndUnique` | src/main/java/org/javamoney/moneta/internal/format/ParseContext.java:257-269 | any position reached over non-whitespace only, with whitespace or the end at it, is where the token scan stops |
| `Format.StartsWithConcat` | src/main/java/org/javamoney/moneta/internal/format/ParseContext.java:98-104 | consuming `a` and then `b` succeeds exactly when consuming `a + b` succeeds |
| `Format.NextTokenAfterSkip` | src/main/java/org/javamoney/moneta/internal/format/ParseContext.java:255-271 | a second lookahead from where the first one left the cursor finds the same token |
| `Format.NextTokenOfLayout` | src/main/java/org/javamoney/moneta/internal/format/ParseContext.java:248-271 | on whitespace, then a non-empty whitespace-free token, then nothing or a whitespace-led rest, the lookahead skips exactly the whitespace and returns exactly that token |
| `Format.ParseContext.constructor` | src/main/java/org/javamoney/moneta/internal/format/ParseContext.java:39-69 | a new context holds the text, has cursor 0, error index -1 and no results, is neither in error nor complete, and its residual input is the whole text |
| `Format.ParseContext.Create` | src/main/java/org/javamoney/moneta/internal/format/ParseContext.java:61-69 | a null text fails with "text is required"; any other text gives a fresh context in the initial state |
| `Format.ParseContext.IsComplete` | src/main/java/org/javamoney/moneta/internal/format/ParseContext.java:71-79 | both a number and a currency are present, whatever the error index; `SetParsedNumber` and `SetParsedCurrency` state when it holds after a change, and the constructor and `Reset` that it is false |
| `Format.ParseContext.HasError` | src/main/java/org/javamoney/moneta/internal/format/ParseContext.java:229-236 | an error position has been recorded (a non-negative error index); `SetError` makes it true, `SetErrorIndex` makes it true exactly for a non-negative index, and the constructor and `Reset` make it false |
| `Format.ParseContext.Input` | src/main/java/org/javamoney/moneta/internal/format/ParseContext.java:182-189 | the residual input has the length still to parse, and the consumed prefix followed by it is the original input |
| `Format.ParseContext.IsFullyParsed` | src/main/java/org/javamoney/moneta/internal/format/ParseContext.java:238-246 | the text is fully parsed exactly when the residual input is empty |
| `Format.ParseContext.Consume` | src/main/java/org/javamoney/moneta/internal/format/ParseContext.java:90-104 | it returns true exactly when the residual input starts with the token. The cursor then advances by the token's length; otherwise it stays put. Nothing else changes and the cursor stays within the input |
| `Format.ParseContext.ConsumeChar` | src/main/java/org/javamoney/moneta/internal/format/ParseContext.java:106-119 | at the end of the input it fails with an index-out-of-bounds error. Otherwise it advances the cursor by one exactly when the next character is the expected one, and changes nothing else |
| `Format.ParseContext.SkipWhitespace` | src/main/java/org/javamoney/moneta/internal/format/ParseContext.java:121-137 | the cursor moves to the end of the whitespace run in front of it, and the new cursor is returned |
| `Format.ParseContext.SetErrorIndex` | src/main/java/org/javamoney/moneta/internal/format/ParseContext.java:148-155 | the error index becomes the given value; the context is in error exactly when that value is non-negative |
| `Format.ParseContext.SetError` | src/main/java/org/javamoney/moneta/internal/format/ParseContext.java:166-171 | the error index becomes the cursor, so the context is in error; the cursor is unchanged |
| `Format.ParseContext.SetErrorMessage` | src/main/java/org/javamoney/moneta/internal/format/ParseContext.java:299-302 | a null message is rejected and leaves the stored message alone; any other message is stored |
| `Format.ParseContext.Reset` | src/main/java/org/javamoney/moneta/internal/format/ParseContext.java:200-209 | cursor, error index and both results return to their initial values, so the context is neither in error nor complete. The error message and the input are kept |
| `Format.ParseContext.SetParsedNumber` | src/main/java/org/javamoney/moneta/internal/format/ParseContext.java:211-218 | the number is recorded (null clears it); the context is complete exactly when a currency is also present |
| `Format.ParseContext.SetParsedCurrency` | src/main/java/org/javamoney/moneta/internal/format/ParseContext.java:220-227 | the currency is recorded (null clears it); the context is complete exactly when a number is also present |
| `Format.ParseContext.LookupNextToken` | src/main/java/org/javamoney/moneta/internal/format/ParseContext.java:248-271 | it returns what the lookahead finds from the old cursor, and it leaves the cursor at the end of the skipped whitespace |
| `Format.LookupSkipsLeadingWhitespace` | src/main/java/org/javamoney/moneta/internal/format/ParseContext.java:248-271 | on `"  USD 10"` the lookahead returns `"USD"` and leaves the cursor at 2 |
| `Format.ParseCurrencyThenAmount` | src/main/java/org/javamoney/moneta/internal/format/ParseContext.java:98-137 | on `"EUR 2.35"`, matching `"EUR"`, skipping whitespace and matching `"2.35"` all succeed. The input is then fully parsed, free of error and complete |
| `Format.ParseCurrencyMissingAmount` | src/main/java/org/javamoney/moneta/internal/format/ParseContext.java:166-171 | on `"EUR"`, after the currency the lookahead finds nothing. Setting the error records it at position 3, the end of the input, and the parse is not complete |
| `Loader.ResourceCache.IsCached` | src/main/java/org/javamoney/moneta/internal/loader/ResourceCache.java:40-48 | a resource is registered under the id; it is a query that never fails and reads the store without changing it. `Read` succeeds exactly when it holds, a successful `Write` makes it true and `Clear` makes it false |
| `Loader.ResourceCache.Write` | src/main/java/org/javamoney/moneta/internal/loader/ResourceCache.java:27-38 | a write the store accepts registers the data under the id, replacing any earlier entry and leaving other ids alone; the id is then cached. A refused write fails with an I/O error and changes nothing |
| `Loader.ResourceCache.Read` | src/main/java/org/javamoney/moneta/internal/loader/ResourceCache.java:50-59 | it succeeds exactly when the id is cached and then returns the registered payload; otherwise it fails naming the missing id |
| `Loader.ResourceCache.Clear` | src/main/java/org/javamoney/moneta/internal/loader/ResourceCache.java:61-65 | the entry for the id is removed, other entries are kept, and the id is no longer cached |
| `Loader.WriteThenRead` | src/main/java/org/javamoney/moneta/internal/loader/ResourceCache.java:27-59 | after a successful write, the id is cached and reading it returns the written bytes, even after a write under another id |
| `Loader.ClearThenRead` | src/main/java/org/javamoney/moneta/internal/loader/ResourceCache.java:40-65 | after a clear, the id is not cached and reading it fails as a missing resource |
| `Loader.FailedWriteKeepsStore` | src/main/java/org/javamoney/moneta/internal/loader/ResourceCache.java:35-48 | a refused write fails with an I/O error, and whether the id is cached is what it was before |

## Left out

- `toParsePosition` and `toString` of `ParseContext`: a wrapper around `java.text.ParsePosition` and a diagnostic rendering.
- Positions count Dafny characters, which are Unicode scalar values, not UTF-16 code units: a supplementary character is one element of the input here where Java's `index` and `token.length()` count two, and lone surrogates cannot occur.
- `IsWhitespace` is the table of `Character.isWhitespace(char)` in current Java. U+180E, which Java 8 (Unicode 6.2) also treats as whitespace, is not included.
- `Number` and `CurrencyUnit` are small stand-in datatypes; only whether a result is present matters to the parse state.
- `Format.ParseContext.Consume`: a null token (a `NullPointerException` in Java) cannot be passed, because Dafny strings are never null; the same holds for null resource ids and payloads of the cache.
- `Format.ParseContext.Input`: Java returns a view (`subSequence`) of the input; the model returns the value of that view.
- Java `int` overflow of `index`: the cursor is bounded by the input length, so it cannot overflow; `errorIndex` takes any integer value it is given.
- `Loader.ResourceCache.Write`: the backing store's I/O is a parameter (`storeWritable`). A failing write changes nothing; a partial write to the store is not modelled.
- `Loader.ResourceCache.Write`: the payload is a value (`seq<bv8>`). A caller that later mutates the Java `byte[]` it passed, or the array `read` returned, is not modelled.
- The file-backed default cache implementation: it is not part of this model. The constructor of `Loader.ResourceCache` starts from whatever the store already holds.
- Concurrent use of the cache: the model is sequential.
- The format tokens themselves and the driver that runs them are not part of this model. The scenario methods stand in for them with literal matches.
