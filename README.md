# A verified model of the Lox lexer

This project models the lexer of a small Lox interpreter, in `src/lexer.rs`.
A `Lexer` wraps a peekable iterator over the characters of the source. It keeps
two `u32` counters: `line`, and `current`, a rough character counter. Each call
of `scan_token`, and so each call of `Iterator::next`, returns one token:

- It first skips blanks (space, carriage return, tab) and newlines. Only
  newlines bump `line`, and only blanks bump `current`.
- Then it returns `None` at end of input, or dispatches on the next character.

The dispatch has these outcomes:

- `! = < >` give a one- or two-character operator.
- Eleven punctuation characters each give a fixed token.
- `"` starts a string.
- A letter starts a keyword or an identifier.
- A digit starts a number.
- Anything else is `Illegal`.

The model has four modules:

- `Tokens` (`tokens.dfy`) has the `Token` enum and `lookup_keyword`. It also has
  the table of the sixteen reserved words, as a `map` independent of the chain of
  tests in `lookup_keyword`.
- `ScanSpec` (`scan_spec.dfy`) is a pure specification:
  - `ScanAt(s, i)` is what one call of `scan_token` does when the cursor is at
    index `i` of the source `s`. It gives the outcome, the new cursor, and what the
    call adds to `line` and to `current`.
  - `Scan(s, i)` is the whole stream that repeated calls produce.
  - Lemmas cover each kind of token, the end of input, and how the stream is
    built.
- `Lexing` (`lexer.dfy`) is the imperative lexer, a class `Lexer`. Its fields are
  the source, a cursor `pos`, `line` and `current`. There is one method per Rust
  function, each a loop where the source has one. `scan_token` is split: its
  `! = < >` arms become `Lookahead`, its `match` becomes `LexToken`, and that
  `match`'s default arm becomes `LexWord`.
  - Each method's contract ties the new state to the specification.
  - `ScanToken` and `Next` keep the invariant `Consistent()`: the tokens returned
    so far, followed by `Scan(src, pos)`, are the stream of the whole source.
- `LexerExamples` (`lexer_examples.dfy`) holds:
  - the unit tests of `src/lexer.rs`, as lemmas about `Scan` and as client
    methods of `Lexer`;
  - the edge cases the code has: the trailing operator that panics, and the
    string that swallows the rest of the input.

A `Peekable<Chars>` over the source is modelled as an index `pos` into the source
text. Everything before the index has been consumed, and `peek()` is
`src[pos]` when `pos < |src|`. A panic of `peek().unwrap()` is the outcome
`Panicked`: it is not a token, and the stream stops there.

### Behaviour of the code worth knowing

- **Strings:** `read_string` (`src/lexer.rs:73-86`) does not stop at a closing
  quote. It reads to the end of the input and drops every `"` it meets. A string
  literal followed by more text therefore becomes one `String` token holding that
  text as well (`StringSwallowsTheRest`). It is exact when its closing quote is
  the last character and it holds no other quote (`LastStringIsExact`).
- **Newlines in strings:** `read_string` does not bump `line` for newlines inside
  a string.
- **Trailing operator:** a `! = < >` that is the last character of the input
  makes `peek().unwrap()` panic (`src/lexer.rs:129`, `138`, `147`, `156`). No test
  reaches this case. `OperatorToken` and `TrailingBangPanics` state that the call
  panics.

## Model

| member | source | states |
|---|---|---|
| Tokens.LookupKeyword | src/lexer.rs:198-218 | always `Some`; a reserved word gives its keyword from the reserved-word table, any other text `Identifier` of exactly that text |
| Tokens.LookupKeywordClassifies | src/lexer.rs:198-218 | the result is a keyword exactly when the input is a reserved word, that keyword is spelled by the input, and otherwise the result is `Identifier(input)` |
| Tokens.KeywordRoundTrip | src/lexer.rs:200-215 | each of the sixteen keyword tokens is produced from its own spelling, and that spelling is in the table |
| Tokens.KeywordsSpelled | src/lexer.rs:200-215 | each table entry is a keyword token spelled by its key |
| ScanSpec.IsBlank | src/lexer.rs:91-94 | the three characters that `consume_whitespace` skips and counts in `current`: space, carriage return, tab |
| ScanSpec.IsWhitespace | src/lexer.rs:90-101 | everything `consume_whitespace` skips: a blank or a newline |
| ScanSpec.IsAlpha | src/lexer.rs:63 | the letter test of `read_identifier` and of the default arm at `src/lexer.rs:180`, over ASCII letters only (see Left out) |
| ScanSpec.IsDigit | src/lexer.rs:108 | `is_digit(10)`, the digit test of `read_number` and of the default arm at `src/lexer.rs:183` |
| ScanSpec.RunEnd | src/lexer.rs:62-69 | the end of the maximal run satisfying a predicate: every character before it satisfies it, and the next one does not or the input ends |
| ScanSpec.RunEndAt | src/lexer.rs:62-69 | any run of the predicate followed by the end or a non-matching character is the maximal run |
| ScanSpec.Without | src/lexer.rs:76-84 | the text `read_string` collects: every character read except `"`, in order; its properties are `WithoutDropsOccurrences`, `WithoutSnoc` and `WithoutAbsent` |
| ScanSpec.WithoutAbsent | src/lexer.rs:76-84 | text with no quote is collected unchanged |
| ScanSpec.WithoutDropsOccurrences | src/lexer.rs:76-84 | the kept text holds no quote, and its length plus the quotes dropped is the length read |
| ScanSpec.WithoutSnoc | src/lexer.rs:77-83 | one more character read is appended unless it is a quote |
| ScanSpec.OccurrencesSnoc | src/lexer.rs:95-97 | one more character read adds one to the newline count exactly when it is a newline |
| ScanSpec.Operator | src/lexer.rs:128-163 | an arm for `! = < >` consumes one or two characters, counts one, adds no line and never ends the stream; `OperatorToken` states each case |
| ScanSpec.Classify | src/lexer.rs:126-190 | the arm of the `match` the first character selects, letters tested before digits; `ClassifyByTables` ties it to the tables and character classes |
| ScanSpec.ClassifyByTables | src/lexer.rs:126-190 | the dispatch on the first character agrees with the operator and punctuation tables, `"` is a string, a letter a word, a digit a number |
| ScanSpec.TokenAt | src/lexer.rs:122-191 | a token consumes at least its first character, adds no line, and is never `None` |
| ScanSpec.ScanAt | src/lexer.rs:118-195 | a call never moves the cursor back; a call that does not end the stream consumes at least one character; `None` leaves the cursor at the end |
| ScanSpec.Scan | src/lexer.rs:221-226 | the stream from a cursor has at most as many tokens as characters remain |
| ScanSpec.Resume | src/lexer.rs:221-226 | after one call the stream stops at a panic or `None`, and otherwise continues from the new cursor; at most one token per remaining character |
| ScanSpec.StreamAdvances | src/lexer.rs:221-226 | after one more call the tokens returned, followed by the rest of the stream, are still the whole stream; `None` or a panic leaves exactly the tokens returned |
| ScanSpec.StreamOfCalls | src/lexer.rs:221-226 | the stream is the sequence of tokens that successive calls return, up to the call that finds end of input |
| ScanSpec.ScanCons | src/lexer.rs:221-226 | a call that returns a token puts it in front of the rest of the stream |
| ScanSpec.ScanAtToken | src/lexer.rs:118-122 | a call stops at end of input after the whitespace, or where the token after the whitespace stops |
| ScanSpec.RunEndShift | src/lexer.rs:90-101 | runs are found at the same place whatever text was consumed before |
| ScanSpec.TokenAtShift | src/lexer.rs:122-191 | the token at a character does not depend on the text consumed before it |
| ScanSpec.WordShift | src/lexer.rs:179-182 | an identifier or keyword does not depend on the text consumed before it |
| ScanSpec.NumberShift | src/lexer.rs:183-186 | a number does not depend on the text consumed before it |
| ScanSpec.RunShift | src/lexer.rs:59-71 | the run after a letter or a digit is the same text whatever was consumed before |
| ScanSpec.ScanAtShift | src/lexer.rs:118-195 | a call depends only on the text not yet consumed |
| ScanSpec.ScanShift | src/lexer.rs:221-226 | the whole remaining stream depends only on the text not yet consumed |
| ScanSpec.ScanSkipsWhitespace | src/lexer.rs:88-102 | skipping any amount of leading whitespace does not change the stream |
| ScanSpec.RunPrefix | src/lexer.rs:62-69 | a run that stops inside a text stops at the same place whatever follows the text |
| ScanSpec.RunStopsBefore | src/lexer.rs:62-69 | a run cannot pass a character outside its class |
| ScanSpec.WordBeforeWhitespace | src/lexer.rs:59-71 | a run of letters or digits that starts before a whitespace ends before it, whatever follows |
| ScanSpec.TokenAtPrefix | src/lexer.rs:122-191 | a token that is not a string and starts before a whitespace character ends before it, never panics, and is independent of what follows |
| ScanSpec.ScanAtPrefix | src/lexer.rs:118-195 | a call that finds its token inside a text ending in whitespace, with no quote, returns a token and is unaffected by what follows |
| ScanSpec.PieceAt | src/lexer.rs:118-195 | a call whose token lies inside a piece of the input ending in whitespace behaves as the same call on that piece alone |
| ScanSpec.EndOfInput | src/lexer.rs:120-122 | a call returns `None` exactly when only whitespace remains |
| ScanSpec.EndIsSticky | src/lexer.rs:192-194 | once a call returns `None`, the next one returns `None` again at the same place and counts nothing |
| ScanSpec.PunctuationToken | src/lexer.rs:164-174 | a punctuation character gives its fixed token and is consumed alone |
| ScanSpec.OperatorToken | src/lexer.rs:128-163 | `! = < >` followed by `=` consume both and give the two-character token, followed by anything else give the one-character token, and at end of input panic |
| ScanSpec.NumberToken | src/lexer.rs:104-116 | a digit starts a number holding exactly the maximal run of digits from it, which the call consumes |
| ScanSpec.IdentifierToken | src/lexer.rs:179-182 | a letter starts a word: the call consumes exactly the maximal run of letters from it and classifies that text with `LookupKeyword` |
| ScanSpec.StringToken | src/lexer.rs:73-86 | a quote starts a string holding every later character except the quotes; it consumes the whole input and is the last token of the stream |
| ScanSpec.LastStringIsExact | src/lexer.rs:73-86 | a string whose closing quote is the last character, with no other quote in it, comes out as the text between the quotes |
| ScanSpec.IllegalToken | src/lexer.rs:187-189 | any other character is one `Illegal` token consuming only itself |
| Lexing.Lexer.constructor | src/lexer.rs:55-57 | a new lexer is at the start of the source with `line` and `current` both 1, and nothing returned |
| Lexing.Lexer.ConsumeWhitespace | src/lexer.rs:88-102 | stops at the end of the maximal whitespace run; `line` grows by the newlines skipped, `current` by the other characters skipped |
| Lexing.Lexer.ReadIdentifier | src/lexer.rs:59-71 | returns the character given followed by the maximal run of letters, consuming and counting exactly that run |
| Lexing.Lexer.ReadNumber | src/lexer.rs:104-116 | returns the digit given followed by the maximal run of digits, consuming and counting exactly that run |
| Lexing.Lexer.ReadString | src/lexer.rs:73-86 | consumes and counts the whole rest of the input and returns it without its quotes; `line` is unchanged |
| Lexing.Lexer.Lookahead | src/lexer.rs:128-163 | at end of input panics; otherwise consumes a following `=` into the two-character token, or returns the one-character token |
| Lexing.Lexer.LexToken | src/lexer.rs:126-191 | the arm the consumed character selects leaves exactly the outcome, cursor and count of `TokenAt` |
| Lexing.Lexer.LexWord | src/lexer.rs:179-190 | the default arm gives a keyword or identifier, a number, or `Illegal`, as `TokenAt` describes |
| Lexing.Lexer.ScanToken | src/lexer.rs:118-195 | one call does exactly what `ScanAt` describes to the cursor, `line` and `current`, and keeps the tokens returned plus the rest of the stream equal to the whole stream |
| Lexing.Lexer.Next | src/lexer.rs:221-226 | `next` is one call of `scan_token`, with the same contract |
| LexerExamples.EmptyInput | src/lexer.rs:192-194 | the empty source has the empty stream |
| LexerExamples.ParenthesisCalls | src/lexer.rs:233-239 | on `"()"` the calls return `LeftParen`, `RightParen`, then `None` |
| LexerExamples.ScanSingleToken | src/lexer.rs:233-239 | the test `scan_single_token`: a `Lexer` on `"()"` returns `LeftParen` then `RightParen` from `ScanToken`, then `None` twice |
| LexerExamples.LexerImplementsIterator | src/lexer.rs:242-246 | the test `lexer_implements_iterator`: the first `Next` on `"()"` returns `LeftParen` |
| LexerExamples.Parentheses | src/lexer.rs:233-246 | the stream of `"()"` is `LeftParen, RightParen` |
| LexerExamples.BangEqualOperator | src/lexer.rs:249-253 | the stream of `"!="` is one `BangEqual` |
| LexerExamples.BangCalls | src/lexer.rs:128-136 | on `"!x"` the calls return `Bang`, consuming only the `!`, then `Identifier("x")`, then `None` |
| LexerExamples.BangBeforeIdentifier | src/lexer.rs:128-136 | the stream of `"!x"` is `Bang, Identifier("x")` |
| LexerExamples.TrailingBangPanics | src/lexer.rs:128-129 | a lone `!` panics before returning any token |
| LexerExamples.DigitRun | src/lexer.rs:183-186 | the stream of `"123"` is one `Number("123")` |
| LexerExamples.QuotedToEnd | src/lexer.rs:175-178 | whitespace and a string literal that closes at the end of the input, with no other quote: one `String` of exactly its text |
| LexerExamples.QuotedString | src/lexer.rs:256-262 | the stream of `"\"This is a string\""` is one `String("This is a string")` |
| LexerExamples.StringSwallowsTheRest | src/lexer.rs:73-86 | `"\"a\" b"` is one `String("a b")`: the text after the closing quote joins the string |
| LexerExamples.WordPiece | src/lexer.rs:179-182 | whitespace, a word, then whitespace: one call returns the word's keyword or identifier and stops after the word |
| LexerExamples.LetterPiece | src/lexer.rs:179-182 | a one-letter word between blanks is the identifier of that letter, never a keyword |
| LexerExamples.EqualPiece | src/lexer.rs:137-145 | whitespace and `=` not followed by `=`: one `Equal`, consuming only the `=` |
| LexerExamples.TwoLinesStream | src/lexer.rs:265-283 | the stream of the two-line test input is exactly `Var, Identifier("a"), Equal, True, Var, Identifier("b"), Equal, String("hello")` and then ends |
| LexerExamples.LexerScansSingleTokens | src/lexer.rs:265-283 | the test `lexer_scans_single_tokens`: eight calls of `Next` on a `Lexer` over the two lines return the eight expected tokens in order |
| LexerExamples.PullTokens | src/lexer.rs:276-281 | calling `next` `n` times on a fresh lexer returns the first `n` tokens of the stream, in order |
| LexerExamples.NextOfKnownStream | src/lexer.rs:276-281 | when `m` tokens of a known stream have been returned, the next call returns token `m` |

## Left out

- `src/main.rs`, `src/bin/lox.rs` and `src/scanner.rs` are not part of this model.
- `IsAlpha`: Rust's `char::is_alphabetic` accepts every Unicode letter. The model
  accepts only ASCII letters, since Dafny has no Unicode character tables.
- Lexing.Lexer.ConsumeWhitespace: does not model the `u32` overflow of `line` and
  `current`. A `u32` wraps in a release build and panics in a debug build, and
  both need more than four billion characters. The same holds for every method and
  for `ScanAt`'s counts.
- Nothing is proved about what `current` means. The model only counts it as the
  code does: blanks, the first character of each token, and the letters, digits
  and string characters read after it.
- The `println!` calls in the tests write to standard output and are left out.
- After a panic, the Rust program unwinds and the lexer is gone. The model
  returns `Panicked` with the operator character consumed. It promises nothing
  about the stream after that, beyond the tokens returned before it.
- The `Peekable<Chars>` iterator is modelled as an index into the source. The
  borrow of the source (`'a`) is not modelled.
