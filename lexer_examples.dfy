/** Concrete inputs: the unit tests of the lexer and the edge cases of its code. */
module LexerExamples {
  import opened Tokens
  import opened ScanSpec
  import opened Lexing

  /** The empty input ends the stream at once. */
  lemma EmptyInput()
    ensures Scan("", 0) == Run([], false)
  {
  }

  /** The three calls on `"()"`: each parenthesis, then end of input. */
  lemma ParenthesisCalls()
    ensures ScanAt("()", 0) == Step(Returned(Some(LeftParen)), 1, 0, 1)
    ensures ScanAt("()", 1) == Step(Returned(Some(RightParen)), 2, 0, 1)
    ensures ScanAt("()", 2) == Step(Returned(None), 2, 0, 0)
  {
    assert ScanAt("()", 0) == Step(Returned(Some(LeftParen)), 1, 0, 1);
    assert ScanAt("()", 1) == Step(Returned(Some(RightParen)), 2, 0, 1);
  }

  /** `"()"` is a left then a right parenthesis. */
  lemma Parentheses()
    ensures Scan("()", 0) == Run([LeftParen, RightParen], false)
  {
    ParenthesisCalls();
  }

  /** `"!="` is one `BangEqual`. */
  lemma BangEqualOperator()
    ensures Scan("!=", 0) == Run([BangEqual], false)
  {
    assert ScanAt("!=", 0) == Step(Returned(Some(BangEqual)), 2, 0, 1);
    assert ScanAt("!=", 2).outcome == Returned(None);
  }

  /** The calls on `"!x"`: `!` alone, since `x` is not `=`, then the identifier, then
      end of input. */
  lemma BangCalls()
    ensures ScanAt("!x", 0) == Step(Returned(Some(Bang)), 1, 0, 1)
    ensures ScanAt("!x", 1) == Step(Returned(Some(Identifier("x"))), 2, 0, 1)
    ensures ScanAt("!x", 2).outcome == Returned(None)
  {
    assert "!x"[1..2] == "x";
    RunEndAt("!x", 2, 2, IsAlpha);
  }

  /** `"!x"` is `Bang` then the identifier `x`: only the `!` is consumed. */
  lemma BangBeforeIdentifier()
    ensures Scan("!x", 0) == Run([Bang, Identifier("x")], false)
  {
    BangCalls();
  }

  /** A lone `!` makes `peek().unwrap()` panic: the stream ends in a panic. */
  lemma TrailingBangPanics()
    ensures Scan("!", 0) == Run([], true)
  {
    assert ScanAt("!", 0).outcome == Panicked;
  }

  /** `"123"` is one number with the digits `123`. */
  lemma DigitRun()
    ensures Scan("123", 0) == Run([Number("123")], false)
  {
    assert RunEnd("123", 3, IsDigit) == 3;
    assert RunEnd("123", 1, IsDigit) == 3;
    assert "123"[0..3] == "123";
    assert ScanAt("123", 0) == Step(Returned(Some(Number("123"))), 3, 0, 3);
    assert ScanAt("123", 3).outcome == Returned(None);
  }

  /** A quoted string as the last token loses exactly its two quotes. */
  lemma QuotedString()
    ensures Scan("\"This is a string\"", 0) == Run([String("This is a string")], false)
  {
    QuotedLiteral();
    QuotedToEnd("", "This is a string");
  }

  lemma QuotedLiteral()
    ensures "\"This is a string\"" == "" + ("\"" + "This is a string" + "\"")
  {
  }

  /** Whitespace, then a string literal that closes at the end of the input and holds
      no other quote: exactly its text. */
  lemma {:induction false} QuotedToEnd(lead: string, body: string)
    requires forall k :: 0 <= k < |lead| ==> IsWhitespace(lead[k])
    requires '"' !in body
    ensures Scan(lead + ("\"" + body + "\""), 0) == Run([String(body)], false)
  {
    var s := lead + ("\"" + body + "\"");
    forall k | 0 <= k < |lead|
      ensures IsWhitespace(s[k])
    {
      assert s[k] == lead[k];
    }
    assert s[|lead|] == '"' && s[|s| - 1] == '"';
    RunEndAt(s, 0, |lead|, IsWhitespace);
    assert s[|lead| + 1..|s| - 1] == body;
    LastStringIsExact(s, 0);
  }

  /** `read_string` does not stop at the closing quote: a string followed by more
      text takes that text too, and what follows never becomes a token. */
  lemma StringSwallowsTheRest()
    ensures Scan("\"a\" b", 0) == Run([String("a b")], false)
  {
    var s := "\"a\" b";
    assert s[1..] == "a" + "\"" + " b";
    WithoutAppend("a" + "\"", " b", '"');
    WithoutAppend("a", "\"", '"');
    WithoutAbsent("a", '"');
    WithoutAbsent(" b", '"');
    assert Without("\"", '"') == [];
    assert "a" + " b" == "a b";
    StringToken(s, 0);
  }

  /** The test `scan_single_token`: `"()"` read with two calls of `scan_token`. */
  method ScanSingleToken()
  {
    ParenthesisCalls();
    var lexer := new Lexer("()");
    var token1 := lexer.ScanToken();
    assert token1 == Returned(Some(LeftParen));
    var token2 := lexer.ScanToken();
    assert token2 == Returned(Some(RightParen));
    var token3 := lexer.ScanToken();
    assert token3 == Returned(None);
    var token4 := lexer.ScanToken();
    assert token4 == Returned(None);
  }

  /** Whitespace, a word, then text that starts with whitespace: the first call skips
      the whitespace and returns the keyword or identifier the word spells. */
  lemma WordPiece(lead: string, w: string, rest: string)
    requires forall k :: 0 <= k < |lead| ==> IsWhitespace(lead[k])
    requires 0 < |w| && forall k :: 0 <= k < |w| ==> IsAlpha(w[k])
    requires 0 < |rest| && IsWhitespace(rest[0])
    ensures var a := lead + w + rest;
      ScanAt(a, 0).outcome == Returned(LookupKeyword(w)) && ScanAt(a, 0).next == |lead| + |w|
  {
    var a := lead + w + rest;
    var e := |lead| + |w|;
    forall k | 0 <= k < |lead|
      ensures IsWhitespace(a[k])
    {
      assert a[k] == lead[k];
    }
    forall k | |lead| <= k < e
      ensures IsAlpha(a[k])
    {
      assert a[k] == w[k - |lead|];
    }
    assert a[e] == rest[0];
    RunEndAt(a, 0, |lead|, IsWhitespace);
    ClassifyByTables(a[|lead|]);
    RunEndAt(a, |lead| + 1, e, IsAlpha);
    assert a[|lead|..e] == w;
  }

  /** Whitespace, `=`, then text that does not start with `=`: one `Equal`. */
  lemma EqualPiece(lead: string, rest: string)
    requires forall k :: 0 <= k < |lead| ==> IsWhitespace(lead[k])
    requires 0 < |rest| && rest[0] != '='
    ensures var a := lead + "=" + rest;
      ScanAt(a, 0).outcome == Returned(Some(Equal)) && ScanAt(a, 0).next == |lead| + 1
  {
    var a := lead + "=" + rest;
    forall k | 0 <= k < |lead|
      ensures IsWhitespace(a[k])
    {
      assert a[k] == lead[k];
    }
    assert a[|lead|] == '=' && a[|lead| + 1] == rest[0];
    RunEndAt(a, 0, |lead|, IsWhitespace);
  }

  /** `"var "`: the keyword `var`. */
  lemma VarPiece()
    ensures RunEnd("var ", 0, IsWhitespace) == 0
    ensures ScanAt("var ", 0).outcome == Returned(Some(Var)) && ScanAt("var ", 0).next == 3
  {
    WordPiece("", "var", " ");
    assert "" + "var" + " " == "var ";
  }

  /** A blank, one letter, a blank: the one-letter identifier, which no keyword is. */
  lemma LetterPiece(c: char)
    requires IsAlpha(c)
    ensures RunEnd([' ', c, ' '], 0, IsWhitespace) == 1
    ensures ScanAt([' ', c, ' '], 0).outcome == Returned(Some(Identifier([c])))
    ensures ScanAt([' ', c, ' '], 0).next == 2
  {
    WordPiece(" ", [c], " ");
    assert " " + [c] + " " == [' ', c, ' '];
    assert |[c]| == 1;
  }

  /** `" = "`: one `Equal`, the blank after it not yet consumed. */
  lemma EqualBlank()
    ensures RunEnd(" = ", 0, IsWhitespace) == 1
    ensures ScanAt(" = ", 0).outcome == Returned(Some(Equal)) && ScanAt(" = ", 0).next == 2
  {
    EqualPiece(" ", " ");
    assert " " + "=" + " " == " = ";
  }

  /** `" true\n"`: the keyword `true`. */
  lemma TruePiece()
    ensures RunEnd(" true\n", 0, IsWhitespace) == 1
    ensures ScanAt(" true\n", 0).outcome == Returned(Some(True)) && ScanAt(" true\n", 0).next == 5
  {
    WordPiece(" ", "true", "\n");
    assert " " + "true" + "\n" == " true\n";
  }

  /** The input of the test `lexer_scans_single_tokens`: two source lines with an
      empty line between them. */
  const FirstLine: string := "var a = true"
  const SecondLine: string := "        var b = \"hello\""
  const TwoLines: string := FirstLine + "\n\n" + SecondLine

  /* The pieces of the input that the calls read. */

  lemma VarSlice()
    ensures TwoLines[0..4] == "var "
  {
    assert TwoLines[0..4] == [TwoLines[0], TwoLines[1], TwoLines[2], TwoLines[3]];
  }

  lemma ASlice()
    ensures TwoLines[3..6] == " a "
  {
    assert TwoLines[3] == ' ' && TwoLines[4] == 'a' && TwoLines[5] == ' ';
    assert TwoLines[3..6] == [TwoLines[3], TwoLines[4], TwoLines[5]];
  }

  lemma FirstEqualSlice()
    ensures TwoLines[5..8] == " = "
  {
    assert TwoLines[5] == ' ' && TwoLines[6] == '=' && TwoLines[7] == ' ';
    assert TwoLines[5..8] == [TwoLines[5], TwoLines[6], TwoLines[7]];
  }

  lemma TrueSlice()
    ensures TwoLines[7..13] == " true\n"
  {
    assert TwoLines[7] == ' ' && TwoLines[8] == 't' && TwoLines[9] == 'r' && TwoLines[10] == 'u';
    assert TwoLines[11] == 'e' && TwoLines[12] == '\n';
    assert TwoLines[7..13] == [TwoLines[7], TwoLines[8], TwoLines[9], TwoLines[10], TwoLines[11], TwoLines[12]];
  }

  lemma IndentSlice()
    ensures forall m :: 12 <= m < 22 ==> IsWhitespace(TwoLines[m])
  {
    assert TwoLines[12] == '\n' && TwoLines[13] == '\n';
    assert TwoLines[14] == ' ' && TwoLines[15] == ' ' && TwoLines[16] == ' ' && TwoLines[17] == ' ';
    assert TwoLines[18] == ' ' && TwoLines[19] == ' ' && TwoLines[20] == ' ' && TwoLines[21] == ' ';
  }

  lemma SecondVarSlice()
    ensures TwoLines[22..26] == "var "
  {
    assert TwoLines[22] == 'v' && TwoLines[23] == 'a' && TwoLines[24] == 'r' && TwoLines[25] == ' ';
    assert TwoLines[22..26] == [TwoLines[22], TwoLines[23], TwoLines[24], TwoLines[25]];
  }

  lemma BSlice()
    ensures TwoLines[25..28] == " b "
  {
    assert TwoLines[25..28] == [TwoLines[25], TwoLines[26], TwoLines[27]];
  }

  lemma SecondEqualSlice()
    ensures TwoLines[27..30] == " = "
  {
    assert TwoLines[27..30] == [TwoLines[27], TwoLines[28], TwoLines[29]];
  }

  lemma HelloSlice()
    ensures TwoLines[31..] == "hello\""
  {
    assert TwoLines[31..] == [TwoLines[31], TwoLines[32], TwoLines[33], TwoLines[34], TwoLines[35], TwoLines[36]];
  }

  /* Each call: its token, then the stream from where it leaves the cursor. */

  lemma FirstVar()
    ensures Scan(TwoLines, 0) == Run([Var] + Scan(TwoLines, 3).tokens, Scan(TwoLines, 3).panicked)
  {
    VarSlice();
    VarPiece();
    PieceAt(TwoLines, 0, 4);
    ScanCons(TwoLines, 0);
  }

  lemma FirstName()
    ensures Scan(TwoLines, 3) == Run([Identifier("a")] + Scan(TwoLines, 5).tokens, Scan(TwoLines, 5).panicked)
  {
    ASlice();
    LetterPiece('a');
    PieceAt(TwoLines, 3, 6);
    ScanCons(TwoLines, 3);
  }

  lemma FirstEqual()
    ensures Scan(TwoLines, 5) == Run([Equal] + Scan(TwoLines, 7).tokens, Scan(TwoLines, 7).panicked)
  {
    FirstEqualSlice();
    EqualBlank();
    PieceAt(TwoLines, 5, 8);
    ScanCons(TwoLines, 5);
  }

  lemma TrueCall()
    ensures Scan(TwoLines, 7) == Run([True] + Scan(TwoLines, 12).tokens, Scan(TwoLines, 12).panicked)
  {
    TrueSlice();
    TruePiece();
    PieceAt(TwoLines, 7, 13);
    ScanCons(TwoLines, 7);
  }

  /** The empty line and the indentation before the second `var` are skipped. */
  lemma SecondLineStart()
    ensures Scan(TwoLines, 12) == Scan(TwoLines, 22)
  {
    IndentSlice();
    ScanSkipsWhitespace(TwoLines, 12, 22);
  }

  lemma SecondVar()
    ensures Scan(TwoLines, 22) == Run([Var] + Scan(TwoLines, 25).tokens, Scan(TwoLines, 25).panicked)
  {
    SecondVarSlice();
    VarPiece();
    PieceAt(TwoLines, 22, 26);
    ScanCons(TwoLines, 22);
  }

  lemma SecondName()
    ensures Scan(TwoLines, 25) == Run([Identifier("b")] + Scan(TwoLines, 27).tokens, Scan(TwoLines, 27).panicked)
  {
    BSlice();
    LetterPiece('b');
    PieceAt(TwoLines, 25, 28);
    ScanCons(TwoLines, 25);
  }

  lemma SecondEqual()
    ensures Scan(TwoLines, 27) == Run([Equal] + Scan(TwoLines, 29).tokens, Scan(TwoLines, 29).panicked)
  {
    SecondEqualSlice();
    EqualBlank();
    PieceAt(TwoLines, 27, 30);
    ScanCons(TwoLines, 27);
  }

  /** The string takes the rest of the input, which holds no other quote, and then
      the stream ends. */
  lemma HelloCall()
    ensures Scan(TwoLines, 29) == Run([String("hello")], false)
  {
    HelloSlice();
    HelloText();
    RunEndAt(TwoLines, 29, 30, IsWhitespace);
    StringToken(TwoLines, 29);
  }

  lemma HelloText()
    ensures Without("hello\"", '"') == "hello"
  {
    WithoutSnoc("hello", '"', '"');
    WithoutAbsent("hello", '"');
  }

  /* The stream from each cursor the calls stop at, from the last one back. */

  lemma StreamFrom27()
    ensures Scan(TwoLines, 27) == Run([Equal, String("hello")], false)
  {
    SecondEqual();
    HelloCall();
  }

  lemma StreamFrom25()
    ensures Scan(TwoLines, 25) == Run([Identifier("b"), Equal, String("hello")], false)
  {
    SecondName();
    StreamFrom27();
  }

  lemma StreamFrom12()
    ensures Scan(TwoLines, 12) == Run([Var, Identifier("b"), Equal, String("hello")], false)
  {
    SecondLineStart();
    SecondVar();
    StreamFrom25();
  }

  lemma StreamFrom7()
    ensures Scan(TwoLines, 7) == Run([True, Var, Identifier("b"), Equal, String("hello")], false)
  {
    TrueCall();
    StreamFrom12();
  }

  lemma StreamFrom5()
    ensures Scan(TwoLines, 5) == Run([Equal, True, Var, Identifier("b"), Equal, String("hello")], false)
  {
    FirstEqual();
    StreamFrom7();
  }

  lemma StreamFrom3()
    ensures Scan(TwoLines, 3) ==
      Run([Identifier("a"), Equal, True, Var, Identifier("b"), Equal, String("hello")], false)
  {
    FirstName();
    StreamFrom5();
  }

  /** The eight tokens the test expects, and nothing after them. */
  lemma TwoLinesStream()
    ensures Scan(TwoLines, 0) ==
      Run([Var, Identifier("a"), Equal, True, Var, Identifier("b"), Equal, String("hello")], false)
  {
    FirstVar();
    StreamFrom3();
  }

  /** The test `lexer_implements_iterator`: the first `next` on `"()"`. */
  method LexerImplementsIterator()
  {
    ParenthesisCalls();
    var lexer := new Lexer("()");
    var token1 := lexer.Next();
    assert token1 == Returned(Some(LeftParen));
  }

  /** The test `lexer_scans_single_tokens`: each call of `next` on the two lines
      returns the next expected token. */
  method LexerScansSingleTokens()
  {
    var expected := [Var, Identifier("a"), Equal, True, Var, Identifier("b"), Equal, String("hello")];
    TwoLinesStream();
    var got := PullTokens(TwoLines, |expected|);
    assert got == expected;
  }

  /** A fresh lexer on `source` called `n` times, where the stream of `source` has at
      least `n` tokens: the calls return the first `n` of them, in order. */
  method PullTokens(source: string, n: nat) returns (got: seq<Token>)
    requires n <= |Scan(source, 0).tokens|
    ensures got == Scan(source, 0).tokens[..n]
  {
    var lexer := new Lexer(source);
    ghost var expected := Scan(source, 0).tokens;
    ghost var panicked := Scan(source, 0).panicked;
    got := [];
    while |got| < n
      invariant |got| <= n
      invariant lexer.src == source && lexer.Valid() && lexer.Consistent()
      invariant lexer.emitted == got == expected[..|got|]
      decreases n - |got|
    {
      var m := |got|;
      var r := lexer.Next();
      NextOfKnownStream(expected, panicked, m, r, Scan(source, lexer.pos));
      got := got + [r.value.value];
      assert got == expected[..m + 1];
    }
  }

  /** A stream known in advance, of which `m` tokens have been returned: the next call,
      related to the stream as `Next` promises, returns token `m`. */
  lemma NextOfKnownStream(expected: seq<Token>, panicked: bool, m: nat, got: Outcome, rest: Run)
    requires m < |expected|
    requires !got.Panicked? ==>
      Run(expected, panicked) == Run(expected[..m] + Emitted(got) + rest.tokens, rest.panicked)
    requires got == Returned(None) ==> Run(expected, panicked) == Run(expected[..m], false)
    requires got.Panicked? ==> Run(expected, panicked) == Run(expected[..m], true)
    ensures got == Returned(Some(expected[m]))
  {
    if got.Returned? && got.value.Some? {
      assert expected[m] == (expected[..m] + Emitted(got) + rest.tokens)[m];
    }
  }
}
