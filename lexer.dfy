/** The pull-based lexer: a forward-only cursor over the source text with a line
    counter and a character counter, producing one token per call. */
module Lexing {
  import opened Tokens
  import opened ScanSpec

  class Lexer {
    /** The source text; `pos` is the cursor of the `Peekable<Chars>` over it. */
    const src: string
    var pos: nat
    var line: nat
    /** Counts most consumed characters; nothing is promised about its meaning. */
    var current: nat
    /** The tokens returned so far. */
    ghost var emitted: seq<Token>

    ghost predicate Valid()
      reads this
    {
      pos <= |src|
    }

    /** The tokens returned so far followed by the rest of the stream are the stream
        of the whole source. */
    ghost predicate Consistent()
      reads this
    {
      Valid() && Scan(src, 0) == Run(emitted + Scan(src, pos).tokens, Scan(src, pos).panicked)
    }

    constructor (source: string)
      ensures src == source && pos == 0 && line == 1 && current == 1
      ensures emitted == []
      ensures Valid() && Consistent()
    {
      src := source;
      pos := 0;
      line := 1;
      current := 1;
      emitted := [];
    }

    /** Drops blanks and newlines; each newline bumps `line`, each blank `current`. */
    method ConsumeWhitespace()
      requires Valid()
      modifies this
      ensures Valid() && emitted == old(emitted)
      ensures pos == RunEnd(src, old(pos), IsWhitespace)
      ensures line == old(line) + Occurrences(src[old(pos)..pos], '\n')
      ensures current == old(current) + (pos - old(pos)) - Occurrences(src[old(pos)..pos], '\n')
    {
      while pos < |src|
        invariant old(pos) <= pos <= |src|
        invariant forall k :: old(pos) <= k < pos ==> IsWhitespace(src[k])
        invariant line == old(line) + Occurrences(src[old(pos)..pos], '\n')
        invariant current == old(current) + (pos - old(pos)) - Occurrences(src[old(pos)..pos], '\n')
        invariant emitted == old(emitted)
        decreases |src| - pos
      {
        var c := src[pos];
        if IsBlank(c) || c == '\n' {
          assert src[old(pos)..pos + 1] == src[old(pos)..pos] + [c];
          OccurrencesSnoc(src[old(pos)..pos], c, '\n');
        }
        if IsBlank(c) {
          pos := pos + 1;
          current := current + 1;
        } else if c == '\n' {
          pos := pos + 1;
          line := line + 1;
        } else {
          break;
        }
      }
    }

    /** Collects `c` and the maximal run of letters that follows it. */
    method ReadIdentifier(c: char) returns (identifier: string)
      requires Valid()
      modifies this
      ensures Valid() && emitted == old(emitted) && line == old(line)
      ensures pos == RunEnd(src, old(pos), IsAlpha)
      ensures identifier == [c] + src[old(pos)..pos]
      ensures current == old(current) + (pos - old(pos))
    {
      identifier := [c];
      while pos < |src|
        invariant old(pos) <= pos <= |src|
        invariant forall k :: old(pos) <= k < pos ==> IsAlpha(src[k])
        invariant identifier == [c] + src[old(pos)..pos]
        invariant current == old(current) + (pos - old(pos))
        invariant line == old(line) && emitted == old(emitted)
        decreases |src| - pos
      {
        if IsAlpha(src[pos]) {
          identifier := identifier + [src[pos]];
          pos := pos + 1;
          current := current + 1;
        } else {
          break;
        }
      }
    }

    /** Collects `c` and the maximal run of decimal digits that follows it. */
    method ReadNumber(c: char) returns (number: string)
      requires Valid()
      modifies this
      ensures Valid() && emitted == old(emitted) && line == old(line)
      ensures pos == RunEnd(src, old(pos), IsDigit)
      ensures number == [c] + src[old(pos)..pos]
      ensures current == old(current) + (pos - old(pos))
    {
      number := [c];
      while pos < |src|
        invariant old(pos) <= pos <= |src|
        invariant forall k :: old(pos) <= k < pos ==> IsDigit(src[k])
        invariant number == [c] + src[old(pos)..pos]
        invariant current == old(current) + (pos - old(pos))
        invariant line == old(line) && emitted == old(emitted)
        decreases |src| - pos
      {
        if IsDigit(src[pos]) {
          number := number + [src[pos]];
          pos := pos + 1;
          current := current + 1;
        } else {
          break;
        }
      }
    }

    /** Consumes the rest of the input, keeping every character but the quotes. */
    method ReadString() returns (text: string)
      requires Valid()
      modifies this
      ensures Valid() && emitted == old(emitted) && line == old(line)
      ensures pos == |src|
      ensures text == Without(src[old(pos)..], '"')
      ensures current == old(current) + (|src| - old(pos))
    {
      text := [];
      while pos < |src|
        invariant old(pos) <= pos <= |src|
        invariant text == Without(src[old(pos)..pos], '"')
        invariant current == old(current) + (pos - old(pos))
        invariant line == old(line) && emitted == old(emitted)
        decreases |src| - pos
      {
        var c := src[pos];
        assert src[old(pos)..pos + 1] == src[old(pos)..pos] + [c];
        WithoutSnoc(src[old(pos)..pos], c, '"');
        if c != '"' {
          text := text + [c];
        }
        pos := pos + 1;
        current := current + 1;
      }
      assert src[old(pos)..pos] == src[old(pos)..];
    }

    /** The arms of `! = < >`: `peek().unwrap()` panics at end of input; a following
        `=` is consumed into the two-character token. */
    method Lookahead(one: Token, two: Token) returns (r: Outcome)
      requires Valid() && 0 < pos
      modifies this
      ensures Valid() && emitted == old(emitted) && line == old(line) && current == old(current)
      ensures var st := Operator(src, old(pos) - 1, one, two);
        r == st.outcome && pos == st.next
    {
      if pos == |src| {
        r := Panicked;
      } else if src[pos] == '=' {
        pos := pos + 1;
        r := Returned(Some(two));
      } else {
        r := Returned(Some(one));
      }
    }

    /** The `match` on the character `c` that `scan_token` has just consumed: the
        token that starts with it. */
    method LexToken(c: char) returns (r: Outcome)
      requires Valid() && 0 < pos && src[pos - 1] == c
      modifies this
      ensures Valid() && emitted == old(emitted) && line == old(line)
      ensures var t := TokenAt(src, old(pos) - 1);
        r == t.outcome && pos == t.next && current == old(current) + t.counted - 1
    {
      match c
      case '!' => r := Lookahead(Bang, BangEqual);
      case '=' => r := Lookahead(Equal, EqualEqual);
      case '<' => r := Lookahead(Less, LessEqual);
      case '>' => r := Lookahead(Greater, GreaterEqual);
      case '(' => r := Returned(Some(LeftParen));
      case ')' => r := Returned(Some(RightParen));
      case '{' => r := Returned(Some(LeftBrace));
      case '}' => r := Returned(Some(RightBrace));
      case '/' => r := Returned(Some(Slash));
      case ',' => r := Returned(Some(Comma));
      case '.' => r := Returned(Some(Dot));
      case '-' => r := Returned(Some(Minus));
      case '+' => r := Returned(Some(Plus));
      case ';' => r := Returned(Some(Semicolon));
      case '*' => r := Returned(Some(Star));
      case '"' =>
        var text := ReadString();
        r := Returned(Some(String(text)));
      case _ => r := LexWord(c);
    }

    /** The default arm of the `match`: an identifier or keyword, a number, or an
        illegal character. */
    method LexWord(c: char) returns (r: Outcome)
      requires Valid() && 0 < pos && src[pos - 1] == c
      requires Classify(c) == Word || Classify(c) == Digits || Classify(c) == Other
      modifies this
      ensures Valid() && emitted == old(emitted) && line == old(line)
      ensures var t := TokenAt(src, old(pos) - 1);
        r == t.outcome && pos == t.next && current == old(current) + t.counted - 1
    {
      ClassifyByTables(c);
      if IsAlpha(c) {
        var identifier := ReadIdentifier(c);
        assert identifier == src[old(pos) - 1..pos];
        r := Returned(LookupKeyword(identifier));
      } else if IsDigit(c) {
        var number := ReadNumber(c);
        assert number == src[old(pos) - 1..pos];
        r := Returned(Some(Number(number)));
      } else {
        r := Returned(Some(Illegal));
      }
    }

    /** Skips whitespace and returns the next token, `None` at end of input, or
        panics where `peek().unwrap()` finds no character after `! = < >`. */
    method ScanToken() returns (r: Outcome)
      requires Valid()
      modifies this
      ensures Valid()
      ensures var st := ScanAt(src, old(pos));
        r == st.outcome && pos == st.next &&
        line == old(line) + st.newlines && current == old(current) + st.counted
      ensures emitted == old(emitted) + Emitted(r)
      ensures old(Consistent()) && !r.Panicked? ==> Consistent()
      ensures old(Consistent()) && r == Returned(None) ==> Scan(src, 0) == Run(emitted, false)
      ensures old(Consistent()) && r.Panicked? ==> Scan(src, 0) == Run(emitted, true)
    {
      ghost var start := pos;
      ghost var st := ScanAt(src, start);
      ConsumeWhitespace();
      ghost var newlines := line - old(line);
      if pos < |src| {
        ghost var t := TokenAt(src, pos);
        assert st == Step(t.outcome, t.next, newlines, pos - start - newlines + t.counted);
        var c := src[pos];
        pos := pos + 1;
        current := current + 1;
        r := LexToken(c);
      } else {
        assert st == Step(Returned(None), pos, newlines, pos - start - newlines);
        r := Returned(None);
      }
      StreamAdvances(src, start, old(emitted));
      emitted := emitted + Emitted(r);
    }

    /** `Iterator::next`: one more token of the stream. */
    method Next() returns (r: Outcome)
      requires Valid()
      modifies this
      ensures Valid()
      ensures var st := ScanAt(src, old(pos));
        r == st.outcome && pos == st.next &&
        line == old(line) + st.newlines && current == old(current) + st.counted
      ensures emitted == old(emitted) + Emitted(r)
      ensures old(Consistent()) && !r.Panicked? ==> Consistent()
      ensures old(Consistent()) && r == Returned(None) ==> Scan(src, 0) == Run(emitted, false)
      ensures old(Consistent()) && r.Panicked? ==> Scan(src, 0) == Run(emitted, true)
    {
      r := ScanToken();
    }
  }
}
