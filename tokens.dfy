/** The token vocabulary of the Lox lexer and its keyword classification. */
module Tokens {

  /** Rust's `Option`: `lookup_keyword`, `scan_token` and `Iterator::next` return it. */
  datatype Option<T> = None | Some(value: T)

  /** One lexical unit. End of input is not a token: it is `None`. */
  datatype Token =
    | Illegal
      // Single-character tokens.
    | LeftParen | RightParen | LeftBrace | RightBrace
    | Comma | Dot | Minus | Plus | Semicolon | Slash | Star
      // One or two character tokens.
    | Bang | BangEqual | Equal | EqualEqual
    | Greater | GreaterEqual | Less | LessEqual
      // Literals: the text of a string without its quotes, a number's digits unparsed.
    | String(text: string)
    | Number(digits: string)
      // Keywords.
    | And | Class | Else | False | Fun | For | If | Nil | Or
    | Print | Return | Super | This | True | Var | While
    | Identifier(name: string)

  /** The sixteen reserved words, as a table independent of `LookupKeyword`'s chain of tests. */
  const Keywords: map<string, Token> :=
    map["and" := And, "class" := Class, "else" := Else, "false" := False,
        "true" := True, "fun" := Fun, "for" := For, "if" := If,
        "nil" := Nil, "or" := Or, "print" := Print, "return" := Return,
        "super" := Super, "this" := This, "var" := Var, "while" := While]

  predicate IsKeyword(t: Token) {
    t.And? || t.Class? || t.Else? || t.False? || t.Fun? || t.For? || t.If? || t.Nil? ||
    t.Or? || t.Print? || t.Return? || t.Super? || t.This? || t.True? || t.Var? || t.While?
  }

  /** The reserved word a keyword token is spelled with. */
  function KeywordText(t: Token): (w: string)
    requires IsKeyword(t)
  {
    match t
    case And => "and"
    case Class => "class"
    case Else => "else"
    case False => "false"
    case Fun => "fun"
    case For => "for"
    case If => "if"
    case Nil => "nil"
    case Or => "or"
    case Print => "print"
    case Return => "return"
    case Super => "super"
    case This => "this"
    case True => "true"
    case Var => "var"
    case While => "while"
  }

  /** Classifies an alphabetic run: a reserved word gives its keyword token,
      any other text an identifier carrying exactly that text. */
  function LookupKeyword(keyword: string): (r: Option<Token>)
    ensures r.Some?
    ensures keyword in Keywords ==> r.value == Keywords[keyword]
    ensures keyword !in Keywords ==> r.value == Identifier(keyword)
  {
    if keyword == "and" then Some(And)
    else if keyword == "class" then Some(Class)
    else if keyword == "else" then Some(Else)
    else if keyword == "false" then Some(False)
    else if keyword == "true" then Some(True)
    else if keyword == "fun" then Some(Fun)
    else if keyword == "for" then Some(For)
    else if keyword == "if" then Some(If)
    else if keyword == "nil" then Some(Nil)
    else if keyword == "or" then Some(Or)
    else if keyword == "print" then Some(Print)
    else if keyword == "return" then Some(Return)
    else if keyword == "super" then Some(Super)
    else if keyword == "this" then Some(This)
    else if keyword == "var" then Some(Var)
    else if keyword == "while" then Some(While)
    else Some(Identifier(keyword))
  }

  /** Every keyword token is recognised from its own spelling. */
  lemma KeywordRoundTrip(t: Token)
    requires IsKeyword(t)
    ensures LookupKeyword(KeywordText(t)) == Some(t)
    ensures KeywordText(t) in Keywords
  {
  }

  /** `LookupKeyword` yields a keyword exactly for the reserved words, and then the one
      spelled by the input; otherwise an identifier with the input text. */
  lemma LookupKeywordClassifies(w: string)
    ensures IsKeyword(LookupKeyword(w).value) <==> w in Keywords
    ensures IsKeyword(LookupKeyword(w).value) ==> KeywordText(LookupKeyword(w).value) == w
    ensures !IsKeyword(LookupKeyword(w).value) ==> LookupKeyword(w) == Some(Identifier(w))
  {
    if w in Keywords {
      KeywordsSpelled(w);
    }
  }

  /** Each entry of the table is a keyword spelled by its key. */
  lemma KeywordsSpelled(w: string)
    requires w in Keywords
    ensures IsKeyword(Keywords[w]) && KeywordText(Keywords[w]) == w
  {
  }
}
