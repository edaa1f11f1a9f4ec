/**
 * The token vocabulary shared by both scanners (rlox/src/scanner.rs and
 * src/scanner.rs declare the same `TokenKind`), the newer scanner's `Token`
 * record and the keyword table.
 */
module Tokens {
  import opened Wrappers
  import opened Float32

  datatype TokenKind =
    // Single-character tokens.
    | LeftParen | RightParen | LeftBrace | RightBrace | Coma | Dot
    | Minus | Plus | Semicolon | Slash | Star
    // One or two character tokens.
    | Bang | BangEqual | Equal | EqualEqual
    | Greater | GreaterEqual | Less | LessEqual
    // Literals.
    | Identifier(name: string) | String(text: string) | Number(value: F32)
    // Keywords.
    | And | Class | Else | False | Function | For | If | Nil | Or
    | Print | Return | Super | This | True | Var | While
    | EOF

  /** A token: its kind, the line it was pushed on and its source text. */
  datatype Token = Token(kind: TokenKind, line: nat, lexeme: string)

  /** The reserved words, matched case-sensitively. */
  const Keywords: map<string, TokenKind> := map[
    "and" := And, "class" := Class, "else" := Else, "false" := False,
    "for" := For, "fun" := Function, "if" := If, "nil" := Nil,
    "or" := Or, "print" := Print, "return" := Return, "super" := Super,
    "this" := This, "true" := True, "var" := Var, "while" := While]

  /** The kind of an identifier-shaped lexeme: a keyword or `Identifier(text)`. */
  function WordKind(text: string): TokenKind {
    if text in Keywords then Keywords[text] else Identifier(text)
  }

  /** No keyword scans as an identifier, a literal or the end-of-input marker. */
  lemma KeywordTable()
    ensures forall w :: w in Keywords ==>
      !Keywords[w].Identifier? && !Keywords[w].String? && !Keywords[w].Number? && Keywords[w] != EOF
  {
  }

  /** Matching is case-sensitive: a capitalised keyword is an identifier. */
  lemma KeywordsAreCaseSensitive()
    ensures WordKind("while") == While
    ensures WordKind("While") == Identifier("While")
    ensures WordKind("fun") == Function && WordKind("FUN") == Identifier("FUN")
  {
  }
}
