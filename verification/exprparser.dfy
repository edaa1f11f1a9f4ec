/**
 * The older parser (src/parser.rs) as the object it is: a cursor over the
 * older scanner's tokens and an error vector that no routine appends to.
 * Each routine is proved to compute the function of `ExprGrammar` with the
 * same name; `!r.Panic?` results leave `current` where the function says.
 *
 * The folding loops of the source have no `break`. When such a loop looks
 * at a token that is neither EOF nor one of its operators, nothing changes
 * and every later turn repeats the same one: here the routine returns
 * `ExprGrammar.Spins` at that point instead of turning forever.
 */
module ExprParser {
  import opened Tokens
  import Tokenizer
  import ExprTree
  import ExprGrammar

  class Parser {
    const tokens: seq<Tokenizer.BareToken>
    var current: nat
    var errors: seq<ExprTree.ParseError>

    constructor (tokens: seq<Tokenizer.BareToken>)
      ensures this.tokens == tokens && current == 0 && errors == []
    {
      this.tokens := tokens;
      current := 0;
      errors := [];
    }

    /** `Parser::parse`. */
    static method Parse(tokens: seq<Tokenizer.BareToken>) returns (r: ExprGrammar.Parsed)
      ensures r == ExprGrammar.Parse(tokens)
    {
      var parser := new Parser(tokens);
      var e := parser.Expression();
      match e
      case Fault(error) => r := ExprGrammar.Rejected([error]);
      case Spins => r := ExprGrammar.Diverges;
      case Panic => r := ExprGrammar.Panicked;
      case Done(expr, _) =>
        // Nothing appends to `errors`, so this test always fails.
        var pending := parser.errors;
        if |pending| > 0 {
          r := ExprGrammar.Rejected(pending);
        } else {
          r := ExprGrammar.Accepted(expr);
        }
    }

    /** `expression`. */
    method Expression() returns (r: ExprGrammar.Step<ExprTree.Expr>)
      requires current <= |tokens|
      modifies this`current
      ensures r == ExprGrammar.Expression(tokens, old(current))
      ensures r.Done? ==> current == r.at
      decreases |tokens| - current, 12
    {
      r := Equality();
    }

    /** `equality`: comparisons folded on `!=` and `==`. */
    method Equality() returns (r: ExprGrammar.Step<ExprTree.Expr>)
      requires current <= |tokens|
      modifies this`current
      ensures r == ExprGrammar.Operation(tokens, old(current), 4)
      ensures r.Done? ==> current == r.at
      decreases |tokens| - current, 10
    {
      var first := Comparison();
      if !first.Done? {
        return ExprGrammar.Forward(first);
      }
      r := Loop(4, first.value);
    }

    /** `comparison`: terms folded on `<`, `<=`, `>` and `>=`. */
    method Comparison() returns (r: ExprGrammar.Step<ExprTree.Expr>)
      requires current <= |tokens|
      modifies this`current
      ensures r == ExprGrammar.Operation(tokens, old(current), 3)
      ensures r.Done? ==> current == r.at
      decreases |tokens| - current, 8
    {
      var first := Term();
      if !first.Done? {
        return ExprGrammar.Forward(first);
      }
      r := Loop(3, first.value);
    }

    /** `term`: factors folded on `+` and `-`. */
    method Term() returns (r: ExprGrammar.Step<ExprTree.Expr>)
      requires current <= |tokens|
      modifies this`current
      ensures r == ExprGrammar.Operation(tokens, old(current), 2)
      ensures r.Done? ==> current == r.at
      decreases |tokens| - current, 6
    {
      var first := Factor();
      if !first.Done? {
        return ExprGrammar.Forward(first);
      }
      r := Loop(2, first.value);
    }

    /** `factor`: unary expressions folded on `/` and `*`. */
    method Factor() returns (r: ExprGrammar.Step<ExprTree.Expr>)
      requires current <= |tokens|
      modifies this`current
      ensures r == ExprGrammar.Operation(tokens, old(current), 1)
      ensures r.Done? ==> current == r.at
      decreases |tokens| - current, 4
    {
      var first := Unary();
      if !first.Done? {
        return ExprGrammar.Forward(first);
      }
      r := Loop(1, first.value);
    }

    /** The operand of level `level`: the next tighter level, or `unary` below `factor`. */
    method Operand(level: nat) returns (r: ExprGrammar.Step<ExprTree.Expr>)
      requires current <= |tokens| && 1 <= level <= 4
      modifies this`current
      ensures r == ExprGrammar.Operand(tokens, old(current), level)
      ensures r.Done? ==> current == r.at
      decreases |tokens| - current, 2 * level + 1
    {
      if level == 1 {
        r := Unary();
      } else if level == 2 {
        r := Factor();
      } else if level == 3 {
        r := Term();
      } else {
        r := Comparison();
      }
    }

    /**
     * The `while !self.is_at_end()` loop that the four levels share, apart
     * from their operator table and their operand. It ends only at EOF; a
     * token that is not an operator of the level makes it spin.
     */
    method Loop(level: nat, left: ExprTree.Expr) returns (r: ExprGrammar.Step<ExprTree.Expr>)
      requires current <= |tokens| && 1 <= level <= 4
      modifies this`current
      ensures r == ExprGrammar.Fold(tokens, old(current), level, left)
      ensures r.Done? ==> current == r.at
      decreases |tokens| - current, 0
    {
      var expr := left;
      while current < |tokens| && !IsAtEnd()
        invariant old(current) <= current <= |tokens|
        invariant ExprGrammar.Fold(tokens, current, level, expr) == ExprGrammar.Fold(tokens, old(current), level, left)
        decreases |tokens| - current
      {
        var operator := ExprGrammar.OperatorAt(level, Peek().kind);
        if operator.None? {
          return ExprGrammar.Spins;
        }
        var _ := Advance();
        var right := Operand(level);
        if !right.Done? {
          return ExprGrammar.Forward(right);
        }
        expr := ExprTree.Binary(expr, operator.value, right.value);
      }
      if current >= |tokens| {
        return ExprGrammar.Panic;
      }
      r := ExprGrammar.Done(expr, current);
    }

    /** `unary`. */
    method Unary() returns (r: ExprGrammar.Step<ExprTree.Expr>)
      requires current <= |tokens|
      modifies this`current
      ensures r == ExprGrammar.Unary(tokens, old(current))
      ensures r.Done? ==> current == r.at
      decreases |tokens| - current, 2
    {
      if current >= |tokens| {
        return ExprGrammar.Panic;
      }
      var operator := ExprGrammar.Prefix(Peek().kind);
      if operator.Some? {
        var _ := Advance();
        var operand := Unary();
        if !operand.Done? {
          return ExprGrammar.Forward(operand);
        }
        r := ExprGrammar.Done(ExprTree.Unary(operator.value, operand.value), current);
      } else {
        r := Primary();
      }
    }

    /** `primary`: consumes a token, then classifies it. */
    method Primary() returns (r: ExprGrammar.Step<ExprTree.Expr>)
      requires current <= |tokens|
      modifies this`current
      ensures r == ExprGrammar.Primary(tokens, old(current))
      ensures r.Done? ==> current == r.at
      decreases |tokens| - current, 1
    {
      if current >= |tokens| {
        return ExprGrammar.Panic;
      }
      var token := Advance();
      match token.kind
      case Number(v) => r := ExprGrammar.Done(ExprTree.Literator(ExprTree.Number(v)), current);
      case String(s) => r := ExprGrammar.Done(ExprTree.Literator(ExprTree.String(s)), current);
      case True => r := ExprGrammar.Done(ExprTree.Literator(ExprTree.True), current);
      case False => r := ExprGrammar.Done(ExprTree.Literator(ExprTree.False), current);
      case Nil => r := ExprGrammar.Done(ExprTree.Literator(ExprTree.Nil), current);
      case LeftParen =>
        var inner := Expression();
        match inner {
          case Done(e, _) =>
            // The inner expression stops on EOF, so this `consume` never succeeds.
            var paren := Consume(RightParen, "Expected ')' after expression.");
            if paren.Done? {
              r := ExprGrammar.Done(ExprTree.Grouping(e), current);
            } else {
              r := ExprGrammar.Forward(paren);
            }
          case _ => r := ExprGrammar.Forward(inner);
        }
      case _ =>
        if current >= |tokens| {
          return ExprGrammar.Panic;
        }
        r := ExprGrammar.Fault(ExprTree.ExpectedExpression(Peek()));
    }

    /** `advance`, where the caller has checked that a token is left. */
    method Advance() returns (t: Tokenizer.BareToken)
      requires current < |tokens|
      modifies this`current
      ensures current == old(current) + 1 && t == tokens[old(current)]
    {
      current := current + 1;
      t := tokens[current - 1];
    }

    function Peek(): Tokenizer.BareToken
      requires current < |tokens|
      reads this
    {
      tokens[current]
    }

    predicate IsAtEnd()
      requires current < |tokens|
      reads this
    {
      Peek().kind == EOF
    }

    /** `consume`. */
    method Consume(kind: TokenKind, msg: string) returns (r: ExprGrammar.Step<Tokenizer.BareToken>)
      requires current <= |tokens|
      modifies this`current
      ensures r == ExprGrammar.Consume(tokens, old(current), kind, msg)
      ensures r.Done? ==> current == r.at
    {
      if current >= |tokens| {
        return ExprGrammar.Panic;
      }
      if Peek().kind == kind {
        var t := Advance();
        r := ExprGrammar.Done(t, current);
      } else {
        r := ExprGrammar.Fault(ExprTree.UnexpectedToken(Peek(), msg));
      }
    }
  }
}
