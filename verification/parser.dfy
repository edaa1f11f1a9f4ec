/**
 * The newer parser (rlox/src/parser.rs) as the object it is: a cursor over
 * the token list and a vector of collected errors. Each routine returns what
 * the source's routine returns, as a `Grammar.Parsing` whose cursor is the
 * parser's `current` afterwards, and is proved to compute exactly the
 * function of `Grammar` with the same name.
 *
 * Where the source reads `tokens[current]` past the end of the list it
 * panics; here the routine returns `Grammar.Panic` at that point.
 */
module RloxParser {
  import opened Wrappers
  import opened Tokens
  import Ast
  import Errors
  import Grammar

  class Parser {
    const tokens: seq<Token>
    var current: nat
    var errors: seq<Errors.Error>

    constructor (tokens: seq<Token>)
      ensures this.tokens == tokens && current == 0 && errors == []
    {
      this.tokens := tokens;
      current := 0;
      errors := [];
    }

    /** `Parser::parse`. */
    static method Parse(tokens: seq<Token>) returns (r: Grammar.Parsed)
      ensures r == Grammar.Parse(tokens)
    {
      var parser := new Parser(tokens);
      var statements := parser.Program();
      if statements.None? {
        return Grammar.Panicked;
      }
      if parser.errors != [] {
        r := Grammar.Rejected(parser.errors);
      } else {
        r := Grammar.Accepted(statements.value);
      }
    }

    /**
     * `program`: parses declarations until EOF, keeping each statement or
     * pushing each error. `None` is a panic.
     */
    method Program() returns (r: Option<seq<Ast.Stmt>>)
      requires current <= |tokens|
      modifies this`current, this`errors
      ensures match Grammar.Program(tokens, old(current), Grammar.Collected([], old(errors)))
        case None => r.None?
        case Some(c) => r == Some(c.statements) && errors == c.errors
    {
      var statements := [];
      // `is_at_end` panics once the cursor is past the end.
      while current < |tokens| && !IsAtEnd()
        invariant current <= |tokens|
        invariant Grammar.Program(tokens, current, Grammar.Collected(statements, errors))
               == Grammar.Program(tokens, old(current), Grammar.Collected([], old(errors)))
        decreases |tokens| - current
      {
        var declaration := Declaration();
        match declaration
        case Done(statement, _) =>
          statements := statements + [statement];
        case Fault(error, _) =>
          errors := errors + [error];
        case Panic =>
          return None;
      }
      if current >= |tokens| {
        return None;
      }
      r := Some(statements);
    }

    /** `declaration`. */
    method Declaration() returns (r: Grammar.Parsing<Ast.Stmt>)
      requires current <= |tokens|
      modifies this`current
      ensures r == Grammar.Declaration(tokens, old(current))
      ensures !r.Panic? ==> current == r.at
    {
      if current >= |tokens| {
        return Grammar.Panic;
      }
      if Peek().kind == Var {
        var _ := Advance();
        r := VarDeclaration();
      } else {
        r := Statement();
      }
    }

    /** `var_declaration`, after `var`. */
    method VarDeclaration() returns (r: Grammar.Parsing<Ast.Stmt>)
      requires current <= |tokens|
      modifies this`current
      ensures r == Grammar.VarDeclaration(tokens, old(current))
      ensures !r.Panic? ==> current == r.at
    {
      if current >= |tokens| {
        return Grammar.Panic;
      }
      var name := Peek();
      if !name.kind.Identifier? {
        return Grammar.Fail(tokens, current, "Expected variable name.");
      }
      var _ := Advance();
      if current >= |tokens| {
        return Grammar.Panic;
      }
      var initializer := None;
      if Peek().kind == Equal {
        var _ := Advance();
        var init := Expression();
        if !init.Done? {
          return Grammar.Forward(init);
        }
        initializer := Some(init.value);
      }
      var semicolon := Consume(Semicolon, "Expected ';' after variable declaration.");
      r := Grammar.Finish(semicolon, Ast.Var(name, initializer));
    }

    /** `statement`. */
    method Statement() returns (r: Grammar.Parsing<Ast.Stmt>)
      requires current <= |tokens|
      modifies this`current
      ensures r == Grammar.Statement(tokens, old(current))
      ensures !r.Panic? ==> current == r.at
    {
      if current >= |tokens| {
        return Grammar.Panic;
      }
      if Peek().kind == Print {
        r := PrintStatement();
      } else {
        r := ExpressionStatement();
      }
    }

    /** `print_statement`. */
    method PrintStatement() returns (r: Grammar.Parsing<Ast.Stmt>)
      requires current <= |tokens|
      modifies this`current
      ensures r == Grammar.PrintStatement(tokens, old(current))
      ensures !r.Panic? ==> current == r.at
    {
      var keyword := Consume(Print, "Expected print");
      if !keyword.Done? {
        return Grammar.Forward(keyword);
      }
      var e := Expression();
      if !e.Done? {
        return Grammar.Forward(e);
      }
      var semicolon := Consume(Semicolon, "Expected ';' after value");
      r := Grammar.Finish(semicolon, Ast.Print(e.value));
    }

    /** `expression_statement`. */
    method ExpressionStatement() returns (r: Grammar.Parsing<Ast.Stmt>)
      requires current <= |tokens|
      modifies this`current
      ensures r == Grammar.ExpressionStatement(tokens, old(current))
      ensures !r.Panic? ==> current == r.at
    {
      var e := Expression();
      if !e.Done? {
        return Grammar.Forward(e);
      }
      var semicolon := Consume(Semicolon, "Expected ';' after expression");
      r := Grammar.Finish(semicolon, Ast.Expression(e.value));
    }

    /** `expression`. */
    method Expression() returns (r: Grammar.Parsing<Ast.Expr>)
      requires current <= |tokens|
      modifies this`current
      ensures r == Grammar.Expression(tokens, old(current))
      ensures !r.Panic? ==> current == r.at
      decreases |tokens| - current, 12
    {
      r := Assignment();
    }

    /** `assignment`. */
    method Assignment() returns (r: Grammar.Parsing<Ast.Expr>)
      requires current <= |tokens|
      modifies this`current
      ensures r == Grammar.Assignment(tokens, old(current))
      ensures !r.Panic? ==> current == r.at
      decreases |tokens| - current, 11
    {
      var target := Equality();
      if !target.Done? {
        return Grammar.Forward(target);
      }
      if current >= |tokens| {
        return Grammar.Panic;
      }
      if Peek().kind == Equal {
        var _ := Advance();
        var value := Assignment();
        if !value.Done? {
          return Grammar.Forward(value);
        }
        if target.value.Variable? {
          return Grammar.Done(Ast.Assign(target.value.name, value.value), current);
        }
        return Grammar.Fail(tokens, current, "Invalid assignment target.");
      }
      r := target;
    }

    /** `equality`: comparisons folded on `!=` and `==`. */
    method Equality() returns (r: Grammar.Parsing<Ast.Expr>)
      requires current <= |tokens|
      modifies this`current
      ensures r == Grammar.Operation(tokens, old(current), 4)
      ensures !r.Panic? ==> current == r.at
      decreases |tokens| - current, 10
    {
      Grammar.OperationStart(tokens, current, 4);
      var first := Comparison();
      if !first.Done? {
        return Grammar.Forward(first);
      }
      r := Loop(4, first.value);
    }

    /** `comparison`: terms folded on `<`, `<=`, `>` and `>=`. */
    method Comparison() returns (r: Grammar.Parsing<Ast.Expr>)
      requires current <= |tokens|
      modifies this`current
      ensures r == Grammar.Operation(tokens, old(current), 3)
      ensures !r.Panic? ==> current == r.at
      decreases |tokens| - current, 8
    {
      Grammar.OperationStart(tokens, current, 3);
      var first := Term();
      if !first.Done? {
        return Grammar.Forward(first);
      }
      r := Loop(3, first.value);
    }

    /** `term`: factors folded on `+` and `-`. */
    method Term() returns (r: Grammar.Parsing<Ast.Expr>)
      requires current <= |tokens|
      modifies this`current
      ensures r == Grammar.Operation(tokens, old(current), 2)
      ensures !r.Panic? ==> current == r.at
      decreases |tokens| - current, 6
    {
      Grammar.OperationStart(tokens, current, 2);
      var first := Factor();
      if !first.Done? {
        return Grammar.Forward(first);
      }
      r := Loop(2, first.value);
    }

    /** `factor`: unary expressions folded on `/` and `*`. */
    method Factor() returns (r: Grammar.Parsing<Ast.Expr>)
      requires current <= |tokens|
      modifies this`current
      ensures r == Grammar.Operation(tokens, old(current), 1)
      ensures !r.Panic? ==> current == r.at
      decreases |tokens| - current, 4
    {
      Grammar.OperationStart(tokens, current, 1);
      var first := Unary();
      if !first.Done? {
        return Grammar.Forward(first);
      }
      r := Loop(1, first.value);
    }

    /** The operand of level `level`: the next tighter level, or `unary` below `factor`. */
    method Operand(level: nat) returns (r: Grammar.Parsing<Ast.Expr>)
      requires current <= |tokens| && 1 <= level <= 4
      modifies this`current
      ensures r == Grammar.Operand(tokens, old(current), level)
      ensures !r.Panic? ==> current == r.at
      decreases |tokens| - current, 2 * level + 1
    {
      if level == 1 {
        r := Unary();
      } else if level == 2 {
        r := Factor();
      } else if level == 3 {
        r := Term();
      } else {
        r := Comparison();
      }
    }

    /**
     * The `while !self.is_at_end()` loop that the four levels share, apart
     * from their operator table and their operand: it stops at EOF or at a
     * token that is not an operator of the level, and otherwise folds the
     * next operand in on the right.
     */
    method Loop(level: nat, left: Ast.Expr) returns (r: Grammar.Parsing<Ast.Expr>)
      requires current <= |tokens| && 1 <= level <= 4
      requires Grammar.Shaped(left, level) && Grammar.Named(left)
      modifies this`current
      ensures r == Grammar.Fold(tokens, old(current), level, left)
      ensures !r.Panic? ==> current == r.at
      decreases |tokens| - current, 1
    {
      var expr := left;
      while current < |tokens| && !IsAtEnd()
        invariant old(current) <= current <= |tokens|
        invariant Grammar.Shaped(expr, level) && Grammar.Named(expr)
        invariant Grammar.Fold(tokens, current, level, expr) == Grammar.Fold(tokens, old(current), level, left)
        decreases |tokens| - current
      {
        var operator := Grammar.OperatorAt(level, tokens[current].kind);
        if operator.None? {
          break;
        }
        var right := Turn(level, expr, operator.value);
        if !right.Done? {
          return Grammar.Forward(right);
        }
        expr := Ast.Binary(expr, operator.value, right.value);
      }
      if current >= |tokens| {
        return Grammar.Panic;
      }
      Grammar.FoldStops(tokens, current, level, expr);
      r := Grammar.Done(expr, current);
    }

    /** One turn of `Loop`: the operator is consumed, then the operand on its right. */
    method Turn(level: nat, left: Ast.Expr, op: Ast.BinaryOp) returns (right: Grammar.Parsing<Ast.Expr>)
      requires current < |tokens| && 1 <= level <= 4
      requires Grammar.Shaped(left, level) && Grammar.Named(left)
      requires tokens[current].kind != EOF && Grammar.OperatorAt(level, tokens[current].kind) == Some(op)
      modifies this`current
      ensures right == Grammar.Operand(tokens, old(current) + 1, level)
      ensures !right.Panic? ==> current == right.at
      ensures right.Done? ==> old(current) < right.at <= |tokens|
      ensures right.Done? ==> Grammar.Shaped(Ast.Binary(left, op, right.value), level)
      ensures right.Done? ==> Grammar.Named(Ast.Binary(left, op, right.value))
      ensures right.Done? ==>
        Grammar.Fold(tokens, old(current), level, left) == Grammar.Fold(tokens, right.at, level, Ast.Binary(left, op, right.value))
      ensures !right.Done? ==> Grammar.Fold(tokens, old(current), level, left) == Grammar.Forward(right)
      decreases |tokens| - current, 0
    {
      var _ := Advance();
      right := Operand(level);
      Grammar.FoldTurn(tokens, old(current), level, left, op, right);
    }

    /** `unary`. */
    method Unary() returns (r: Grammar.Parsing<Ast.Expr>)
      requires current <= |tokens|
      modifies this`current
      ensures r == Grammar.Unary(tokens, old(current))
      ensures !r.Panic? ==> current == r.at
      decreases |tokens| - current, 2
    {
      if current >= |tokens| {
        return Grammar.Panic;
      }
      var operator := Grammar.Prefix(Peek().kind);
      if operator.Some? {
        var _ := Advance();
        var operand := Unary();
        if !operand.Done? {
          return Grammar.Forward(operand);
        }
        r := Grammar.Done(Ast.Unary(operator.value, operand.value), current);
      } else {
        r := Primary();
      }
    }

    /** `primary`: consumes a token, then classifies it. */
    method Primary() returns (r: Grammar.Parsing<Ast.Expr>)
      requires current <= |tokens|
      modifies this`current
      ensures r == Grammar.Primary(tokens, old(current))
      ensures !r.Panic? ==> current == r.at
      decreases |tokens| - current, 1
    {
      if current >= |tokens| {
        return Grammar.Panic;
      }
      var token := Advance();
      match token.kind
      case Number(v) => r := Grammar.Done(Ast.Literal(Ast.Number(v)), current);
      case String(s) => r := Grammar.Done(Ast.Literal(Ast.String(s)), current);
      case True => r := Grammar.Done(Ast.Literal(Ast.True), current);
      case False => r := Grammar.Done(Ast.Literal(Ast.False), current);
      case Nil => r := Grammar.Done(Ast.Literal(Ast.Nil), current);
      case Identifier(_) => r := Grammar.Done(Ast.Variable(token), current);
      case LeftParen =>
        var inner := Expression();
        if !inner.Done? {
          return Grammar.Forward(inner);
        }
        var paren := Consume(RightParen, "Expected ')' after expression.");
        r := Grammar.Finish(paren, Ast.Grouping(inner.value));
      case _ => r := Grammar.Fail(tokens, current, "Expected expression");
    }

    /** `advance`, where the caller has checked that a token is left. */
    method Advance() returns (t: Token)
      requires current < |tokens|
      modifies this`current
      ensures current == old(current) + 1 && t == tokens[old(current)]
    {
      current := current + 1;
      t := tokens[current - 1];
    }

    function Peek(): Token
      requires current < |tokens|
      reads this
    {
      tokens[current]
    }

    predicate IsAtEnd()
      requires current < |tokens|
      reads this
    {
      Peek().kind == EOF
    }

    /** `consume`. */
    method Consume(kind: TokenKind, msg: string) returns (r: Grammar.Parsing<Token>)
      requires current <= |tokens|
      modifies this`current
      ensures r == Grammar.Consume(tokens, old(current), kind, msg)
      ensures !r.Panic? ==> current == r.at
    {
      if current >= |tokens| {
        return Grammar.Panic;
      }
      if Peek().kind == kind {
        var t := Advance();
        r := Grammar.Done(t, current);
      } else {
        r := Grammar.Fail(tokens, current, msg);
      }
    }
  }
}
