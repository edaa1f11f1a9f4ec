/**
 * The newer parser (rlox/src/parser.rs) as a reference grammar: one function
 * per parsing routine, from a token list and a cursor to what the routine
 * leaves behind. The imperative parser of module `RloxParser` is proved to
 * compute exactly these functions; the properties of the parser are proved
 * here, about them.
 *
 * Reading `tokens[current]` past the end of the list panics in the source;
 * here that is the outcome `Panic`, so every function is total.
 */
module Grammar {
  import opened Wrappers
  import opened Tokens
  import Ast
  import Errors

  /**
   * What a parsing routine leaves behind: the value it built and the cursor
   * after it, the error it returned and the cursor where it stopped, or a
   * panic from an out-of-range index.
   */
  datatype Parsing<+T> = Done(value: T, at: nat) | Fault(error: Errors.Error, at: nat) | Panic

  /** The routine stopped strictly after `pos`, inside the token list. */
  predicate Advanced<T>(ts: seq<Token>, pos: nat, r: Parsing<T>) {
    r.Panic? || pos < r.at <= |ts|
  }

  /** The routine stopped at or after `pos`, inside the token list. */
  predicate Stayed<T>(ts: seq<Token>, pos: nat, r: Parsing<T>) {
    r.Panic? || pos <= r.at <= |ts|
  }

  /** The `?` operator: an error or a panic travels up unchanged. */
  function Forward<T, U>(r: Parsing<T>): (f: Parsing<U>)
    requires !r.Done?
    ensures f.Panic? == r.Panic? && (r.Fault? ==> f == Fault(r.error, r.at))
  {
    match r
    case Fault(e, at) => Fault(e, at)
    case Panic => Panic
  }

  /** A routine that ends with `consume(...)?` and then returns `v`. */
  function Finish<T>(r: Parsing<Token>, v: T): (f: Parsing<T>)
    ensures f.Panic? == r.Panic? && (!r.Panic? ==> f.at == r.at)
    ensures f.Done? == r.Done? && (f.Done? ==> f.value == v)
    ensures r.Fault? ==> f.error == r.error
  {
    match r
    case Done(_, at) => Done(v, at)
    case Fault(e, at) => Fault(e, at)
    case Panic => Panic
  }

  /** `err`: a parser error on the line of the current token (which may be past the end). */
  function Fail<T>(ts: seq<Token>, at: nat, msg: string): Parsing<T> {
    if at < |ts| then Fault(Errors.Parser(ts[at].line, msg), at) else Panic
  }

  /** `consume`. */
  function Consume(ts: seq<Token>, pos: nat, kind: TokenKind, msg: string): (r: Parsing<Token>)
    ensures Stayed(ts, pos, r)
    ensures r.Done? ==> pos < |ts| && ts[pos].kind == kind && r.at == pos + 1
  {
    if pos >= |ts| then Panic
    else if ts[pos].kind == kind then Done(ts[pos], pos + 1)
    else Fail(ts, pos, msg)
  }

  /**
   * `consume` advances exactly when the current token has the requested kind;
   * otherwise it reports `msg` on that token's line and leaves the cursor
   * where it was.
   */
  lemma ConsumeAdvancesOnlyOnMatch(ts: seq<Token>, pos: nat, kind: TokenKind, msg: string)
    requires pos < |ts|
    ensures Consume(ts, pos, kind, msg).Done? <==> ts[pos].kind == kind
    ensures Consume(ts, pos, kind, msg).Done? ==> Consume(ts, pos, kind, msg) == Done(ts[pos], pos + 1)
    ensures !Consume(ts, pos, kind, msg).Done? ==>
      Consume(ts, pos, kind, msg) == Fault(Errors.Parser(ts[pos].line, msg), pos)
  {
  }

  /** The operator a token stands for in a binary expression, if any. */
  function Operator(kind: TokenKind): Option<Ast.BinaryOp> {
    match kind
    case Slash => Some(Ast.Slash)
    case Star => Some(Ast.Star)
    case Plus => Some(Ast.Plus)
    case Minus => Some(Ast.Minus)
    case Less => Some(Ast.Less)
    case LessEqual => Some(Ast.LessEqual)
    case Greater => Some(Ast.Greater)
    case GreaterEqual => Some(Ast.GreaterEqual)
    case BangEqual => Some(Ast.NotEqual)
    case EqualEqual => Some(Ast.Equal)
    case _ => None
  }

  /**
   * The routine that folds an operator: 1 for `factor`, 2 for `term`,
   * 3 for `comparison`, 4 for `equality`. Lower binds tighter.
   */
  function Level(op: Ast.BinaryOp): (l: nat)
    ensures 1 <= l <= 4
  {
    match op
    case Slash | Star => 1
    case Plus | Minus => 2
    case Less | LessEqual | Greater | GreaterEqual => 3
    case Equal | NotEqual => 4
  }

  /** The operator the loop of level `level` folds on token `kind`, if any. */
  function OperatorAt(level: nat, kind: TokenKind): Option<Ast.BinaryOp> {
    match Operator(kind)
    case Some(op) => if Level(op) == level then Some(op) else None
    case None => None
  }

  /** The prefix operator a token stands for in `unary`, if any. */
  function Prefix(kind: TokenKind): Option<Ast.UnaryOp> {
    match kind
    case Bang => Some(Ast.Not)
    case Minus => Some(Ast.Neg)
    case _ => None
  }

  /**
   * Precedence and associativity of a tree that a routine of level `level`
   * builds (0 for `unary`, 1 to 4 for the binary levels, 5 for
   * `assignment`): a binary node sits at a level no lower than its operator,
   * its left operand may hold operators of the same level (left
   * associativity) but its right operand only tighter ones; prefix operands
   * hold no bare binary node; parentheses and the right side of an
   * assignment start over at the top.
   */
  predicate Shaped(e: Ast.Expr, level: nat) {
    match e
    case Binary(l, op, r) => Level(op) <= level && Shaped(l, Level(op)) && Shaped(r, Level(op) - 1)
    case Unary(_, x) => Shaped(x, 0)
    case Grouping(x) => Shaped(x, 5)
    case Assign(_, x) => 5 <= level && Shaped(x, 5)
    case Literal(_) => true
    case Variable(_) => true
  }

  lemma ShapedWeaken(e: Ast.Expr, low: nat, high: nat)
    requires Shaped(e, low) && low <= high
    ensures Shaped(e, high)
  {
  }

  /**
   * Every variable and every assignment target in `e` is an identifier token:
   * `primary` builds variables only from identifiers, and `assignment` only
   * assigns to a variable.
   */
  predicate Named(e: Ast.Expr) {
    match e
    case Binary(l, _, r) => Named(l) && Named(r)
    case Unary(_, x) => Named(x)
    case Grouping(x) => Named(x)
    case Assign(t, x) => t.kind.Identifier? && Named(x)
    case Literal(_) => true
    case Variable(t) => t.kind.Identifier?
  }

  /** `expression`. */
  function Expression(ts: seq<Token>, pos: nat): (r: Parsing<Ast.Expr>)
    requires pos <= |ts|
    ensures Advanced(ts, pos, r)
    ensures r.Done? ==> Shaped(r.value, 5)
    ensures r.Done? ==> Named(r.value)
    decreases |ts| - pos, 12
  {
    Assignment(ts, pos)
  }

  /**
   * `assignment`: an equality, and if `=` follows, a right-recursive
   * assignment whose target must be a variable; any other target is an error
   * reported after the right-hand side has been parsed.
   */
  function Assignment(ts: seq<Token>, pos: nat): (r: Parsing<Ast.Expr>)
    requires pos <= |ts|
    ensures Advanced(ts, pos, r)
    ensures r.Done? ==> Shaped(r.value, 5)
    ensures r.Done? ==> Named(r.value)
    decreases |ts| - pos, 11
  {
    match Operation(ts, pos, 4)
    case Done(target, at) =>
      if at >= |ts| then Panic
      else if ts[at].kind == Equal then
        match Assignment(ts, at + 1)
        case Done(value, end) =>
          if target.Variable? then Done(Ast.Assign(target.name, value), end)
          else Fail(ts, end, "Invalid assignment target.")
        case Fault(e, end) => Fault(e, end)
        case Panic => Panic
      else
        ShapedWeaken(target, 4, 5);
        Done(target, at)
    case Fault(e, at) => Fault(e, at)
    case Panic => Panic
  }

  /**
   * `factor`, `term`, `comparison` and `equality` (levels 1 to 4): an operand,
   * then the folding loop of the level.
   */
  function Operation(ts: seq<Token>, pos: nat, level: nat): (r: Parsing<Ast.Expr>)
    requires pos <= |ts| && 1 <= level <= 4
    ensures Advanced(ts, pos, r)
    ensures r.Done? ==> Shaped(r.value, level)
    ensures r.Done? ==> Named(r.value)
    decreases |ts| - pos, 2 * level + 2
  {
    match Operand(ts, pos, level)
    case Done(first, at) =>
      ShapedWeaken(first, level - 1, level);
      Fold(ts, at, level, first)
    case Fault(e, at) => Fault(e, at)
    case Panic => Panic
  }

  /** The operands of level `level`: `unary` for `factor`, else the next tighter level. */
  function Operand(ts: seq<Token>, pos: nat, level: nat): (r: Parsing<Ast.Expr>)
    requires pos <= |ts| && 1 <= level <= 4
    ensures Advanced(ts, pos, r)
    ensures r.Done? ==> Shaped(r.value, level - 1)
    ensures r.Done? ==> Named(r.value)
    decreases |ts| - pos, 2 * level + 1
  {
    if level == 1 then Unary(ts, pos) else Operation(ts, pos, level - 1)
  }

  /**
   * The `while !self.is_at_end()` loop of level `level`, entered with the
   * tree `left` built so far and the cursor at `pos`: it stops at EOF or at a
   * token that is not an operator of this level, and otherwise folds the
   * next operand in on the right.
   */
  function Fold(ts: seq<Token>, pos: nat, level: nat, left: Ast.Expr): (r: Parsing<Ast.Expr>)
    requires pos <= |ts| && 1 <= level <= 4
    requires Shaped(left, level) && Named(left)
    ensures Stayed(ts, pos, r)
    ensures r.Done? ==> Shaped(r.value, level) && Named(r.value)
    decreases |ts| - pos, 0
  {
    if pos >= |ts| then Panic
    else if ts[pos].kind == EOF then Done(left, pos)
    else match OperatorAt(level, ts[pos].kind)
      case None => Done(left, pos)
      case Some(op) =>
        match Operand(ts, pos + 1, level)
        case Done(right, at) => Fold(ts, at, level, Ast.Binary(left, op, right))
        case Fault(e, at) => Fault(e, at)
        case Panic => Panic
  }

  /** `unary`: right-recursive prefix operators, then `primary`. */
  function Unary(ts: seq<Token>, pos: nat): (r: Parsing<Ast.Expr>)
    requires pos <= |ts|
    ensures Advanced(ts, pos, r)
    ensures r.Done? ==> Shaped(r.value, 0)
    ensures r.Done? ==> Named(r.value)
    decreases |ts| - pos, 2
  {
    if pos >= |ts| then Panic
    else match Prefix(ts[pos].kind)
      case Some(op) =>
        (match Unary(ts, pos + 1)
         case Done(operand, at) => Done(Ast.Unary(op, operand), at)
         case Fault(e, at) => Fault(e, at)
         case Panic => Panic)
      case None => Primary(ts, pos)
  }

  /**
   * `primary`: consumes a token, then classifies it. An error therefore names
   * the line of the token after the offending one, and panics when the
   * offending token was the last one.
   */
  function Primary(ts: seq<Token>, pos: nat): (r: Parsing<Ast.Expr>)
    requires pos <= |ts|
    ensures Advanced(ts, pos, r)
    ensures r.Done? ==> Shaped(r.value, 0)
    ensures r.Done? ==> Named(r.value)
    ensures r.Done? ==> r.value.Literal? || r.value.Variable? || r.value.Grouping?
    decreases |ts| - pos, 1
  {
    if pos >= |ts| then Panic
    else match ts[pos].kind
      case Number(v) => Done(Ast.Literal(Ast.Number(v)), pos + 1)
      case String(s) => Done(Ast.Literal(Ast.String(s)), pos + 1)
      case True => Done(Ast.Literal(Ast.True), pos + 1)
      case False => Done(Ast.Literal(Ast.False), pos + 1)
      case Nil => Done(Ast.Literal(Ast.Nil), pos + 1)
      case Identifier(_) => Done(Ast.Variable(ts[pos]), pos + 1)
      case LeftParen =>
        (match Expression(ts, pos + 1)
         case Done(inner, at) =>
           Finish(Consume(ts, at, RightParen, "Expected ')' after expression."), Ast.Grouping(inner))
         case Fault(e, at) => Fault(e, at)
         case Panic => Panic)
      case _ => Fail(ts, pos + 1, "Expected expression")
  }

  /** `declaration`: a `var` declaration or a statement. */
  function Declaration(ts: seq<Token>, pos: nat): (r: Parsing<Ast.Stmt>)
    requires pos <= |ts|
    ensures Advanced(ts, pos, r)
    ensures r.Done? ==> ts[r.at - 1].kind == Semicolon
  {
    if pos >= |ts| then Panic
    else if ts[pos].kind == Var then VarDeclaration(ts, pos + 1)
    else Statement(ts, pos)
  }

  /**
   * `var_declaration`, after `var`: a name, then optionally `=` and an
   * initializer, then `;`.
   */
  function VarDeclaration(ts: seq<Token>, pos: nat): (r: Parsing<Ast.Stmt>)
    requires pos <= |ts|
    ensures Stayed(ts, pos, r)
    ensures r.Done? ==>
      pos + 1 < |ts| && ts[pos].kind.Identifier? && r.value.Var? && r.value.declared == ts[pos] &&
      (r.value.initializer.Some? <==> ts[pos + 1].kind == Equal) && 0 < r.at && ts[r.at - 1].kind == Semicolon
    ensures pos < |ts| && !ts[pos].kind.Identifier? ==>
      r == Fault(Errors.Parser(ts[pos].line, "Expected variable name."), pos)
  {
    if pos >= |ts| then Panic
    else if !ts[pos].kind.Identifier? then Fail(ts, pos, "Expected variable name.")
    else if pos + 1 >= |ts| then Panic
    else if ts[pos + 1].kind == Equal then
      match Expression(ts, pos + 2)
      case Done(init, at) =>
        Finish(Consume(ts, at, Semicolon, "Expected ';' after variable declaration."), Ast.Var(ts[pos], Some(init)))
      case Fault(e, at) => Fault(e, at)
      case Panic => Panic
    else
      Finish(Consume(ts, pos + 1, Semicolon, "Expected ';' after variable declaration."), Ast.Var(ts[pos], None))
  }

  /** `statement`. */
  function Statement(ts: seq<Token>, pos: nat): (r: Parsing<Ast.Stmt>)
    requires pos <= |ts|
    ensures Advanced(ts, pos, r)
    ensures r.Done? ==> ts[r.at - 1].kind == Semicolon
  {
    if pos >= |ts| then Panic
    else if ts[pos].kind == Print then PrintStatement(ts, pos)
    else ExpressionStatement(ts, pos)
  }

  /** `print_statement`: it consumes the `print` that `statement` has seen. */
  function PrintStatement(ts: seq<Token>, pos: nat): (r: Parsing<Ast.Stmt>)
    requires pos <= |ts|
    ensures Stayed(ts, pos, r)
    ensures pos < |ts| && ts[pos].kind == Print ==> Advanced(ts, pos, r)
    ensures r.Done? ==> r.value.Print? && 0 < r.at && ts[r.at - 1].kind == Semicolon
  {
    match Consume(ts, pos, Print, "Expected print")
    case Done(_, at) =>
      (match Expression(ts, at)
       case Done(e, end) => Finish(Consume(ts, end, Semicolon, "Expected ';' after value"), Ast.Print(e))
       case Fault(e, end) => Fault(e, end)
       case Panic => Panic)
    case Fault(e, at) => Fault(e, at)
    case Panic => Panic
  }

  /** `expression_statement`. */
  function ExpressionStatement(ts: seq<Token>, pos: nat): (r: Parsing<Ast.Stmt>)
    requires pos <= |ts|
    ensures Advanced(ts, pos, r)
    ensures r.Done? ==> r.value.Expression? && ts[r.at - 1].kind == Semicolon
  {
    match Expression(ts, pos)
    case Done(e, at) => Finish(Consume(ts, at, Semicolon, "Expected ';' after expression"), Ast.Expression(e))
    case Fault(e, at) => Fault(e, at)
    case Panic => Panic
  }

  /** The statements built and the errors met so far by `program`. */
  datatype Collected = Collected(statements: seq<Ast.Stmt>, errors: seq<Errors.Error>)

  /**
   * The loop of `program` from cursor `pos`, with `acc` collected so far: one
   * declaration per turn until EOF. A failed declaration adds its error and
   * the next one starts where it stopped; there is no synchronisation.
   * `None` is a panic.
   */
  function Program(ts: seq<Token>, pos: nat, acc: Collected): Option<Collected>
    requires pos <= |ts|
    decreases |ts| - pos
  {
    if pos >= |ts| then None
    else if ts[pos].kind == EOF then Some(acc)
    else match Declaration(ts, pos)
      case Done(s, at) => Program(ts, at, Collected(acc.statements + [s], acc.errors))
      case Fault(e, at) => Program(ts, at, Collected(acc.statements, acc.errors + [e]))
      case Panic => None
  }

  /** What `Parser::parse` returns, or that it panicked. */
  datatype Parsed = Accepted(statements: seq<Ast.Stmt>) | Rejected(errors: seq<Errors.Error>) | Panicked

  /** `Parser::parse`. */
  function Parse(ts: seq<Token>): Parsed {
    match Program(ts, 0, Collected([], []))
    case None => Panicked
    case Some(c) => if c.errors != [] then Rejected(c.errors) else Accepted(c.statements)
  }

  /**
   * The declarations `program` runs from `pos`, in order: each one starts
   * where the previous one stopped, until EOF. `None` when one of them, or a
   * check for EOF, panics.
   */
  function Attempts(ts: seq<Token>, pos: nat): (r: Option<seq<Parsing<Ast.Stmt>>>)
    requires pos <= |ts|
    ensures r.Some? ==> forall i :: 0 <= i < |r.value| ==> !r.value[i].Panic?
    decreases |ts| - pos
  {
    if pos >= |ts| then None
    else if ts[pos].kind == EOF then Some([])
    else
      var d := Declaration(ts, pos);
      if d.Panic? then None
      else match Attempts(ts, d.at)
        case None => None
        case Some(rest) => Some([d] + rest)
  }

  /** The statements of the successful declarations, in order. */
  function Built(a: seq<Parsing<Ast.Stmt>>): (b: seq<Ast.Stmt>)
    ensures |b| <= |a|
  {
    if a == [] then [] else (if a[0].Done? then [a[0].value] else []) + Built(a[1..])
  }

  /** The errors of the failed declarations, in order. */
  function Met(a: seq<Parsing<Ast.Stmt>>): (m: seq<Errors.Error>)
    ensures |m| <= |a|
    ensures m == [] <==> forall i :: 0 <= i < |a| ==> !a[i].Fault?
  {
    if a == [] then [] else (if a[0].Fault? then [a[0].error] else []) + Met(a[1..])
  }

  lemma CollectCons(acc: Collected, d: Parsing<Ast.Stmt>, rest: seq<Parsing<Ast.Stmt>>)
    requires !d.Panic?
    ensures var next := if d.Done? then Collected(acc.statements + [d.value], acc.errors)
                        else Collected(acc.statements, acc.errors + [d.error]);
      Collected(next.statements + Built(rest), next.errors + Met(rest))
        == Collected(acc.statements + Built([d] + rest), acc.errors + Met([d] + rest))
  {
    assert ([d] + rest)[0] == d && ([d] + rest)[1..] == rest;
    if d.Done? {
      assert acc.statements + [d.value] + Built(rest) == acc.statements + ([d.value] + Built(rest));
    } else {
      assert acc.errors + [d.error] + Met(rest) == acc.errors + ([d.error] + Met(rest));
    }
  }

  /** The loop of `program` collects exactly the outcomes of `Attempts`. */
  lemma {:induction false} ProgramCollects(ts: seq<Token>, pos: nat, acc: Collected)
    requires pos <= |ts|
    ensures Program(ts, pos, acc) == match Attempts(ts, pos)
      case None => None
      case Some(a) => Some(Collected(acc.statements + Built(a), acc.errors + Met(a)))
    decreases |ts| - pos
  {
    if pos >= |ts| {
    } else if ts[pos].kind == EOF {
      assert acc.statements + [] == acc.statements && acc.errors + [] == acc.errors;
    } else {
      var d := Declaration(ts, pos);
      if !d.Panic? {
        var next := if d.Done? then Collected(acc.statements + [d.value], acc.errors)
                    else Collected(acc.statements, acc.errors + [d.error]);
        ProgramCollects(ts, d.at, next);
        match Attempts(ts, d.at)
        case None =>
        case Some(rest) =>
          CollectCons(acc, d, rest);
      }
    }
  }

  /**
   * `parse` succeeds exactly when no declaration failed, and otherwise
   * returns every error, in the order the declarations met them.
   */
  lemma ParseReports(ts: seq<Token>)
    ensures Parse(ts).Panicked? <==> Attempts(ts, 0).None?
    ensures Attempts(ts, 0).Some? ==>
      var a := Attempts(ts, 0).value;
      ((forall i :: 0 <= i < |a| ==> !a[i].Fault?) ==> Parse(ts) == Accepted(Built(a))) &&
      ((exists i :: 0 <= i < |a| && a[i].Fault?) ==> Parse(ts) == Rejected(Met(a)))
  {
    ProgramCollects(ts, 0, Collected([], []));
    assert [] + Built([]) == [];
    match Attempts(ts, 0)
    case None =>
    case Some(a) =>
      assert [] + Built(a) == Built(a) && [] + Met(a) == Met(a);
  }

  /** A level starts with its operand, then runs its loop from where the operand stopped. */
  lemma OperationStart(ts: seq<Token>, pos: nat, level: nat)
    requires pos <= |ts| && 1 <= level <= 4
    ensures var o := Operand(ts, pos, level);
      o.Done? ==> Shaped(o.value, level) && Operation(ts, pos, level) == Fold(ts, o.at, level, o.value)
    ensures !Operand(ts, pos, level).Done? ==> Operation(ts, pos, level) == Forward(Operand(ts, pos, level))
  {
    var o := Operand(ts, pos, level);
    if o.Done? {
      ShapedWeaken(o.value, level - 1, level);
    }
  }

  /**
   * One turn of a fold loop on an operator of its level: the next operand is
   * folded in on the right and the loop goes on after it, or its failure is
   * the loop's.
   */
  lemma FoldTurn(ts: seq<Token>, pos: nat, level: nat, left: Ast.Expr, op: Ast.BinaryOp, right: Parsing<Ast.Expr>)
    requires pos < |ts| && 1 <= level <= 4 && Shaped(left, level) && Named(left)
    requires ts[pos].kind != EOF && OperatorAt(level, ts[pos].kind) == Some(op)
    requires right == Operand(ts, pos + 1, level)
    ensures right.Done? ==> pos < right.at <= |ts|
    ensures right.Done? ==> Shaped(Ast.Binary(left, op, right.value), level)
    ensures right.Done? ==> Named(Ast.Binary(left, op, right.value))
    ensures right.Done? ==> Fold(ts, pos, level, left) == Fold(ts, right.at, level, Ast.Binary(left, op, right.value))
    ensures !right.Done? ==> Fold(ts, pos, level, left) == Forward(right)
  {
  }

  /** A fold loop stops, unchanged, at a token that is not an operator of its level. */
  lemma FoldStops(ts: seq<Token>, pos: nat, level: nat, left: Ast.Expr)
    requires pos < |ts| && 1 <= level <= 4 && Shaped(left, level) && Named(left)
    requires OperatorAt(level, ts[pos].kind).None?
    ensures Fold(ts, pos, level, left) == Done(left, pos)
  {
  }

  /**
   * A level whose operand ends before a token that is not one of its
   * operators returns that operand as it is.
   */
  lemma LevelPassesThrough(ts: seq<Token>, pos: nat, level: nat)
    requires pos <= |ts| && 2 <= level <= 4
    requires Operation(ts, pos, level - 1).Done?
    requires Operation(ts, pos, level - 1).at < |ts|
    requires OperatorAt(level, ts[Operation(ts, pos, level - 1).at].kind).None?
    ensures Operation(ts, pos, level) == Operation(ts, pos, level - 1)
  {
    var r := Operation(ts, pos, level - 1);
    ShapedWeaken(r.value, level - 1, level);
    FoldStops(ts, r.at, level, r.value);
  }

  /**
   * A one-token primary (a literal or a variable) followed by no operator of
   * levels 1 to `level` is a whole operand there.
   */
  lemma {:induction false} SingleTokenOperand(ts: seq<Token>, pos: nat, level: nat)
    requires pos + 1 < |ts| && 1 <= level <= 4
    requires Primary(ts, pos).Done? && Primary(ts, pos).at == pos + 1
    requires Operator(ts[pos + 1].kind).None? || Level(Operator(ts[pos + 1].kind).value) > level
    ensures Operation(ts, pos, level) == Primary(ts, pos)
    decreases level
  {
    if level == 1 {
      assert Unary(ts, pos) == Primary(ts, pos);
      FoldStops(ts, pos + 1, 1, Primary(ts, pos).value);
    } else {
      SingleTokenOperand(ts, pos, level - 1);
      LevelPassesThrough(ts, pos, level);
    }
  }

  /** An error or a panic of `unary` comes out of every binary level unchanged. */
  lemma {:induction false} UnaryFailureRises(ts: seq<Token>, pos: nat, level: nat)
    requires pos <= |ts| && 1 <= level <= 4 && !Unary(ts, pos).Done?
    ensures Operation(ts, pos, level) == Unary(ts, pos)
    decreases level
  {
    if level > 1 {
      UnaryFailureRises(ts, pos, level - 1);
    }
  }

  /** An expression that ends before a token other than `=` is not an assignment. */
  lemma ExpressionOfOperation(ts: seq<Token>, pos: nat)
    requires pos <= |ts| && Operation(ts, pos, 4).Done?
    requires Operation(ts, pos, 4).at < |ts| && ts[Operation(ts, pos, 4).at].kind != Equal
    ensures Expression(ts, pos) == Operation(ts, pos, 4)
  {
  }

  /** A term that ends before a `;` is the whole expression. */
  lemma TermIsExpression(ts: seq<Token>, pos: nat)
    requires pos <= |ts| && Operation(ts, pos, 2).Done?
    requires Operation(ts, pos, 2).at < |ts| && ts[Operation(ts, pos, 2).at].kind == Semicolon
    ensures Expression(ts, pos) == Operation(ts, pos, 2)
  {
    LevelPassesThrough(ts, pos, 3);
    LevelPassesThrough(ts, pos, 4);
    ExpressionOfOperation(ts, pos);
  }

  /** A name is a variable expression on its own, to `primary` and to `unary`. */
  lemma VariableOperand(ts: seq<Token>, pos: nat)
    requires pos < |ts| && ts[pos].kind.Identifier?
    ensures Primary(ts, pos) == Done(Ast.Variable(ts[pos]), pos + 1)
    ensures Unary(ts, pos) == Done(Ast.Variable(ts[pos]), pos + 1)
  {
  }

  /** A fold loop that meets one operator of its level, then its operand, then stops. */
  lemma LastTurn(ts: seq<Token>, pos: nat, level: nat, l: Ast.Expr, op: Ast.BinaryOp, r: Ast.Expr, at: nat)
    requires pos < at < |ts| && 1 <= level <= 4 && Shaped(l, level) && Named(l)
    requires ts[pos].kind != EOF && OperatorAt(level, ts[pos].kind) == Some(op)
    requires Operand(ts, pos + 1, level) == Done(r, at) && OperatorAt(level, ts[at].kind).None?
    ensures Fold(ts, pos, level, l) == Done(Ast.Binary(l, op, r), at)
  {
    FoldTurn(ts, pos, level, l, op, Operand(ts, pos + 1, level));
    FoldStops(ts, at, level, Ast.Binary(l, op, r));
  }

  /** A level whose operand is followed by one operator of the level and a last operand. */
  lemma OneTurn(ts: seq<Token>, pos: nat, level: nat, l: Ast.Expr, op: Ast.BinaryOp, r: Ast.Expr, at: nat)
    requires pos + 2 < at < |ts| && 1 <= level <= 4
    requires Operand(ts, pos, level) == Done(l, pos + 1)
    requires ts[pos + 1].kind != EOF && OperatorAt(level, ts[pos + 1].kind) == Some(op)
    requires Operand(ts, pos + 2, level) == Done(r, at) && OperatorAt(level, ts[at].kind).None?
    ensures Operation(ts, pos, level) == Done(Ast.Binary(l, op, r), at)
  {
    OperationStart(ts, pos, level);
    LastTurn(ts, pos + 1, level, l, op, r, at);
  }

  /** A level whose operand is followed by two operators of the level, each with its operand. */
  lemma TwoTurns(ts: seq<Token>, level: nat, l: Ast.Expr, op1: Ast.BinaryOp, m: Ast.Expr, op2: Ast.BinaryOp, r: Ast.Expr)
    requires |ts| == 6 && 1 <= level <= 4
    requires Operand(ts, 0, level) == Done(l, 1)
    requires ts[1].kind != EOF && OperatorAt(level, ts[1].kind) == Some(op1)
    requires Operand(ts, 2, level) == Done(m, 3)
    requires ts[3].kind != EOF && OperatorAt(level, ts[3].kind) == Some(op2)
    requires Operand(ts, 4, level) == Done(r, 5) && OperatorAt(level, ts[5].kind).None?
    ensures Operation(ts, 0, level) == Done(Ast.Binary(Ast.Binary(l, op1, m), op2, r), 5)
  {
    OperationStart(ts, 0, level);
    FoldTurn(ts, 1, level, l, op1, Operand(ts, 2, level));
    LastTurn(ts, 3, level, Ast.Binary(l, op1, m), op2, r, 5);
  }

  /** `a - b - c` groups to the left: `(a - b) - c`. */
  lemma LeftAssociative(ts: seq<Token>)
    requires |ts| == 6 && ts[0].kind.Identifier? && ts[2].kind.Identifier? && ts[4].kind.Identifier?
    requires ts[1].kind == Minus && ts[3].kind == Minus && ts[5].kind == Semicolon
    ensures Expression(ts, 0)
         == Done(Ast.Binary(Ast.Binary(Ast.Variable(ts[0]), Ast.Minus, Ast.Variable(ts[2])), Ast.Minus, Ast.Variable(ts[4])), 5)
  {
    SingleTokenOperand(ts, 0, 1);
    SingleTokenOperand(ts, 2, 1);
    SingleTokenOperand(ts, 4, 1);
    TwoTurns(ts, 2, Ast.Variable(ts[0]), Ast.Minus, Ast.Variable(ts[2]), Ast.Minus, Ast.Variable(ts[4]));
    TermIsExpression(ts, 0);
  }

  /** `a + b * c` binds `*` tighter: `a + (b * c)`. */
  lemma FactorBindsTighter(ts: seq<Token>)
    requires |ts| == 6 && ts[0].kind.Identifier? && ts[2].kind.Identifier? && ts[4].kind.Identifier?
    requires ts[1].kind == Plus && ts[3].kind == Star && ts[5].kind == Semicolon
    ensures Expression(ts, 0)
         == Done(Ast.Binary(Ast.Variable(ts[0]), Ast.Plus, Ast.Binary(Ast.Variable(ts[2]), Ast.Star, Ast.Variable(ts[4]))), 5)
  {
    VariableOperand(ts, 2);
    VariableOperand(ts, 4);
    SingleTokenOperand(ts, 0, 1);
    OneTurn(ts, 2, 1, Ast.Variable(ts[2]), Ast.Star, Ast.Variable(ts[4]), 5);
    OneTurn(ts, 0, 2, Ast.Variable(ts[0]), Ast.Plus, Ast.Binary(Ast.Variable(ts[2]), Ast.Star, Ast.Variable(ts[4])), 5);
    TermIsExpression(ts, 0);
  }

  /**
   * `primary` on a token that starts no expression reports "Expected
   * expression" on the line of the token after it, and panics when there is
   * none (the offending token was the last, typically EOF).
   */
  lemma ExpectedExpression(ts: seq<Token>, pos: nat)
    requires pos < |ts|
    requires var k := ts[pos].kind;
      !(k.Number? || k.String? || k.True? || k.False? || k.Nil? || k.Identifier? || k.LeftParen?)
    ensures pos + 1 < |ts| ==> Primary(ts, pos) == Fault(Errors.Parser(ts[pos + 1].line, "Expected expression"), pos + 1)
    ensures pos + 1 == |ts| ==> Primary(ts, pos) == Panic
  {
  }

  /**
   * An assignment to something other than a variable is reported after its
   * right-hand side, on the line of the token that follows it.
   */
  lemma InvalidAssignmentTarget(ts: seq<Token>, pos: nat)
    requires pos <= |ts|
    requires var t := Operation(ts, pos, 4);
      t.Done? && !t.value.Variable? && t.at < |ts| && ts[t.at].kind == Equal
    requires var v := Assignment(ts, Operation(ts, pos, 4).at + 1);
      v.Done? && v.at < |ts|
    ensures var end := Assignment(ts, Operation(ts, pos, 4).at + 1).at;
      Assignment(ts, pos) == Fault(Errors.Parser(ts[end].line, "Invalid assignment target."), end)
  {
  }

  /**
   * `1 = 2;` then EOF: the invalid target is reported on the line of `;`.
   * Nothing resynchronises, so the next declaration starts at that `;` and
   * fails again, on the line of EOF; both errors are returned, in order.
   */
  lemma NoSynchronisation(one: Token, eq: Token, two: Token, semi: Token, end: Token)
    requires one.kind.Number? && eq.kind == Equal && two.kind.Number?
    requires semi.kind == Semicolon && end.kind == EOF
    ensures Parse([one, eq, two, semi, end]) == Rejected([
      Errors.Parser(semi.line, "Invalid assignment target."),
      Errors.Parser(end.line, "Expected expression")])
  {
    var ts := [one, eq, two, semi, end];
    var first := Errors.Parser(semi.line, "Invalid assignment target.");
    var second := Errors.Parser(end.line, "Expected expression");
    assert Declaration(ts, 0) == Fault(first, 3) by {
      assert Primary(ts, 0) == Done(Ast.Literal(Ast.Number(one.kind.value)), 1);
      SingleTokenOperand(ts, 0, 4);
      assert Primary(ts, 2) == Done(Ast.Literal(Ast.Number(two.kind.value)), 3);
      SingleTokenOperand(ts, 2, 4);
      assert Assignment(ts, 2) == Done(Ast.Literal(Ast.Number(two.kind.value)), 3);
      assert Expression(ts, 0) == Fault(first, 3);
    }
    assert Declaration(ts, 3) == Fault(second, 4) by {
      assert Unary(ts, 3) == Fault(second, 4);
      UnaryFailureRises(ts, 3, 4);
      assert Expression(ts, 3) == Fault(second, 4);
    }
    assert [first] + [second] == [first, second];
    assert Program(ts, 4, Collected([], [first, second])) == Some(Collected([], [first, second]));
    assert Program(ts, 3, Collected([], [first])) == Some(Collected([], [first, second]));
    assert [] + [first] == [first];
    assert Program(ts, 0, Collected([], [])) == Some(Collected([], [first, second]));
  }

  /**
   * `print` then EOF: `primary` consumes the EOF token and `err` then reads
   * past the end of the list, so `parse` panics instead of reporting.
   */
  lemma PrintAtEndPanics(keyword: Token, end: Token)
    requires keyword.kind == Print && end.kind == EOF
    ensures Parse([keyword, end]) == Panicked
  {
    var ts := [keyword, end];
    assert Unary(ts, 1) == Panic;
    UnaryFailureRises(ts, 1, 4);
    assert Expression(ts, 1) == Panic;
    assert Declaration(ts, 0) == Panic;
  }

  /** An expression of one literal or variable ends at the `;` after it. */
  lemma SingleTokenExpression(ts: seq<Token>, pos: nat)
    requires pos + 1 < |ts| && ts[pos + 1].kind == Semicolon
    requires Primary(ts, pos).Done? && Primary(ts, pos).at == pos + 1
    ensures Expression(ts, pos) == Primary(ts, pos)
  {
    SingleTokenOperand(ts, pos, 4);
    ExpressionOfOperation(ts, pos);
  }

  /** `var x = 1;` at `pos`. */
  lemma DeclaredWithNumber(ts: seq<Token>, pos: nat)
    requires pos + 4 < |ts| && ts[pos].kind == Var && ts[pos + 1].kind.Identifier? && ts[pos + 2].kind == Equal
    requires ts[pos + 3].kind.Number? && ts[pos + 4].kind == Semicolon
    ensures Declaration(ts, pos) == Done(Ast.Var(ts[pos + 1], Some(Ast.Literal(Ast.Number(ts[pos + 3].kind.value)))), pos + 5)
  {
    assert Primary(ts, pos + 3) == Done(Ast.Literal(Ast.Number(ts[pos + 3].kind.value)), pos + 4);
    SingleTokenExpression(ts, pos + 3);
  }

  /** `print x;` at `pos`. */
  lemma PrintedVariable(ts: seq<Token>, pos: nat)
    requires pos + 2 < |ts| && ts[pos].kind == Print && ts[pos + 1].kind.Identifier? && ts[pos + 2].kind == Semicolon
    ensures Declaration(ts, pos) == Done(Ast.Print(Ast.Variable(ts[pos + 1])), pos + 3)
  {
    assert Primary(ts, pos + 1) == Done(Ast.Variable(ts[pos + 1]), pos + 2);
    SingleTokenExpression(ts, pos + 1);
  }

  /** A turn of `program` on a declaration that parses. */
  lemma ProgramBuilds(ts: seq<Token>, pos: nat, acc: Collected, s: Ast.Stmt, at: nat)
    requires pos < |ts| && ts[pos].kind != EOF && Declaration(ts, pos) == Done(s, at)
    ensures Program(ts, pos, acc) == Program(ts, at, Collected(acc.statements + [s], acc.errors))
  {
  }

  /** `var x = 1; print x;` then EOF: two statements and no error. */
  lemma DeclareThenPrint(
    keyword: Token, x: Token, eq: Token, one: Token, semi: Token,
    printing: Token, y: Token, semi2: Token, end: Token)
    requires keyword.kind == Var && x.kind.Identifier? && eq.kind == Equal && one.kind.Number?
    requires semi.kind == Semicolon && printing.kind == Print && y.kind.Identifier?
    requires semi2.kind == Semicolon && end.kind == EOF
    ensures Parse([keyword, x, eq, one, semi, printing, y, semi2, end]) == Accepted([
      Ast.Var(x, Some(Ast.Literal(Ast.Number(one.kind.value)))),
      Ast.Print(Ast.Variable(y))])
  {
    var ts := [keyword, x, eq, one, semi, printing, y, semi2, end];
    var s1 := Ast.Var(x, Some(Ast.Literal(Ast.Number(one.kind.value))));
    var s2 := Ast.Print(Ast.Variable(y));
    DeclaredWithNumber(ts, 0);
    PrintedVariable(ts, 5);
    ProgramBuilds(ts, 0, Collected([], []), s1, 5);
    ProgramBuilds(ts, 5, Collected([s1], []), s2, 8);
    assert [] + [s1] == [s1] && [s1] + [s2] == [s1, s2];
    assert Program(ts, 8, Collected([s1, s2], [])) == Some(Collected([s1, s2], []));
  }
}
