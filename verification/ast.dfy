/**
 * The syntax trees of the newer front end (rlox/src/ast.rs), in the shapes
 * the newer parser builds: variables and assignment targets are tokens, and
 * there is an assignment node.
 */
module Ast {
  import opened Wrappers
  import opened Float32
  import Tokens

  datatype BinaryOp =
    | Plus | Minus | Slash | Star
    | Equal | NotEqual | Greater | GreaterEqual | Less | LessEqual

  datatype UnaryOp = Not | Neg

  datatype LiteralValue = Number(value: F32) | String(text: string) | True | False | Nil

  datatype Expr =
    | Binary(left: Expr, op: BinaryOp, right: Expr)
    | Unary(uop: UnaryOp, operand: Expr)
    | Grouping(inner: Expr)
    | Literal(literal: LiteralValue)
    | Variable(name: Tokens.Token)
    | Assign(target: Tokens.Token, value: Expr)

  datatype Stmt =
    | Expression(expr: Expr)
    | Print(printed: Expr)
    | Var(declared: Tokens.Token, initializer: Option<Expr>)

  const BinaryOps: set<BinaryOp> :=
    {Plus, Minus, Slash, Star, Equal, NotEqual, Greater, GreaterEqual, Less, LessEqual}

  const UnaryOps: set<UnaryOp> := {Not, Neg}

  /** The operator sets are closed: ten binary and two unary operators. */
  lemma OperatorCounts()
    ensures forall op: BinaryOp :: op in BinaryOps
    ensures forall op: UnaryOp :: op in UnaryOps
    ensures |BinaryOps| == 10 && |UnaryOps| == 2
  {
    forall op: BinaryOp ensures op in BinaryOps {
      match op
      case Plus => case Minus => case Slash => case Star => case Equal =>
      case NotEqual => case Greater => case GreaterEqual => case Less => case LessEqual =>
    }
    forall op: UnaryOp ensures op in UnaryOps {
      match op
      case Not => case Neg =>
    }
    assert BinaryOps == {Plus, Minus, Slash, Star, Equal} + {NotEqual, Greater, GreaterEqual, Less, LessEqual};
  }

  /**
   * `ExprVisitor<T>`: one handler per kind of expression. The handlers are
   * total functions because every visitor of the front end is.
   */
  datatype ExprVisitor<T> = ExprVisitor(
    binary: (Expr, BinaryOp, Expr) -> T,
    unary: (UnaryOp, Expr) -> T,
    grouping: Expr -> T,
    literal: LiteralValue -> T,
    variable: Tokens.Token -> T,
    assign: (Tokens.Token, Expr) -> T)

  /** `Expr::accept`: hands the node's fields to the handler of its kind. */
  function Accept<T>(e: Expr, v: ExprVisitor<T>): T {
    match e
    case Binary(left, op, right) => v.binary(left, op, right)
    case Unary(op, operand) => v.unary(op, operand)
    case Grouping(inner) => v.grouping(inner)
    case Literal(value) => v.literal(value)
    case Variable(name) => v.variable(name)
    case Assign(target, value) => v.assign(target, value)
  }

  /** Two visitors share the handler that `e`'s kind is routed to. */
  ghost predicate SameExprHandler<T>(e: Expr, v: ExprVisitor<T>, w: ExprVisitor<T>) {
    match e
    case Binary(_, _, _) => v.binary == w.binary
    case Unary(_, _) => v.unary == w.unary
    case Grouping(_) => v.grouping == w.grouping
    case Literal(_) => v.literal == w.literal
    case Variable(_) => v.variable == w.variable
    case Assign(_, _) => v.assign == w.assign
  }

  /** The visitor that puts every node back together from its fields. */
  function Rebuilder(): ExprVisitor<Expr> {
    ExprVisitor(
      (l, op, r) => Binary(l, op, r), (op, x) => Unary(op, x), x => Grouping(x),
      x => Literal(x), t => Variable(t), (t, x) => Assign(t, x))
  }

  /**
   * `accept` consults exactly one handler (the others may be anything) and
   * passes it the node's own fields unchanged.
   */
  lemma AcceptRoutes<T>(e: Expr, v: ExprVisitor<T>, w: ExprVisitor<T>)
    ensures SameExprHandler(e, v, w) ==> Accept(e, v) == Accept(e, w)
    ensures Accept(e, Rebuilder()) == e
  {
  }

  /** `StmtVisitor<T>`. */
  datatype StmtVisitor<T> = StmtVisitor(
    expression: Expr -> T,
    printing: Expr -> T,
    variable: (Tokens.Token, Option<Expr>) -> T)

  /** `Stmt::accept`. */
  function AcceptStmt<T>(s: Stmt, v: StmtVisitor<T>): T {
    match s
    case Expression(e) => v.expression(e)
    case Print(e) => v.printing(e)
    case Var(name, init) => v.variable(name, init)
  }

  ghost predicate SameStmtHandler<T>(s: Stmt, v: StmtVisitor<T>, w: StmtVisitor<T>) {
    match s
    case Expression(_) => v.expression == w.expression
    case Print(_) => v.printing == w.printing
    case Var(_, _) => v.variable == w.variable
  }

  function StmtRebuilder(): StmtVisitor<Stmt> {
    StmtVisitor(e => Expression(e), e => Print(e), (t, i) => Var(t, i))
  }

  /** `Stmt::accept` consults exactly one handler and passes the fields unchanged. */
  lemma AcceptStmtRoutes<T>(s: Stmt, v: StmtVisitor<T>, w: StmtVisitor<T>)
    ensures SameStmtHandler(s, v, w) ==> AcceptStmt(s, v) == AcceptStmt(s, w)
    ensures AcceptStmt(s, StmtRebuilder()) == s
  {
  }

  /**
   * The number of nodes of a tree. Trees are finite (inductive), so this and
   * every other structural recursion over them terminates.
   */
  function Size(e: Expr): (n: nat)
    ensures n >= 1
    ensures e.Binary? ==> n > Size(e.left) + Size(e.right)
    ensures e.Unary? ==> n > Size(e.operand)
    ensures e.Grouping? ==> n > Size(e.inner)
    ensures e.Assign? ==> n > Size(e.value)
  {
    match e
    case Binary(l, _, r) => 1 + Size(l) + Size(r)
    case Unary(_, x) => 1 + Size(x)
    case Grouping(x) => 1 + Size(x)
    case Assign(_, x) => 1 + Size(x)
    case _ => 1
  }
}
