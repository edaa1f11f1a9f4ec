/**
 * The evaluator of the newer front end (rlox/src/interpreter.rs): the `!`
 * and unary `-` of values, and the `Interpret` visitor over expressions.
 *
 * Arithmetic and comparison of numbers come from a `FloatOps` record. A pair
 * of operands the evaluator has no case for reaches `unimplemented!()`, a
 * panic, shown here as `Unimplemented`. `Interpret` implements handlers for
 * binary, unary, grouping and literal expressions only; a variable or an
 * assignment has no handler, shown as `NoHandler`.
 */
module Interpreter {
  import opened Float32
  import opened Objects
  import Ast

  datatype Evaluation = Value(obj: Object) | Unimplemented | NoHandler

  /** `impl Not for Object`: emptiness-based, so `!0` and `!""` are true. */
  function Not(o: Object): (r: Object)
    ensures r == True || r == False
    ensures r == True <==>
      o == False || o == Nil || (o.Number? && IsZero(o.value)) || (o.String? && |o.text| == 0)
  {
    match o
    case True => False
    case False => True
    case Nil => True
    case Number(x) => if IsZero(x) then True else False
    case String(s) => if |s| == 0 then True else False
  }

  /**
   * `!` agrees with truthiness on `true`, `false` and `nil`, and disagrees
   * with it on `0`, `-0` and `""`, which are truthy yet negate to `true`.
   */
  lemma NotVersusTruthiness(o: Object)
    ensures o == True || o == False || o == Nil ==> Not(o) == FromBool(!IsTruthy(o))
    ensures Not(Number(F32(0))) == True && IsTruthy(Number(F32(0)))
    ensures Not(Number(MinusZero)) == True && IsTruthy(Number(MinusZero))
    ensures Not(String("")) == True && IsTruthy(String(""))
    ensures o == True || o == False ==> Not(Not(o)) == o
  {
  }

  /** `impl Neg for Object`: always a number. */
  function Neg(o: Object): (r: Object)
    ensures r.Number?
    ensures o.Number? ==> r.value == Float32.Neg(o.value)
  {
    match o
    case Number(x) => Number(Float32.Neg(x))
    case True => Number(MinusOne)
    case False => Number(MinusZero)
    case Nil => Number(NaN)
    case String(_) => Number(NaN)
  }

  /**
   * Negating twice gives a number back unchanged, and turns `true` into
   * `1.0`, `false` into `+0.0`, and `nil` or any string into a NaN with its
   * sign bit set.
   */
  lemma NegTwice(o: Object)
    ensures o.Number? ==> Neg(Neg(o)) == o
    ensures o == True ==> Neg(Neg(o)) == Number(F32(0x3F80_0000))
    ensures o == False ==> Neg(Neg(o)) == Number(F32(0))
    ensures o.Nil? || o.String? ==> Neg(Neg(o)) == Number(F32(0xFFC0_0000))
  {
    if o.Number? {
      NegInvolution(o.value);
    }
  }

  /**
   * The operator dispatch of `visit_binary` on two evaluated operands: `+`
   * adds two numbers or concatenates two strings, the other arithmetic
   * operators take numbers only, and the six comparisons take numbers only.
   */
  function ApplyBinary(op: Ast.BinaryOp, left: Object, right: Object, ops: FloatOps): (r: Evaluation)
    ensures !r.NoHandler?
    ensures r.Value? <==> (left.Number? && right.Number?) || (op == Ast.Plus && left.String? && right.String?)
    ensures op == Ast.Plus && left.String? && right.String? ==> r == Value(String(left.text + right.text))
    ensures r.Value? && op in {Ast.Plus, Ast.Minus, Ast.Star, Ast.Slash} && left.Number? ==> r.obj.Number?
    ensures r.Value? && op !in {Ast.Plus, Ast.Minus, Ast.Star, Ast.Slash} ==> r.obj == True || r.obj == False
  {
    match op
    case Plus =>
      if left.Number? && right.Number? then Value(Number(ops.add(left.value, right.value)))
      else if left.String? && right.String? then Value(String(left.text + right.text))
      else Unimplemented
    case Minus => if left.Number? && right.Number? then Value(Number(ops.sub(left.value, right.value))) else Unimplemented
    case Star => if left.Number? && right.Number? then Value(Number(ops.mul(left.value, right.value))) else Unimplemented
    case Slash => if left.Number? && right.Number? then Value(Number(ops.div(left.value, right.value))) else Unimplemented
    case Equal => if left.Number? && right.Number? then Value(FromBool(ops.eq(left.value, right.value))) else Unimplemented
    case NotEqual => if left.Number? && right.Number? then Value(FromBool(ops.ne(left.value, right.value))) else Unimplemented
    case Greater => if left.Number? && right.Number? then Value(FromBool(ops.gt(left.value, right.value))) else Unimplemented
    case GreaterEqual => if left.Number? && right.Number? then Value(FromBool(ops.ge(left.value, right.value))) else Unimplemented
    case Less => if left.Number? && right.Number? then Value(FromBool(ops.lt(left.value, right.value))) else Unimplemented
    case LessEqual => if left.Number? && right.Number? then Value(FromBool(ops.le(left.value, right.value))) else Unimplemented
  }

  /** A comparison of two numbers is truthy exactly when the IEEE relation holds. */
  lemma ComparisonTruth(a: F32, b: F32, ops: FloatOps)
    ensures IsTruthy(ApplyBinary(Ast.Less, Number(a), Number(b), ops).obj) == ops.lt(a, b)
    ensures IsTruthy(ApplyBinary(Ast.LessEqual, Number(a), Number(b), ops).obj) == ops.le(a, b)
    ensures IsTruthy(ApplyBinary(Ast.Greater, Number(a), Number(b), ops).obj) == ops.gt(a, b)
    ensures IsTruthy(ApplyBinary(Ast.GreaterEqual, Number(a), Number(b), ops).obj) == ops.ge(a, b)
    ensures IsTruthy(ApplyBinary(Ast.Equal, Number(a), Number(b), ops).obj) == ops.eq(a, b)
    ensures IsTruthy(ApplyBinary(Ast.NotEqual, Number(a), Number(b), ops).obj) == ops.ne(a, b)
  {
  }

  /** `Interpret::evaluate`: `accept`, routed by the kind of node. */
  function Evaluate(e: Ast.Expr, ops: FloatOps): (r: Evaluation)
    ensures Closed(e) ==> !r.NoHandler?
    decreases Ast.Size(e), 1
  {
    match e
    case Binary(left, op, right) => VisitBinary(left, op, right, ops)
    case Unary(op, operand) => VisitUnary(op, operand, ops)
    case Grouping(inner) => VisitGrouping(inner, ops)
    case Literal(value) => VisitLiteral(value)
    case Variable(_) => NoHandler
    case Assign(_, _) => NoHandler
  }

  /** An expression without variables or assignments, which `Interpret` can handle throughout. */
  predicate Closed(e: Ast.Expr) {
    match e
    case Binary(left, _, right) => Closed(left) && Closed(right)
    case Unary(_, operand) => Closed(operand)
    case Grouping(inner) => Closed(inner)
    case Literal(_) => true
    case Variable(_) => false
    case Assign(_, _) => false
  }

  /** `visit_binary`: the left operand, then the right one, then the operator. */
  function VisitBinary(left: Ast.Expr, op: Ast.BinaryOp, right: Ast.Expr, ops: FloatOps): (r: Evaluation)
    ensures Closed(left) && Closed(right) ==> !r.NoHandler?
    decreases Ast.Size(left) + Ast.Size(right) + 1, 0
  {
    match Evaluate(left, ops)
    case Value(l) =>
      (match Evaluate(right, ops)
       case Value(r) => ApplyBinary(op, l, r, ops)
       case failed => failed)
    case failed => failed
  }

  /** `visit_unary`: the operand, then `!` or `-`. */
  function VisitUnary(op: Ast.UnaryOp, operand: Ast.Expr, ops: FloatOps): (r: Evaluation)
    ensures Closed(operand) ==> !r.NoHandler?
    ensures r.Value? && op == Ast.Not ==> r.obj == True || r.obj == False
    ensures r.Value? && op == Ast.Neg ==> r.obj.Number?
    decreases Ast.Size(operand) + 1, 0
  {
    match Evaluate(operand, ops)
    case Value(o) => Value(if op == Ast.Not then Not(o) else Neg(o))
    case failed => failed
  }

  /** `visit_grouping`. */
  function VisitGrouping(inner: Ast.Expr, ops: FloatOps): (r: Evaluation)
    ensures Closed(inner) ==> !r.NoHandler?
    decreases Ast.Size(inner) + 1, 0
  {
    Evaluate(inner, ops)
  }

  /** `visit_literal`. */
  function VisitLiteral(value: Ast.LiteralValue): (r: Evaluation)
    ensures r.Value? && ToLiteral(r.obj) == value
  {
    Value(FromLiteral(value))
  }

  /** The interpreter as an `ExprVisitor`, one handler per `visit_` method. */
  function Interpret(ops: FloatOps): Ast.ExprVisitor<Evaluation> {
    Ast.ExprVisitor(
      (l, op, r) => VisitBinary(l, op, r, ops),
      (op, x) => VisitUnary(op, x, ops),
      x => VisitGrouping(x, ops),
      v => VisitLiteral(v),
      _ => NoHandler,
      (_, _) => NoHandler)
  }

  /** Evaluating is `accept` with the interpreter as visitor. */
  lemma EvaluateIsAccept(e: Ast.Expr, ops: FloatOps)
    ensures Evaluate(e, ops) == Ast.Accept(e, Interpret(ops))
  {
  }

  /**
   * The left operand is evaluated first: if it fails, the right operand
   * does not matter, even one with no handler; only when it yields a value
   * does the right one's failure show.
   */
  lemma LeftBeforeRight(left: Ast.Expr, op: Ast.BinaryOp, right: Ast.Expr, ops: FloatOps)
    ensures !Evaluate(left, ops).Value? ==> Evaluate(Ast.Binary(left, op, right), ops) == Evaluate(left, ops)
    ensures Evaluate(left, ops).Value? && !Evaluate(right, ops).Value? ==>
      Evaluate(Ast.Binary(left, op, right), ops) == Evaluate(right, ops)
    ensures Evaluate(left, ops).Value? && Evaluate(right, ops).Value? ==>
      Evaluate(Ast.Binary(left, op, right), ops) ==
      ApplyBinary(op, Evaluate(left, ops).obj, Evaluate(right, ops).obj, ops)
  {
    assert Evaluate(Ast.Binary(left, op, right), ops) == VisitBinary(left, op, right, ops);
  }

  /** Parentheses change nothing, and a literal evaluates to its own value. */
  lemma Transparent(e: Ast.Expr, v: Ast.LiteralValue, ops: FloatOps)
    ensures Evaluate(Ast.Grouping(e), ops) == Evaluate(e, ops)
    ensures Evaluate(Ast.Literal(v), ops) == Value(FromLiteral(v))
  {
  }

  /** `"a" + "b"` is `"ab"`, while `"a" == "a"` and `nil == nil` panic. */
  lemma StringsConcatenateButDoNotCompare(s: string, t: string, ops: FloatOps)
    ensures Evaluate(Ast.Binary(Ast.Literal(Ast.String(s)), Ast.Plus, Ast.Literal(Ast.String(t))), ops)
         == Value(String(s + t))
    ensures Evaluate(Ast.Binary(Ast.Literal(Ast.String(s)), Ast.Equal, Ast.Literal(Ast.String(s))), ops)
         == Unimplemented
    ensures Evaluate(Ast.Binary(Ast.Literal(Ast.Nil), Ast.Equal, Ast.Literal(Ast.Nil)), ops) == Unimplemented
  {
    assert Evaluate(Ast.Literal(Ast.String(s)), ops) == Value(String(s));
    assert Evaluate(Ast.Literal(Ast.String(t)), ops) == Value(String(t));
  }
}
