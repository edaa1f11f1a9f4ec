/**
 * The trees and errors of the older, expression-only parser (src/parser.rs),
 * which has its own operator, value and expression types.
 */
module ExprTree {
  import opened Wrappers
  import opened Float32
  import Errors
  import Tokenizer

  datatype BinaryOp =
    | Plus | Minus | Slash | Star
    | Equal | NotEqual | Greater | GreaterEqual | Less | LessEqual

  datatype UnaryOp = Not | Minus

  datatype Value = Number(value: F32) | String(text: string) | True | False | Nil

  datatype Expr =
    | Binary(left: Expr, op: BinaryOp, right: Expr)
    | Grouping(inner: Expr)
    | Literator(literal: Value)
    | Unary(uop: UnaryOp, operand: Expr)

  /** `ParseError`: the offending token, with a fixed message. */
  datatype ParseError =
    | UnexpectedToken(token: Tokenizer.BareToken, msg: string)
    | ExpectedExpression(token: Tokenizer.BareToken)

  function Message(e: ParseError): string {
    match e
    case UnexpectedToken(_, msg) => msg
    case ExpectedExpression(_) => "Expected expression"
  }

  /** `impl Display for ParseError`: `[line: N] <message>`. */
  function Display(e: ParseError): (s: string)
    ensures |s| > 7 && s[..7] == "[line: "
  {
    "[line: " + Errors.NatToString(e.token.line) + "] " + Message(e)
  }

  /**
   * A parse error is laid out exactly as a scanner error of the same crate,
   * so the line and the message can be read back from the text.
   */
  lemma DisplayLikeScannerError(e: ParseError)
    ensures Display(e) == Tokenizer.Display(Tokenizer.ScannerError(Message(e), e.token.line))
    ensures Tokenizer.Decode(Display(e)) == Some(Tokenizer.ScannerError(Message(e), e.token.line))
  {
    Tokenizer.DecodeDisplay(Tokenizer.ScannerError(Message(e), e.token.line));
  }

  /** `ExpectedExpression` renders with the message "Expected expression". */
  lemma ExpectedExpressionDisplay(t: Tokenizer.BareToken)
    ensures Display(ExpectedExpression(t)) == "[line: " + Errors.NatToString(t.line) + "] Expected expression"
  {
  }
}

/**
 * The older parser (src/parser.rs) as a reference grammar over the older
 * scanner's tokens. Its folding loops have no `break`: on a token that is
 * neither EOF nor an operator of their level they repeat forever without
 * changing anything. That outcome is `Spins`; reading past the end of the
 * token list is `Panic`.
 */
module ExprGrammar {
  import opened Wrappers
  import opened Tokens
  import Tokenizer

  type BareToken = Tokenizer.BareToken
  import ExprTree

  /** What a routine leaves behind. Errors end the whole parse, so they carry no cursor. */
  datatype Step<+T> =
    | Done(value: T, at: nat)
    | Fault(error: ExprTree.ParseError)
    | Spins
    | Panic

  predicate Advanced<T>(ts: seq<BareToken>, pos: nat, r: Step<T>) {
    r.Done? ==> pos < r.at <= |ts|
  }

  /** A routine that succeeded stopped on an EOF token. */
  predicate AtEnd<T>(ts: seq<BareToken>, r: Step<T>) {
    r.Done? ==> r.at < |ts| && ts[r.at].kind == EOF
  }

  function Forward<T, U>(r: Step<T>): (f: Step<U>)
    requires !r.Done?
    ensures f.Fault? == r.Fault? && f.Spins? == r.Spins? && (r.Fault? ==> f.error == r.error)
  {
    match r
    case Fault(e) => Fault(e)
    case Spins => Spins
    case Panic => Panic
  }

  /** `consume`. */
  function Consume(ts: seq<BareToken>, pos: nat, kind: TokenKind, msg: string): (r: Step<BareToken>)
    ensures r.Done? ==> pos < |ts| && ts[pos].kind == kind && r == Done(ts[pos], pos + 1)
  {
    if pos >= |ts| then Panic
    else if ts[pos].kind == kind then Done(ts[pos], pos + 1)
    else Fault(ExprTree.UnexpectedToken(ts[pos], msg))
  }

  /** The operator the loop of level `level` (1 `factor` to 4 `equality`) folds on `kind`. */
  function OperatorAt(level: nat, kind: TokenKind): Option<ExprTree.BinaryOp> {
    match kind
    case Slash => if level == 1 then Some(ExprTree.Slash) else None
    case Star => if level == 1 then Some(ExprTree.Star) else None
    case Plus => if level == 2 then Some(ExprTree.Plus) else None
    case Minus => if level == 2 then Some(ExprTree.BinaryOp.Minus) else None
    case Less => if level == 3 then Some(ExprTree.Less) else None
    case LessEqual => if level == 3 then Some(ExprTree.LessEqual) else None
    case Greater => if level == 3 then Some(ExprTree.Greater) else None
    case GreaterEqual => if level == 3 then Some(ExprTree.GreaterEqual) else None
    case BangEqual => if level == 4 then Some(ExprTree.NotEqual) else None
    case EqualEqual => if level == 4 then Some(ExprTree.Equal) else None
    case _ => None
  }

  /** `expression`, which is `equality`. */
  function Expression(ts: seq<BareToken>, pos: nat): (r: Step<ExprTree.Expr>)
    requires pos <= |ts|
    ensures Advanced(ts, pos, r) && AtEnd(ts, r)
    decreases |ts| - pos, 11
  {
    Operation(ts, pos, 4)
  }

  /** `factor`, `term`, `comparison` and `equality`: an operand, then the level's loop. */
  function Operation(ts: seq<BareToken>, pos: nat, level: nat): (r: Step<ExprTree.Expr>)
    requires pos <= |ts| && 1 <= level <= 4
    ensures Advanced(ts, pos, r) && AtEnd(ts, r)
    decreases |ts| - pos, 2 * level + 2
  {
    match Operand(ts, pos, level)
    case Done(first, at) => Fold(ts, at, level, first)
    case Fault(e) => Fault(e)
    case Spins => Spins
    case Panic => Panic
  }

  function Operand(ts: seq<BareToken>, pos: nat, level: nat): (r: Step<ExprTree.Expr>)
    requires pos <= |ts| && 1 <= level <= 4
    ensures Advanced(ts, pos, r)
    ensures level > 1 ==> AtEnd(ts, r)
    decreases |ts| - pos, 2 * level + 1
  {
    if level == 1 then Unary(ts, pos) else Operation(ts, pos, level - 1)
  }

  /**
   * The `while !self.is_at_end()` loop of a level: it leaves only at EOF. An
   * operator of the level folds the next operand in; any other token is
   * looked at again and again, forever.
   */
  function Fold(ts: seq<BareToken>, pos: nat, level: nat, left: ExprTree.Expr): (r: Step<ExprTree.Expr>)
    requires pos <= |ts| && 1 <= level <= 4
    ensures r.Done? ==> pos <= r.at <= |ts|
    ensures AtEnd(ts, r)
    ensures pos < |ts| && ts[pos].kind != EOF && OperatorAt(level, ts[pos].kind).None? ==> r == Spins
    decreases |ts| - pos, 0
  {
    if pos >= |ts| then Panic
    else if ts[pos].kind == EOF then Done(left, pos)
    else match OperatorAt(level, ts[pos].kind)
      case None => Spins
      case Some(op) =>
        match Operand(ts, pos + 1, level)
        case Done(right, at) => Fold(ts, at, level, ExprTree.Binary(left, op, right))
        case Fault(e) => Fault(e)
        case Spins => Spins
        case Panic => Panic
  }

  /** The prefix operator `unary` reads on `kind`: `!` and `-`. */
  function Prefix(kind: TokenKind): Option<ExprTree.UnaryOp> {
    match kind
    case Bang => Some(ExprTree.Not)
    case Minus => Some(ExprTree.UnaryOp.Minus)
    case _ => None
  }

  /** `unary`: right-recursive `!` and `-`, then `primary`. */
  function Unary(ts: seq<BareToken>, pos: nat): (r: Step<ExprTree.Expr>)
    requires pos <= |ts|
    ensures Advanced(ts, pos, r)
    decreases |ts| - pos, 2
  {
    if pos >= |ts| then Panic
    else
      match Prefix(ts[pos].kind)
      case Some(op) =>
        (match Unary(ts, pos + 1)
         case Done(operand, at) => Done(ExprTree.Unary(op, operand), at)
         case Fault(e) => Fault(e)
         case Spins => Spins
         case Panic => Panic)
      case None => Primary(ts, pos)
  }

  /**
   * `primary`: consumes a token, then classifies it. A group never succeeds:
   * the inner expression returns only at EOF, where `)` is missing, and a `)`
   * before EOF makes the inner loop spin.
   */
  function Primary(ts: seq<BareToken>, pos: nat): (r: Step<ExprTree.Expr>)
    requires pos <= |ts|
    ensures Advanced(ts, pos, r)
    ensures pos < |ts| && ts[pos].kind == LeftParen ==> !r.Done?
    decreases |ts| - pos, 1
  {
    if pos >= |ts| then Panic
    else match ts[pos].kind
      case Number(v) => Done(ExprTree.Literator(ExprTree.Number(v)), pos + 1)
      case String(s) => Done(ExprTree.Literator(ExprTree.String(s)), pos + 1)
      case True => Done(ExprTree.Literator(ExprTree.True), pos + 1)
      case False => Done(ExprTree.Literator(ExprTree.False), pos + 1)
      case Nil => Done(ExprTree.Literator(ExprTree.Nil), pos + 1)
      case LeftParen =>
        (match Expression(ts, pos + 1)
         case Done(inner, at) =>
           (match Consume(ts, at, RightParen, "Expected ')' after expression.")
            case Done(_, end) => Done(ExprTree.Grouping(inner), end)
            case Fault(e) => Fault(e)
            case Spins => Spins
            case Panic => Panic)
         case Fault(e) => Fault(e)
         case Spins => Spins
         case Panic => Panic)
      case _ =>
        if pos + 1 < |ts| then Fault(ExprTree.ExpectedExpression(ts[pos + 1])) else Panic
  }

  /** What `Parser::parse` returns, or that it never returns, or that it panicked. */
  datatype Parsed = Accepted(expr: ExprTree.Expr) | Rejected(errors: seq<ExprTree.ParseError>) | Diverges | Panicked

  /**
   * `Parser::parse`. The parser's own error vector is never appended to, so
   * an `Err` holds exactly the one error the expression returned.
   */
  function Parse(ts: seq<BareToken>): (r: Parsed)
    ensures r.Rejected? ==> |r.errors| == 1
  {
    match Expression(ts, 0)
    case Done(e, _) => Accepted(e)
    case Fault(error) => Rejected([error])
    case Spins => Diverges
    case Panic => Panicked
  }

  /**
   * A group whose inner expression returns fails at `consume`: the inner
   * expression returns only at EOF (as in `( 1` EOF), so `consume` reports
   * EOF as unexpected. A closed group never gets that far: see
   * `ClosedGroupDiverges`.
   */
  lemma GroupNeverParses(ts: seq<BareToken>, pos: nat)
    requires pos < |ts| && ts[pos].kind == LeftParen
    requires Expression(ts, pos + 1).Done?
    ensures var at := Expression(ts, pos + 1).at;
      ts[at].kind == EOF &&
      Primary(ts, pos) == Fault(ExprTree.UnexpectedToken(ts[at], "Expected ')' after expression."))
  {
  }

  /**
   * `( 1 )` never returns: the inner `factor` reads `1`, then its loop meets
   * `)`, which is neither EOF nor one of its operators, and repeats forever.
   */
  lemma ClosedGroupDiverges(lp: BareToken, one: BareToken, rp: BareToken, end: BareToken)
    requires lp.kind == LeftParen && one.kind.Number? && rp.kind == RightParen && end.kind == EOF
    ensures Parse([lp, one, rp, end]) == Diverges
  {
    var ts := [lp, one, rp, end];
    var a := ExprTree.Literator(ExprTree.Number(one.kind.value));
    assert Unary(ts, 1) == Done(a, 2);
    assert Fold(ts, 2, 1, a) == Spins;
    assert Operation(ts, 1, 1) == Spins;
    OnlyFactorFolds(ts, 1, 4);
    assert Primary(ts, 0) == Spins;
    assert Unary(ts, 0) == Spins;
    assert Operand(ts, 0, 1) == Spins;
    assert Operation(ts, 0, 1) == Spins;
    OnlyFactorFolds(ts, 0, 4);
  }

  /** `primary` on a token that starts no expression names the token after it. */
  lemma ExpectedExpressionToken(ts: seq<BareToken>, pos: nat)
    requires pos < |ts|
    requires var k := ts[pos].kind; !(k.Number? || k.String? || k.True? || k.False? || k.Nil? || k.LeftParen?)
    ensures pos + 1 < |ts| ==> Primary(ts, pos) == Fault(ExprTree.ExpectedExpression(ts[pos + 1]))
    ensures pos + 1 == |ts| ==> Primary(ts, pos) == Panic
  {
  }

  /**
   * Only `factor` ever folds. Whatever an operand returns successfully stops
   * on EOF, so the loops of `term`, `comparison` and `equality` always leave
   * at once: every level parses exactly as `factor` does.
   */
  lemma {:induction false} OnlyFactorFolds(ts: seq<BareToken>, pos: nat, level: nat)
    requires pos <= |ts| && 1 <= level <= 4
    ensures Operation(ts, pos, level) == Operation(ts, pos, 1)
    decreases level
  {
    if level > 1 {
      OnlyFactorFolds(ts, pos, level - 1);
    }
  }

  /**
   * `1 - 2` never returns: `factor` reads `1`, then its loop meets `-`, which
   * is not one of its operators, and repeats forever.
   */
  lemma SubtractionSpins(one: BareToken, minus: BareToken, two: BareToken, end: BareToken)
    requires one.kind.Number? && minus.kind == Minus && two.kind.Number? && end.kind == EOF
    ensures Parse([one, minus, two, end]) == Diverges
  {
    var ts := [one, minus, two, end];
    assert Unary(ts, 0) == Done(ExprTree.Literator(ExprTree.Number(one.kind.value)), 1);
    assert Fold(ts, 1, 1, ExprTree.Literator(ExprTree.Number(one.kind.value))) == Spins;
    assert Operation(ts, 0, 1) == Spins;
    OnlyFactorFolds(ts, 0, 4);
  }

  /** `1 / 2 / 3` folds to the left: `(1 / 2) / 3`. */
  lemma DivisionFoldsLeft(one: BareToken, slash1: BareToken, two: BareToken, slash2: BareToken, three: BareToken, end: BareToken)
    requires one.kind.Number? && two.kind.Number? && three.kind.Number?
    requires slash1.kind == Slash && slash2.kind == Slash && end.kind == EOF
    ensures Parse([one, slash1, two, slash2, three, end]) == Accepted(
      ExprTree.Binary(
        ExprTree.Binary(ExprTree.Literator(ExprTree.Number(one.kind.value)), ExprTree.Slash,
                        ExprTree.Literator(ExprTree.Number(two.kind.value))),
        ExprTree.Slash, ExprTree.Literator(ExprTree.Number(three.kind.value))))
  {
    var ts := [one, slash1, two, slash2, three, end];
    var a := ExprTree.Literator(ExprTree.Number(one.kind.value));
    var b := ExprTree.Literator(ExprTree.Number(two.kind.value));
    var c := ExprTree.Literator(ExprTree.Number(three.kind.value));
    assert Unary(ts, 4) == Done(c, 5);
    assert Fold(ts, 3, 1, ExprTree.Binary(a, ExprTree.Slash, b))
        == Done(ExprTree.Binary(ExprTree.Binary(a, ExprTree.Slash, b), ExprTree.Slash, c), 5);
    assert Unary(ts, 2) == Done(b, 3);
    assert Fold(ts, 1, 1, a) == Fold(ts, 3, 1, ExprTree.Binary(a, ExprTree.Slash, b));
    assert Unary(ts, 0) == Done(a, 1);
    assert Operation(ts, 0, 1) == Done(ExprTree.Binary(ExprTree.Binary(a, ExprTree.Slash, b), ExprTree.Slash, c), 5);
    OnlyFactorFolds(ts, 0, 4);
  }

  /** `!-x` nests to the right: `!(-x)`. */
  lemma UnaryNestsRight(bang: BareToken, minus: BareToken, x: BareToken, end: BareToken)
    requires bang.kind == Bang && minus.kind == Minus && x.kind.Number? && end.kind == EOF
    ensures Parse([bang, minus, x, end]) == Accepted(
      ExprTree.Unary(ExprTree.Not, ExprTree.Unary(ExprTree.UnaryOp.Minus, ExprTree.Literator(ExprTree.Number(x.kind.value)))))
  {
    var ts := [bang, minus, x, end];
    var e := ExprTree.Unary(ExprTree.Not, ExprTree.Unary(ExprTree.UnaryOp.Minus, ExprTree.Literator(ExprTree.Number(x.kind.value))));
    assert Unary(ts, 2) == Done(ExprTree.Literator(ExprTree.Number(x.kind.value)), 3);
    assert Unary(ts, 0) == Done(e, 3);
    assert Operation(ts, 0, 1) == Done(e, 3);
    OnlyFactorFolds(ts, 0, 4);
  }
}
