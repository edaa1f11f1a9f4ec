/**
 * Runtime values of the newer front end (rlox/src/object.rs): their
 * truthiness, their conversions from literals and booleans, and their text.
 * `rlox/src/interpreter.rs` declares an identical `Object` with an identical
 * conversion from literals; both are this one.
 */
module Objects {
  import opened Float32
  import Ast

  datatype Object = Number(value: F32) | String(text: string) | True | False | Nil

  /** `is_truthy`: only `nil` and `false` are false; `0` and `""` are true. */
  predicate IsTruthy(o: Object) {
    !(o.Nil? || o.False?)
  }

  /** Truthiness splits the values into the two falsy ones and everything else. */
  lemma TruthyExactly(o: Object)
    ensures !IsTruthy(o) <==> o == Nil || o == False
    ensures o.Number? || o.String? || o == True ==> IsTruthy(o)
    ensures IsTruthy(Number(MinusZero)) && IsTruthy(String(""))
  {
  }

  /** `From<&LiteralValue>`: the value of the same shape with the same payload. */
  function FromLiteral(v: Ast.LiteralValue): (o: Object)
    ensures o.Number? <==> v.Number?
    ensures o.String? <==> v.String?
    ensures (o == True <==> v == Ast.True) && (o == False <==> v == Ast.False) && (o == Nil <==> v == Ast.Nil)
  {
    match v
    case Number(x) => Number(x)
    case String(s) => String(s)
    case True => True
    case False => False
    case Nil => Nil
  }

  /** The literal a value reads back as: `FromLiteral` loses nothing. */
  function ToLiteral(o: Object): Ast.LiteralValue {
    match o
    case Number(x) => Ast.Number(x)
    case String(s) => Ast.String(s)
    case True => Ast.True
    case False => Ast.False
    case Nil => Ast.Nil
  }

  /** Literals and values correspond one to one, payloads included. */
  lemma LiteralRoundTrip(v: Ast.LiteralValue, o: Object)
    ensures ToLiteral(FromLiteral(v)) == v
    ensures FromLiteral(ToLiteral(o)) == o
  {
  }

  /** `From<bool>`. */
  function FromBool(b: bool): (o: Object)
    ensures o == True || o == False
    ensures IsTruthy(o) == b
  {
    if b then True else False
  }

  /** Converting a boolean and testing it gives the boolean back; two booleans never meet. */
  lemma FromBoolInjective(a: bool, b: bool)
    ensures FromBool(a) == FromBool(b) <==> a == b
  {
  }

  /** `impl Display for Object`; `show` is `f32`'s `{}` formatting. */
  function Display(o: Object, show: F32 -> string): string {
    match o
    case Number(x) => show(x)
    case String(s) => s
    case True => "true"
    case False => "false"
    case Nil => "nil"
  }

  /**
   * Strings print verbatim, without quotes, and the three constants print as
   * their keywords, so the text alone does not tell a string holding `nil`
   * from `nil` itself.
   */
  lemma DisplayForms(s: string, show: F32 -> string)
    ensures Display(String(s), show) == s
    ensures Display(True, show) == "true" && Display(False, show) == "false" && Display(Nil, show) == "nil"
    ensures Display(String("nil"), show) == Display(Nil, show)
    ensures forall o: Object :: o.String? && Display(o, show) == s ==> o == String(s)
  {
  }
}
