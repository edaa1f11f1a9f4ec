/**
 * Single-precision numbers, kept opaque. A number is its 32-bit IEEE 754
 * pattern; only what the front end does to the pattern itself is defined
 * here (negation flips the sign bit, the three constants the interpreter
 * produces, the test against 0.0). Parsing, arithmetic, comparison and
 * formatting are supplied from outside as a `FloatOps` record.
 */
module Float32 {
  datatype F32 = F32(bits: bv32)

  const SignMask: bv32 := 0x8000_0000

  /** `f32::NAN`. */
  const NaN := F32(0x7FC0_0000)
  /** `-1.0`. */
  const MinusOne := F32(0xBF80_0000)
  /** `-0.0`. */
  const MinusZero := F32(0x8000_0000)

  /** The magnitude bits, without the sign. */
  function Magnitude(x: F32): bv32 {
    x.bits & !SignMask
  }

  predicate IsNegative(x: F32) {
    x.bits & SignMask != 0
  }

  /** `f32::neg`: the same magnitude with the opposite sign. */
  function Neg(x: F32): (r: F32)
    ensures Magnitude(r) == Magnitude(x)
    ensures IsNegative(r) != IsNegative(x)
  {
    F32(x.bits ^ SignMask)
  }

  /** `value == 0.0`: true for both +0.0 and -0.0. */
  predicate IsZero(x: F32) {
    Magnitude(x) == 0
  }

  lemma NegInvolution(x: F32)
    ensures Neg(Neg(x)) == x
  {
  }

  /** The IEEE operations the model does not define. */
  datatype FloatOps = FloatOps(
    add: (F32, F32) -> F32,
    sub: (F32, F32) -> F32,
    mul: (F32, F32) -> F32,
    div: (F32, F32) -> F32,
    eq: (F32, F32) -> bool,
    ne: (F32, F32) -> bool,
    gt: (F32, F32) -> bool,
    ge: (F32, F32) -> bool,
    lt: (F32, F32) -> bool,
    le: (F32, F32) -> bool,
    show: F32 -> string)
}
