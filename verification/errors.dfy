/**
 * The stage-tagged error value of the newer front end (rlox/src/result.rs)
 * and its rendered text, together with the decimal rendering of line numbers
 * that every diagnostic of the project uses.
 */
module Errors {
  import opened Wrappers
  import opened Chars

  /** One diagnostic: the stage that raised it, a source line and a message. */
  datatype Error =
    | Scanner(line: nat, msg: string)
    | Parser(line: nat, msg: string)
    | Runtime(line: nat, msg: string)

  /** `RloxResult<T>`. */
  datatype Result<+T> = Ok(value: T) | Err(error: Error)

  /** `RloxResult<()>`. */
  datatype Outcome = Pass | Fail(error: Error)

  function DigitChar(d: nat): (c: char)
    requires d < 10
    ensures IsDigit(c) && c as int - '0' as int == d
  {
    ('0' as int + d) as char
  }

  /** The value of a string of decimal digits, most significant first. */
  function DigitsValue(s: string): nat
    requires forall i :: 0 <= i < |s| ==> IsDigit(s[i])
  {
    if s == [] then 0
    else
      assert IsDigit(s[|s| - 1]);
      DigitsValue(s[..|s| - 1]) * 10 + (s[|s| - 1] as int - '0' as int)
  }

  /** `{}` applied to a `usize`: decimal digits without leading zeros. */
  function NatToString(n: nat): (s: string)
    ensures |s| >= 1
    ensures forall i :: 0 <= i < |s| ==> IsDigit(s[i])
    ensures DigitsValue(s) == n
    ensures s[0] == '0' ==> n == 0
  {
    if n < 10 then [DigitChar(n)]
    else
      var s := NatToString(n / 10) + [DigitChar(n % 10)];
      assert s[..|s| - 1] == NatToString(n / 10);
      s
  }

  /** The text that precedes the line number in a rendered error. */
  function Prefix(e: Error): string {
    match e
    case Scanner(_, _) => "Scanner error [line: "
    case Parser(_, _) => "Parser error [line: "
    case Runtime(_, _) => "Runtime error [line: "
  }

  /** `impl Display for Error`: `<Stage> error [line: N]: <message>`. */
  function Display(e: Error): (s: string)
    ensures |s| > |Prefix(e)| && s[..|Prefix(e)|] == Prefix(e)
  {
    Prefix(e) + NatToString(e.line) + "]: " + e.msg
  }

  /** Length of the longest run of decimal digits at the front of `s`. */
  function DigitRun(s: string): (k: nat)
    ensures k <= |s|
    ensures forall i :: 0 <= i < k ==> IsDigit(s[i])
    ensures k < |s| ==> !IsDigit(s[k])
  {
    if s == [] || !IsDigit(s[0]) then 0 else 1 + DigitRun(s[1..])
  }

  /** Reads back `N]: <message>`, the part of a rendered error after its prefix. */
  function DecodeTail(t: string): Option<(nat, string)> {
    var k := DigitRun(t);
    if 1 <= k && k + 3 <= |t| && t[k..k + 3] == "]: " then Some((DigitsValue(t[..k]), t[k + 3..]))
    else None
  }

  /** The line and message after prefix `p`, when `s` starts with `p`. */
  function DecodeAfter(s: string, p: string): Option<(nat, string)> {
    if |p| <= |s| && s[..|p|] == p then DecodeTail(s[|p|..]) else None
  }

  /** Recovers the stage, the line and the message from a rendered error. */
  function Decode(s: string): Option<Error> {
    match DecodeAfter(s, Prefix(Scanner(0, "")))
    case Some((l, m)) => Some(Scanner(l, m))
    case None =>
      match DecodeAfter(s, Prefix(Parser(0, "")))
      case Some((l, m)) => Some(Parser(l, m))
      case None =>
        match DecodeAfter(s, Prefix(Runtime(0, "")))
        case Some((l, m)) => Some(Runtime(l, m))
        case None => None
  }

  lemma {:induction false} DigitRunOfDigits(d: string, rest: string)
    requires forall i :: 0 <= i < |d| ==> IsDigit(d[i])
    requires rest != [] && !IsDigit(rest[0])
    ensures DigitRun(d + rest) == |d|
  {
    if d != [] {
      assert (d + rest)[1..] == d[1..] + rest;
      DigitRunOfDigits(d[1..], rest);
    }
  }

  lemma DecodeTailOfRendered(n: nat, m: string)
    ensures DecodeTail(NatToString(n) + "]: " + m) == Some((n, m))
  {
    var d := NatToString(n);
    var t := d + "]: " + m;
    assert t == d + ("]: " + m);
    DigitRunOfDigits(d, "]: " + m);
    assert t[..|d|] == d;
    assert t[|d|..|d| + 3] == "]: ";
    assert t[|d| + 3..] == m;
  }

  lemma DecodeAfterOwnPrefix(e: Error)
    ensures DecodeAfter(Display(e), Prefix(e)) == Some((e.line, e.msg))
  {
    var s, p := Display(e), Prefix(e);
    assert s == p + (NatToString(e.line) + "]: " + e.msg);
    assert s[|p|..] == NatToString(e.line) + "]: " + e.msg;
    DecodeTailOfRendered(e.line, e.msg);
  }

  lemma DecodeAfterOtherPrefix(e: Error, p: string)
    requires |p| > 0 && p[0] != Prefix(e)[0]
    ensures DecodeAfter(Display(e), p) == None
  {
  }

  /**
   * Rendering loses nothing: the stage, the line and the message can be
   * read back from the text, so the three stage prefixes are told apart.
   */
  lemma {:induction false} DecodeDisplay(e: Error)
    ensures Decode(Display(e)) == Some(e)
  {
    DecodeAfterOwnPrefix(e);
    match e
    case Scanner(_, _) =>
    case Parser(_, _) =>
      DecodeAfterOtherPrefix(e, Prefix(Scanner(0, "")));
    case Runtime(_, _) =>
      DecodeAfterOtherPrefix(e, Prefix(Scanner(0, "")));
      DecodeAfterOtherPrefix(e, Prefix(Parser(0, "")));
  }

  /** Two different errors never render to the same text. */
  lemma DisplayInjective(e1: Error, e2: Error)
    requires Display(e1) == Display(e2)
    ensures e1 == e2
  {
    DecodeDisplay(e1);
    DecodeDisplay(e2);
  }
}
