/**
 * The reference definition of the newer scanner (rlox/src/scanner.rs) as
 * functions over the source text. `Step` is one turn of the scanning loop:
 * from the window start `pos` and the line counter it gives the token pushed
 * (if any), where the next window starts and the new line counter, or the
 * error that aborts the scan. `ScanFrom` is the loop and `Scan` the whole
 * scanner. The source is a sequence of bytes, each written as the `char` of
 * the same code. The imperative scanner classes are proved equal to these
 * functions; the lemmas below state what the scanner promises.
 */
module Lexer {
  import opened Errors
  import opened Float32
  import opened Tokens
  import opened Chars

  /** The first index at or after `i` whose character leaves the run. */
  function RunEnd(src: string, i: nat, inRun: char -> bool): (e: nat)
    requires i <= |src|
    ensures i <= e <= |src|
    ensures forall k :: i <= k < e ==> inRun(src[k])
    ensures e < |src| ==> !inRun(src[e])
    decreases |src| - i
  {
    if i == |src| || !inRun(src[i]) then i else RunEnd(src, i + 1, inRun)
  }

  predicate NotNewline(c: char) { c != '\n' }

  predicate NotQuote(c: char) { c != '"' }

  /** How many times the line counter moves over `src[a..b]`: its newlines. */
  function Newlines(src: string, a: nat, b: nat): nat
    requires a <= b <= |src|
    decreases b - a
  {
    if a == b then 0 else Newlines(src, a, b - 1) + if src[b - 1] == '\n' then 1 else 0
  }

  lemma {:induction false} NewlinesFree(src: string, a: nat, b: nat)
    requires a <= b <= |src|
    requires forall k :: a <= k < b ==> src[k] != '\n'
    ensures Newlines(src, a, b) == 0
    decreases b - a
  {
    if a < b {
      NewlinesFree(src, a, b - 1);
    }
  }

  lemma {:induction false} NewlinesSplit(src: string, a: nat, b: nat, c: nat)
    requires a <= b <= c <= |src|
    ensures Newlines(src, a, c) == Newlines(src, a, b) + Newlines(src, b, c)
    decreases c - b
  {
    if b < c {
      NewlinesSplit(src, a, b, c - 1);
    }
  }

  /** What one turn of the scanning loop does. */
  datatype Lexed =
    | Failed(error: Error)
    | Skipped(next: nat, line: nat)
    | Emitted(token: Token, next: nat, line: nat)

  /** The contract every turn of the loop keeps (see `Step`). */
  predicate Consistent(src: string, pos: nat, line: nat, r: Lexed) {
    && (!r.Failed? ==> pos < r.next <= |src| && r.line == line + Newlines(src, pos, r.next))
    && (r.Emitted? ==> r.token.lexeme == src[pos..r.next] && r.token.line == r.line && r.token.kind != EOF)
  }

  /** A token of `width` characters starting at `pos`, on the current line. */
  function Single(src: string, pos: nat, line: nat, kind: TokenKind, width: nat): (r: Lexed)
    requires pos + width <= |src| && 0 < width
    requires kind != EOF && forall k :: pos <= k < pos + width ==> src[k] != '\n'
    ensures Consistent(src, pos, line, r)
  {
    NewlinesFree(src, pos, pos + width);
    Emitted(Token(kind, line, src[pos..pos + width]), pos + width, line)
  }

  /** `!`, `=`, `<` or `>`: the two-character kind when `=` follows, else the one-character kind. */
  function LexOperator(src: string, pos: nat, line: nat, one: TokenKind, two: TokenKind): (r: Lexed)
    requires pos < |src| && src[pos] != '\n' && one != EOF && two != EOF
    ensures Consistent(src, pos, line, r)
  {
    if pos + 1 < |src| && src[pos + 1] == '=' then Single(src, pos, line, two, 2)
    else Single(src, pos, line, one, 1)
  }

  /** A string literal opening at `pos`: runs to the next quote, counting newlines. */
  function LexString(src: string, pos: nat, line: nat): (r: Lexed)
    requires pos < |src| && src[pos] == '"'
    ensures Consistent(src, pos, line, r)
  {
    var e := RunEnd(src, pos + 1, NotQuote);
    var l := line + Newlines(src, pos + 1, e);
    if e == |src| then Failed(Scanner(l, "Unterminated string"))
    else
      NewlinesSplit(src, pos, pos + 1, e);
      Emitted(Token(String(src[pos + 1..e]), l, src[pos..e + 1]), e + 1, l)
  }

  /** The end of a number starting at `pos`: digits, then `.` and digits only if a digit follows the dot. */
  function NumberEnd(src: string, pos: nat): (e: nat)
    requires pos < |src| && IsDigit(src[pos])
    ensures pos < e <= |src|
  {
    var d := RunEnd(src, pos + 1, IsDigit);
    if d + 1 < |src| && src[d] == '.' && IsDigit(src[d + 1]) then RunEnd(src, d + 1, IsDigit) else d
  }

  function LexNumber(src: string, pos: nat, line: nat, parse: string -> F32): (r: Lexed)
    requires pos < |src| && IsDigit(src[pos])
    ensures Consistent(src, pos, line, r)
  {
    var e := NumberEnd(src, pos);
    NewlinesFree(src, pos, e);
    Emitted(Token(Number(parse(src[pos..e])), line, src[pos..e]), e, line)
  }

  /** An identifier or keyword starting at `pos`. */
  function LexWord(src: string, pos: nat, line: nat): (r: Lexed)
    requires pos < |src| && IsAlpha(src[pos])
    ensures Consistent(src, pos, line, r)
  {
    var e := RunEnd(src, pos + 1, IsAlphaNumeric);
    NewlinesFree(src, pos, e);
    Emitted(Token(WordKind(src[pos..e]), line, src[pos..e]), e, line)
  }

  /** The characters that are a token on their own. */
  const Punctuation: map<char, TokenKind> := map[
    '(' := LeftParen, ')' := RightParen, '{' := LeftBrace, '}' := RightBrace,
    ',' := Coma, '.' := Dot, '-' := Minus, '+' := Plus, ';' := Semicolon, '*' := Star]

  /** The characters that form a longer token when `=` follows: the one- and the two-character kind. */
  const Operators: map<char, (TokenKind, TokenKind)> := map[
    '!' := (Bang, BangEqual), '=' := (Equal, EqualEqual),
    '<' := (Less, LessEqual), '>' := (Greater, GreaterEqual)]

  /** `scan_token` on any character that is not a digit or a letter. */
  function LexSymbol(src: string, pos: nat, line: nat): (r: Lexed)
    requires pos < |src| && !IsDigit(src[pos]) && !IsAlpha(src[pos])
    ensures Consistent(src, pos, line, r)
  {
    var c := src[pos];
    if c in Punctuation then Single(src, pos, line, Punctuation[c], 1)
    else if c in Operators then LexOperator(src, pos, line, Operators[c].0, Operators[c].1)
    else if c == '/' then
      if pos + 1 < |src| && src[pos + 1] == '/' then
        var e := RunEnd(src, pos + 2, NotNewline);
        NewlinesFree(src, pos, e);
        Skipped(e, line)
      else Single(src, pos, line, Slash, 1)
    else if c == ' ' || c == '\r' || c == '\t' then Skipped(pos + 1, line)
    else if c == '\n' then Skipped(pos + 1, line + 1)
    else if c == '"' then LexString(src, pos, line)
    else Failed(Scanner(line, "Unexpected character."))
  }

  /**
   * One turn of `scan_tokens`' loop: `scan_token` on the window starting at
   * `pos`. Whatever it does not fail on, it consumes at least one character
   * and moves the line counter by exactly the newlines it consumed; a pushed
   * token's lexeme is the consumed slice and it is never EOF.
   */
  function Step(src: string, pos: nat, line: nat, parse: string -> F32): (r: Lexed)
    requires pos < |src|
    ensures Consistent(src, pos, line, r)
  {
    // digits and letters are tested after the punctuation in the source; the
    // sets of characters are disjoint, so testing them first is the same
    if IsDigit(src[pos]) then LexNumber(src, pos, line, parse)
    else if IsAlpha(src[pos]) then LexWord(src, pos, line)
    else LexSymbol(src, pos, line)
  }

  /** Puts tokens already pushed in front of the outcome of the rest of the scan. */
  function Then(done: seq<Token>, rest: Result<seq<Token>>): Result<seq<Token>> {
    match rest
    case Ok(ts) => Ok(done + ts)
    case Err(e) => Err(e)
  }

  /**
   * `scan_tokens` from a window starting at `pos` (the previous window began
   * at `start`): the tokens still to be pushed, ending with EOF, or the
   * first error. EOF is pushed without resetting `start`, so its lexeme is
   * the text of the last window.
   */
  function ScanFrom(src: string, start: nat, pos: nat, line: nat, parse: string -> F32): Result<seq<Token>>
    requires start <= pos <= |src|
    decreases |src| - pos
  {
    if pos == |src| then Ok([Token(EOF, line, src[start..pos])])
    else
      match Step(src, pos, line, parse)
      case Failed(e) => Err(e)
      case Skipped(n, l) => ScanFrom(src, pos, n, l, parse)
      case Emitted(t, n, l) => Then([t], ScanFrom(src, pos, n, l, parse))
  }

  /**
   * One turn of the loop seen from the tokens pushed so far: continuing from
   * the state the turn reached gives the same outcome as continuing from the
   * state before it.
   */
  lemma ThenStep(src: string, start: nat, pos: nat, line: nat, parse: string -> F32,
                 before: seq<Token>, after: seq<Token>, r: Lexed)
    requires start <= pos < |src| && r == Step(src, pos, line, parse) && !r.Failed?
    requires after == if r.Emitted? then before + [r.token] else before
    ensures pos < r.next <= |src|
    ensures Then(after, ScanFrom(src, pos, r.next, r.line, parse)) == Then(before, ScanFrom(src, start, pos, line, parse))
  {
    ScanFromStep(src, start, pos, line, parse, r);
    if r.Emitted? {
      ThenPush(before, r.token, ScanFrom(src, pos, r.next, r.line, parse));
    }
  }

  /** Pushing a token, then the rest: the same as putting the rest behind the token first. */
  lemma ThenPush(before: seq<Token>, t: Token, rest: Result<seq<Token>>)
    ensures Then(before + [t], rest) == Then(before, Then([t], rest))
  {
    if rest.Ok? {
      assert before + [t] + rest.value == before + ([t] + rest.value);
    }
  }

  lemma ScanFromStep(src: string, start: nat, pos: nat, line: nat, parse: string -> F32, r: Lexed)
    requires start <= pos < |src| && r == Step(src, pos, line, parse) && !r.Failed?
    ensures pos < r.next <= |src|
    ensures ScanFrom(src, start, pos, line, parse)
         == if r.Skipped? then ScanFrom(src, pos, r.next, r.line, parse)
            else Then([r.token], ScanFrom(src, pos, r.next, r.line, parse))
  {
  }

  /** A turn of the loop that fails ends the scan with its error. */
  lemma ScanFromFails(src: string, start: nat, pos: nat, line: nat, parse: string -> F32)
    requires start <= pos < |src| && Step(src, pos, line, parse).Failed?
    ensures ScanFrom(src, start, pos, line, parse) == Err(Step(src, pos, line, parse).error)
  {
  }

  /** `Scanner::scan`: the whole source, from line 1. */
  function Scan(src: string, parse: string -> F32): Result<seq<Token>> {
    ScanFrom(src, 0, 0, 1, parse)
  }

  /** A scan whose first turn pushes a token and consumes the whole source: that token, then EOF. */
  lemma ScanOneToken(src: string, parse: string -> F32)
    requires 0 < |src| && Step(src, 0, 1, parse).Emitted? && Step(src, 0, 1, parse).next == |src|
    ensures var r := Step(src, 0, 1, parse);
      Scan(src, parse) == Ok([r.token, Token(EOF, r.line, src)])
  {
    var r := Step(src, 0, 1, parse);
    ScanFromStep(src, 0, 0, 1, parse, r);
    assert src[0..|src|] == src;
    assert [r.token] + [Token(EOF, r.line, src)] == [r.token, Token(EOF, r.line, src)];
  }

  /** A scan whose first turn fails returns that error. */
  lemma ScanFails(src: string, parse: string -> F32)
    requires 0 < |src| && Step(src, 0, 1, parse).Failed?
    ensures Scan(src, parse) == Err(Step(src, 0, 1, parse).error)
  {
  }

  /** The source window `[start, current)` of each token `ScanFrom` pushes. */
  ghost function SpansFrom(src: string, start: nat, pos: nat, line: nat, parse: string -> F32): seq<(nat, nat)>
    requires start <= pos <= |src|
    decreases |src| - pos
  {
    if pos == |src| then [(start, pos)]
    else
      match Step(src, pos, line, parse)
      case Failed(_) => []
      case Skipped(n, l) => SpansFrom(src, pos, n, l, parse)
      case Emitted(_, n, l) => [(pos, n)] + SpansFrom(src, pos, n, l, parse)
  }

  /** Exactly one EOF token, and it is the last one. */
  predicate EndsWithSingleEOF(ts: seq<Token>) {
    && |ts| >= 1
    && ts[|ts| - 1].kind == EOF
    && forall i :: 0 <= i < |ts| - 1 ==> ts[i].kind != EOF
  }

  lemma {:induction false} ScanFromEndsWithEOF(src: string, start: nat, pos: nat, line: nat, parse: string -> F32)
    requires start <= pos <= |src|
    requires ScanFrom(src, start, pos, line, parse).Ok?
    ensures EndsWithSingleEOF(ScanFrom(src, start, pos, line, parse).value)
    decreases |src| - pos
  {
    if pos < |src| {
      match Step(src, pos, line, parse)
      case Skipped(n, l) =>
        ScanFromEndsWithEOF(src, pos, n, l, parse);
      case Emitted(t, n, l) =>
        ScanFromEndsWithEOF(src, pos, n, l, parse);
    }
  }

  /** Each lexeme is the source window it was scanned from. */
  ghost predicate LexemesFit(src: string, ts: seq<Token>, sp: seq<(nat, nat)>) {
    && |sp| == |ts|
    && forall i :: 0 <= i < |ts| ==> sp[i].0 <= sp[i].1 <= |src| && ts[i].lexeme == src[sp[i].0..sp[i].1]
  }

  /**
   * All windows but the last (those of the tokens before EOF) lie after
   * `pos`, in order and without overlap; the last one, EOF's, starts at or
   * after `start`, after every other window starts, and ends at the end of
   * the source.
   */
  ghost predicate WindowsInOrder(src: string, start: nat, pos: nat, sp: seq<(nat, nat)>) {
    && |sp| >= 1
    && (forall i :: 0 <= i < |sp| - 1 ==> pos <= sp[i].0 <= sp[|sp| - 1].0)
    && (forall i, j :: 0 <= i < j < |sp| - 1 ==> sp[i].1 <= sp[j].0)
    && start <= sp[|sp| - 1].0
    && sp[|sp| - 1].1 == |src|
  }

  /** Where the tokens `ScanFrom` pushes come from in the source. */
  ghost predicate SpansFit(src: string, start: nat, pos: nat, ts: seq<Token>, sp: seq<(nat, nat)>) {
    LexemesFit(src, ts, sp) && WindowsInOrder(src, start, pos, sp)
  }

  lemma SpansFitSkip(src: string, start: nat, pos: nat, n: nat, ts: seq<Token>, sp: seq<(nat, nat)>)
    requires start <= pos <= n && SpansFit(src, pos, n, ts, sp)
    ensures SpansFit(src, start, pos, ts, sp)
  {
  }

  lemma LexemesFitPush(src: string, pos: nat, n: nat, t: Token, ts: seq<Token>, sp: seq<(nat, nat)>)
    requires pos <= n <= |src| && t.lexeme == src[pos..n] && LexemesFit(src, ts, sp)
    ensures LexemesFit(src, [t] + ts, [(pos, n)] + sp)
  {
    var ts', sp' := [t] + ts, [(pos, n)] + sp;
    forall i | 0 < i < |ts'| ensures sp'[i].0 <= sp'[i].1 <= |src| && ts'[i].lexeme == src[sp'[i].0..sp'[i].1] {
      assert ts'[i] == ts[i - 1] && sp'[i] == sp[i - 1];
    }
  }

  lemma WindowsInOrderPush(src: string, start: nat, pos: nat, n: nat, sp: seq<(nat, nat)>)
    requires start <= pos <= n && WindowsInOrder(src, pos, n, sp)
    ensures WindowsInOrder(src, start, pos, [(pos, n)] + sp)
  {
    var sp' := [(pos, n)] + sp;
    assert forall i :: 0 < i < |sp'| ==> sp'[i] == sp[i - 1];
  }

  lemma SpansFitPush(src: string, start: nat, pos: nat, n: nat, t: Token, ts: seq<Token>, sp: seq<(nat, nat)>)
    requires start <= pos <= n <= |src| && t.lexeme == src[pos..n]
    requires SpansFit(src, pos, n, ts, sp)
    ensures SpansFit(src, start, pos, [t] + ts, [(pos, n)] + sp)
  {
    LexemesFitPush(src, pos, n, t, ts, sp);
    WindowsInOrderPush(src, start, pos, n, sp);
  }

  lemma {:induction false} ScanFromSpans(src: string, start: nat, pos: nat, line: nat, parse: string -> F32)
    requires start <= pos <= |src|
    requires ScanFrom(src, start, pos, line, parse).Ok?
    ensures SpansFit(src, start, pos, ScanFrom(src, start, pos, line, parse).value, SpansFrom(src, start, pos, line, parse))
    decreases |src| - pos
  {
    if pos < |src| {
      match Step(src, pos, line, parse)
      case Skipped(n, l) =>
        ScanFromSpans(src, pos, n, l, parse);
        SpansFitSkip(src, start, pos, n, ScanFrom(src, pos, n, l, parse).value, SpansFrom(src, pos, n, l, parse));
      case Emitted(t, n, l) =>
        ScanFromSpans(src, pos, n, l, parse);
        SpansFitPush(src, start, pos, n, t, ScanFrom(src, pos, n, l, parse).value, SpansFrom(src, pos, n, l, parse));
    }
  }

  /** Each token carries the line counter plus the newlines from `pos` to the end of its window. */
  ghost predicate LinesFit(src: string, pos: nat, line: nat, ts: seq<Token>, sp: seq<(nat, nat)>) {
    && |sp| == |ts|
    && forall i :: 0 <= i < |ts| ==> pos <= sp[i].1 <= |src| && ts[i].line == line + Newlines(src, pos, sp[i].1)
  }

  lemma LinesFitSkip(src: string, pos: nat, n: nat, line: nat, l: nat, ts: seq<Token>, sp: seq<(nat, nat)>)
    requires pos <= n <= |src| && l == line + Newlines(src, pos, n) && LinesFit(src, n, l, ts, sp)
    ensures LinesFit(src, pos, line, ts, sp)
  {
    forall i | 0 <= i < |ts| ensures pos <= sp[i].1 <= |src| && ts[i].line == line + Newlines(src, pos, sp[i].1) {
      NewlinesSplit(src, pos, n, sp[i].1);
    }
  }

  lemma LinesFitPush(src: string, pos: nat, n: nat, line: nat, t: Token, ts: seq<Token>, sp: seq<(nat, nat)>)
    requires pos <= n <= |src| && t.line == line + Newlines(src, pos, n) && LinesFit(src, n, t.line, ts, sp)
    ensures LinesFit(src, pos, line, [t] + ts, [(pos, n)] + sp)
  {
    LinesFitSkip(src, pos, n, line, t.line, ts, sp);
    var ts', sp' := [t] + ts, [(pos, n)] + sp;
    forall i | 0 < i < |ts'| ensures pos <= sp'[i].1 <= |src| && ts'[i].line == line + Newlines(src, pos, sp'[i].1) {
      assert ts'[i] == ts[i - 1] && sp'[i] == sp[i - 1];
    }
  }

  lemma {:induction false} ScanFromLines(src: string, start: nat, pos: nat, line: nat, parse: string -> F32)
    requires start <= pos <= |src|
    requires ScanFrom(src, start, pos, line, parse).Ok?
    ensures LinesFit(src, pos, line, ScanFrom(src, start, pos, line, parse).value, SpansFrom(src, start, pos, line, parse))
    decreases |src| - pos
  {
    if pos < |src| {
      match Step(src, pos, line, parse)
      case Skipped(n, l) =>
        ScanFromLines(src, pos, n, l, parse);
        LinesFitSkip(src, pos, n, line, l, ScanFrom(src, pos, n, l, parse).value, SpansFrom(src, pos, n, l, parse));
      case Emitted(t, n, l) =>
        ScanFromLines(src, pos, n, l, parse);
        LinesFitPush(src, pos, n, line, t, ScanFrom(src, pos, n, l, parse).value, SpansFrom(src, pos, n, l, parse));
    }
  }

  /**
   * What a successful scan produces: exactly one EOF, last; each lexeme is
   * the source window its token was scanned from, the windows of the other
   * tokens in source order and disjoint; each token carries 1 plus the
   * number of newlines before the end of its window (EOF: in the whole
   * source), so lines start at 1 and never decrease along the output.
   */
  lemma ScanFacts(src: string, parse: string -> F32)
    requires Scan(src, parse).Ok?
    ensures var ts, sp := Scan(src, parse).value, SpansFrom(src, 0, 0, 1, parse);
      && EndsWithSingleEOF(ts)
      && SpansFit(src, 0, 0, ts, sp)
      && (forall i :: 0 <= i < |ts| ==> ts[i].line == 1 + Newlines(src, 0, sp[i].1))
      && ts[|ts| - 1].line == 1 + Newlines(src, 0, |src|)
      && (forall i, j :: 0 <= i <= j < |ts| ==> 1 <= ts[i].line <= ts[j].line)
  {
    ScanFromEndsWithEOF(src, 0, 0, 1, parse);
    ScanFromSpans(src, 0, 0, 1, parse);
    ScanFromLines(src, 0, 0, 1, parse);
    LinesInOrder(src, Scan(src, parse).value, SpansFrom(src, 0, 0, 1, parse));
  }

  /** Windows in source order carry lines in the same order, the last one the whole source's. */
  lemma LinesInOrder(src: string, ts: seq<Token>, sp: seq<(nat, nat)>)
    requires WindowsInOrder(src, 0, 0, sp) && LinesFit(src, 0, 1, ts, sp)
    requires forall i :: 0 <= i < |sp| ==> sp[i].0 <= sp[i].1
    ensures ts[|ts| - 1].line == 1 + Newlines(src, 0, |src|)
    ensures forall i, j :: 0 <= i <= j < |ts| ==> 1 <= ts[i].line <= ts[j].line
  {
    assert sp[|ts| - 1].1 == |src|;
    forall i, j | 0 <= i <= j < |ts| ensures 1 <= ts[i].line <= ts[j].line {
      if i < j {
        var a, b := sp[i].1, sp[j].1;
        assert a <= b by {
          if j < |ts| - 1 {
            assert sp[i].1 <= sp[j].0;
          }
        }
        NewlinesSplit(src, 0, a, b);
      }
    }
  }

  lemma StepOnDigit(src: string, pos: nat, line: nat, parse: string -> F32)
    requires pos < |src| && IsDigit(src[pos])
    ensures Step(src, pos, line, parse) == LexNumber(src, pos, line, parse)
  {
  }

  lemma StepOnAlpha(src: string, pos: nat, line: nat, parse: string -> F32)
    requires pos < |src| && IsAlpha(src[pos])
    ensures Step(src, pos, line, parse) == LexWord(src, pos, line)
  {
  }

  lemma StepOnSymbol(src: string, pos: nat, line: nat, parse: string -> F32)
    requires pos < |src| && !IsDigit(src[pos]) && !IsAlpha(src[pos])
    ensures Step(src, pos, line, parse) == LexSymbol(src, pos, line)
  {
  }

  /**
   * `!`, `=`, `<`, `>` take a following `=` whenever there is one, and only then
   * give a two-character kind: each character's own entry in `Operators`.
   */
  lemma MaximalMunch(src: string, pos: nat, line: nat, parse: string -> F32)
    requires pos < |src| && src[pos] in "!=<>"
    ensures var r := Step(src, pos, line, parse);
      && r.Emitted? && r.line == line
      && (r.next == pos + 2 <==> pos + 1 < |src| && src[pos + 1] == '=')
      && (r.next == pos + 2 <==> r.token.kind in {BangEqual, EqualEqual, LessEqual, GreaterEqual})
      && (r.next == pos + 1 <==> r.token.kind in {Bang, Equal, Less, Greater})
      && r.token.kind == (if pos + 1 < |src| && src[pos + 1] == '=' then Operators[src[pos]].1 else Operators[src[pos]].0)
  {
    StepOnSymbol(src, pos, line, parse);
  }

  /** `//` skips up to, not including, the next newline or the end of input. */
  lemma LineComment(src: string, pos: nat, line: nat, parse: string -> F32)
    requires pos + 1 < |src| && src[pos] == '/' && src[pos + 1] == '/'
    ensures var r := Step(src, pos, line, parse);
      && r.Skipped? && r.line == line
      && (r.next == |src| || src[r.next] == '\n')
      && forall k :: pos <= k < r.next ==> src[k] != '\n'
  {
  }

  /** Space, `\r`, `\t` and `\n` give no token; only `\n` moves the line counter. */
  lemma Whitespace(src: string, pos: nat, line: nat, parse: string -> F32)
    requires pos < |src| && src[pos] in " \r\t\n"
    ensures Step(src, pos, line, parse) == Skipped(pos + 1, if src[pos] == '\n' then line + 1 else line)
  {
  }

  /**
   * A string literal: its payload is what lies strictly between the quotes
   * and it carries the line of the closing quote; with no closing quote the
   * scan fails with "Unterminated string" on the line reached at the end.
   */
  lemma StringLiteral(src: string, pos: nat, line: nat, parse: string -> F32)
    requires pos < |src| && src[pos] == '"'
    ensures var r := Step(src, pos, line, parse);
      && (r.Failed? <==> forall k :: pos < k < |src| ==> src[k] != '"')
      && (r.Failed? ==> r.error == Scanner(line + Newlines(src, pos + 1, |src|), "Unterminated string"))
      && (!r.Failed? ==>
            && r.Emitted?
            && src[r.next - 1] == '"'
            && r.token.kind == String(src[pos + 1..r.next - 1])
            && r.token.lexeme == src[pos..r.next]
            && (forall k :: pos < k < r.next - 1 ==> src[k] != '"')
            && r.token.line == line + Newlines(src, pos + 1, r.next - 1))
  {
    StepOnSymbol(src, pos, line, parse);
    assert LexSymbol(src, pos, line) == LexString(src, pos, line);
    LexStringFacts(src, pos, line);
  }

  /** `StringLiteral`, stated for the string routine alone. */
  lemma LexStringFacts(src: string, pos: nat, line: nat)
    requires pos < |src| && src[pos] == '"'
    ensures var r := LexString(src, pos, line);
      && (r.Failed? <==> forall k :: pos < k < |src| ==> src[k] != '"')
      && (r.Failed? ==> r.error == Scanner(line + Newlines(src, pos + 1, |src|), "Unterminated string"))
      && (!r.Failed? ==>
            && r.Emitted?
            && src[r.next - 1] == '"'
            && r.token.kind == String(src[pos + 1..r.next - 1])
            && r.token.lexeme == src[pos..r.next]
            && (forall k :: pos < k < r.next - 1 ==> src[k] != '"')
            && r.token.line == line + Newlines(src, pos + 1, r.next - 1))
  {
    var e := RunEnd(src, pos + 1, NotQuote);
    var l := line + Newlines(src, pos + 1, e);
    if e == |src| {
      assert LexString(src, pos, line) == Failed(Scanner(l, "Unterminated string"));
      forall k | pos < k < |src| ensures src[k] != '"' {
        assert NotQuote(src[k]);
      }
    } else {
      assert src[e] == '"' by {
        assert !NotQuote(src[e]);
      }
      assert LexString(src, pos, line) == Emitted(Token(String(src[pos + 1..e]), l, src[pos..e + 1]), e + 1, l);
      forall k | pos < k < e ensures src[k] != '"' {
        assert NotQuote(src[k]);
      }
    }
  }

  predicate AllDigits(s: string) {
    forall k :: 0 <= k < |s| ==> IsDigit(s[k])
  }

  /** A digit run, optionally followed by `.` and a second digit run. */
  predicate Numeral(s: string) {
    || (|s| > 0 && AllDigits(s))
    || exists k :: 0 < k < |s| - 1 && s[k] == '.' && AllDigits(s[..k]) && AllDigits(s[k + 1..])
  }

  /**
   * A number is a numeral, taken as long as possible: what follows it is
   * not a digit, and a `.` followed by a digit is taken unless the number
   * already has its dot (so `1.` is a number and then a dot). Its value is
   * the parse of its lexeme.
   */
  lemma NumberEndFacts(src: string, pos: nat)
    requires pos < |src| && IsDigit(src[pos])
    ensures var e := NumberEnd(src, pos);
      && Numeral(src[pos..e])
      && (e < |src| ==> !IsDigit(src[e]))
      && (e + 1 < |src| && src[e] == '.' && IsDigit(src[e + 1]) ==> '.' in src[pos..e])
  {
    var d := RunEnd(src, pos + 1, IsDigit);
    if d + 1 < |src| && src[d] == '.' && IsDigit(src[d + 1]) {
      var e := RunEnd(src, d + 1, IsDigit);
      DottedNumeral(src, pos, d, e);
      assert src[pos..e][d - pos] == '.';
    } else {
      assert AllDigits(src[pos..d]);
    }
  }

  /** Digits, a dot and digits again, with at least one digit on each side, form a numeral. */
  lemma DottedNumeral(src: string, a: nat, d: nat, e: nat)
    requires a < d && d + 1 < e <= |src| && src[d] == '.'
    requires forall k :: a <= k < d ==> IsDigit(src[k])
    requires forall k :: d < k < e ==> IsDigit(src[k])
    ensures Numeral(src[a..e])
  {
    var s := src[a..e];
    var k := d - a;
    assert s[..k] == src[a..d];
    assert s[k + 1..] == src[d + 1..e];
    assert s[k] == '.' && AllDigits(s[..k]) && AllDigits(s[k + 1..]);
  }

  lemma NumberLiteral(src: string, pos: nat, line: nat, parse: string -> F32)
    requires pos < |src| && IsDigit(src[pos])
    ensures var r := Step(src, pos, line, parse);
      && r.Emitted? && r.line == line
      && Numeral(r.token.lexeme)
      && r.token.kind == Number(parse(r.token.lexeme))
      && (r.next < |src| ==> !IsDigit(src[r.next]))
      && (r.next + 1 < |src| && src[r.next] == '.' && IsDigit(src[r.next + 1]) ==> '.' in r.token.lexeme)
  {
    StepOnDigit(src, pos, line, parse);
    NumberEndFacts(src, pos);
  }

  /** An identifier-shaped word is as long as possible and becomes a keyword or `Identifier(text)`. */
  lemma Word(src: string, pos: nat, line: nat, parse: string -> F32)
    requires pos < |src| && IsAlpha(src[pos])
    ensures var r := Step(src, pos, line, parse);
      && r.Emitted? && r.line == line
      && IsAlpha(r.token.lexeme[0])
      && (forall k :: 0 <= k < |r.token.lexeme| ==> IsAlphaNumeric(r.token.lexeme[k]))
      && (r.next < |src| ==> !IsAlphaNumeric(src[r.next]))
      && r.token.kind == WordKind(r.token.lexeme)
  {
    StepOnAlpha(src, pos, line, parse);
  }

  /** Any other character fails the scan with "Unexpected character." on the current line. */
  lemma UnexpectedCharacter(src: string, pos: nat, line: nat, parse: string -> F32)
    requires pos < |src| && !IsAlphaNumeric(src[pos]) && src[pos] !in "(){},.-+;*!=<>/ \r\t\n\""
    ensures Step(src, pos, line, parse) == Failed(Scanner(line, "Unexpected character."))
    ensures ScanFrom(src, 0, pos, line, parse) == Err(Scanner(line, "Unexpected character."))
  {
  }

  /** A dot as the last character: a `Dot` token, then EOF with the dot's text. */
  lemma DotAtEnd(src: string, start: nat, pos: nat, line: nat, parse: string -> F32)
    requires start <= pos && pos + 1 == |src| && src[pos] == '.'
    ensures ScanFrom(src, start, pos, line, parse) == Ok([Token(Dot, line, "."), Token(EOF, line, ".")])
  {
    assert src[pos..pos + 1] == ".";
    var dot := Token(Dot, line, ".");
    assert Step(src, pos, line, parse) == Emitted(dot, pos + 1, line);
    assert ScanFrom(src, pos, pos + 1, line, parse) == Ok([Token(EOF, line, ".")]);
    assert [dot] + [Token(EOF, line, ".")] == [dot, Token(EOF, line, ".")];
  }

  /**
   * A digit and then a dot at the end (`1.`) scan as a number, then a dot:
   * the dot is not part of the number since no digit follows it, and EOF
   * repeats the last window's text.
   */
  lemma TrailingDot(src: string, parse: string -> F32)
    requires |src| == 2 && IsDigit(src[0]) && src[1] == '.'
    ensures Scan(src, parse) == Ok([Token(Number(parse(src[..1])), 1, src[..1]), Token(Dot, 1, "."), Token(EOF, 1, ".")])
  {
    assert NumberEnd(src, 0) == 1;
    assert src[0..1] == src[..1];
    StepOnDigit(src, 0, 1, parse);
    var number := Token(Number(parse(src[..1])), 1, src[..1]);
    assert Step(src, 0, 1, parse) == Emitted(number, 1, 1);
    DotAtEnd(src, 0, 1, 1, parse);
    var rest := [Token(Dot, 1, "."), Token(EOF, 1, ".")];
    assert [number] + rest == [number, Token(Dot, 1, "."), Token(EOF, 1, ".")];
  }

  /** `RunEnd` stops exactly at the first character outside the run. */
  lemma {:induction false} RunEndAt(src: string, i: nat, e: nat, inRun: char -> bool)
    requires i <= e <= |src|
    requires forall k :: i <= k < e ==> inRun(src[k])
    requires e == |src| || !inRun(src[e])
    ensures RunEnd(src, i, inRun) == e
    decreases e - i
  {
    if i < e {
      RunEndAt(src, i + 1, e, inRun);
    }
  }

  /** A word `src[pos..e]` pushes one token, carrying its keyword or identifier kind, and the scan goes on at `e`. */
  lemma ScanWord(src: string, start: nat, pos: nat, e: nat, line: nat, parse: string -> F32)
    requires start <= pos < |src| && IsAlpha(src[pos]) && e == RunEnd(src, pos + 1, IsAlphaNumeric)
    ensures pos < e <= |src|
    ensures ScanFrom(src, start, pos, line, parse)
         == Then([Token(WordKind(src[pos..e]), line, src[pos..e])], ScanFrom(src, pos, e, line, parse))
  {
    StepOnAlpha(src, pos, line, parse);
    ScanFromStep(src, start, pos, line, parse, Step(src, pos, line, parse));
  }

  /** A punctuation character pushes its one-character token and the scan goes on after it. */
  lemma ScanPunctuation(src: string, start: nat, pos: nat, line: nat, parse: string -> F32)
    requires start <= pos < |src| && src[pos] in Punctuation
    ensures ScanFrom(src, start, pos, line, parse)
         == Then([Token(Punctuation[src[pos]], line, [src[pos]])], ScanFrom(src, pos, pos + 1, line, parse))
  {
    assert src[pos..pos + 1] == [src[pos]];
    StepOnSymbol(src, pos, line, parse);
    ScanFromStep(src, start, pos, line, parse, Step(src, pos, line, parse));
  }

  /** A space pushes nothing and the scan goes on after it, on the same line. */
  lemma ScanSpace(src: string, start: nat, pos: nat, line: nat, parse: string -> F32)
    requires start <= pos < |src| && src[pos] == ' '
    ensures ScanFrom(src, start, pos, line, parse) == ScanFrom(src, pos, pos + 1, line, parse)
  {
    StepOnSymbol(src, pos, line, parse);
    ScanFromStep(src, start, pos, line, parse, Step(src, pos, line, parse));
  }

  /** A lone digit, followed by neither a digit nor a dot, pushes a one-character number and the scan goes on after it. */
  lemma ScanDigit(src: string, start: nat, pos: nat, line: nat, parse: string -> F32)
    requires start <= pos < |src| && IsDigit(src[pos])
    requires pos + 1 == |src| || (!IsDigit(src[pos + 1]) && src[pos + 1] != '.')
    ensures ScanFrom(src, start, pos, line, parse)
         == Then([Token(Number(parse([src[pos]])), line, [src[pos]])], ScanFrom(src, pos, pos + 1, line, parse))
  {
    assert NumberEnd(src, pos) == pos + 1;
    assert src[pos..pos + 1] == [src[pos]];
    StepOnDigit(src, pos, line, parse);
    ScanFromStep(src, start, pos, line, parse, Step(src, pos, line, parse));
  }

  /** `ScanDigit` when the rest of the scan is known. */
  lemma DigitOnto(src: string, start: nat, pos: nat, line: nat, parse: string -> F32, rest: seq<Token>)
    requires start <= pos < |src| && IsDigit(src[pos])
    requires pos + 1 == |src| || (!IsDigit(src[pos + 1]) && src[pos + 1] != '.')
    requires ScanFrom(src, pos, pos + 1, line, parse) == Ok(rest)
    ensures ScanFrom(src, start, pos, line, parse) == Ok([Token(Number(parse([src[pos]])), line, [src[pos]])] + rest)
  {
    ScanDigit(src, start, pos, line, parse);
  }

  /** A space, then a lone digit, when the rest of the scan is known: one number token in front of the rest. */
  lemma SpacedDigit(src: string, start: nat, pos: nat, line: nat, parse: string -> F32, rest: seq<Token>)
    requires start <= pos && pos + 1 < |src| && src[pos] == ' ' && IsDigit(src[pos + 1])
    requires pos + 2 == |src| || (!IsDigit(src[pos + 2]) && src[pos + 2] != '.')
    requires ScanFrom(src, pos + 1, pos + 2, line, parse) == Ok(rest)
    ensures ScanFrom(src, start, pos, line, parse) == Ok([Token(Number(parse([src[pos + 1]])), line, [src[pos + 1]])] + rest)
  {
    ScanSpace(src, start, pos, line, parse);
    ScanDigit(src, pos, pos + 1, line, parse);
  }

  /** A space, then a punctuation character, when the rest of the scan is known. */
  lemma SpacedPunctuation(src: string, start: nat, pos: nat, line: nat, parse: string -> F32, rest: seq<Token>)
    requires start <= pos && pos + 1 < |src| && src[pos] == ' ' && src[pos + 1] in Punctuation
    requires ScanFrom(src, pos + 1, pos + 2, line, parse) == Ok(rest)
    ensures ScanFrom(src, start, pos, line, parse) == Ok([Token(Punctuation[src[pos + 1]], line, [src[pos + 1]])] + rest)
  {
    ScanSpace(src, start, pos, line, parse);
    ScanPunctuation(src, pos, pos + 1, line, parse);
  }

  /** `1 + 1 * 2` scans to Number, Plus, Number, Star, Number and EOF, all on line 1. */
  lemma ArithmeticScan(src: string, parse: string -> F32)
    requires src == "1 + 1 * 2"
    ensures Scan(src, parse) == Ok([
      Token(Number(parse("1")), 1, "1"), Token(Plus, 1, "+"), Token(Number(parse("1")), 1, "1"),
      Token(Star, 1, "*"), Token(Number(parse("2")), 1, "2"), Token(EOF, 1, "2")])
  {
    assert [src[0]] == "1" && [src[2]] == "+" && [src[4]] == "1" && [src[6]] == "*" && [src[8]] == "2";
    SpacedOperation(src, parse);
  }

  /**
   * A digit, then a punctuation character and a digit twice over, with a
   * space before each: five tokens on line 1, then EOF with the last digit.
   */
  lemma SpacedOperation(src: string, parse: string -> F32)
    requires |src| == 9 && IsDigit(src[0]) && IsDigit(src[4]) && IsDigit(src[8])
    requires src[1] == ' ' && src[3] == ' ' && src[5] == ' ' && src[7] == ' '
    requires src[2] in Punctuation && src[6] in Punctuation
    ensures Scan(src, parse) == Ok([
      Token(Number(parse([src[0]])), 1, [src[0]]), Token(Punctuation[src[2]], 1, [src[2]]),
      Token(Number(parse([src[4]])), 1, [src[4]]), Token(Punctuation[src[6]], 1, [src[6]]),
      Token(Number(parse([src[8]])), 1, [src[8]]), Token(EOF, 1, [src[8]])])
  {
    var rest := [Token(Punctuation[src[2]], 1, [src[2]]),
      Token(Number(parse([src[4]])), 1, [src[4]]), Token(Punctuation[src[6]], 1, [src[6]]),
      Token(Number(parse([src[8]])), 1, [src[8]]), Token(EOF, 1, [src[8]])];
    var n0 := Token(Number(parse([src[0]])), 1, [src[0]]);
    assert ScanFrom(src, 0, 1, 1, parse) == Ok(rest) by {
      SpacedOperations(src, parse);
    }
    assert ScanFrom(src, 0, 0, 1, parse) == Ok([n0] + rest) by {
      DigitOnto(src, 0, 0, 1, parse, rest);
    }
    assert [n0] + rest == [n0, rest[0], rest[1], rest[2], rest[3], rest[4]];
  }

  /** `SpacedOperation` after its first digit. */
  lemma SpacedOperations(src: string, parse: string -> F32)
    requires |src| == 9 && IsDigit(src[4]) && IsDigit(src[8])
    requires src[1] == ' ' && src[3] == ' ' && src[5] == ' ' && src[7] == ' '
    requires src[2] in Punctuation && src[6] in Punctuation
    ensures ScanFrom(src, 0, 1, 1, parse) == Ok([Token(Punctuation[src[2]], 1, [src[2]]),
      Token(Number(parse([src[4]])), 1, [src[4]]), Token(Punctuation[src[6]], 1, [src[6]]),
      Token(Number(parse([src[8]])), 1, [src[8]]), Token(EOF, 1, [src[8]])])
  {
    var eof := Token(EOF, 1, [src[8]]);
    var n4, n8 := Token(Number(parse([src[4]])), 1, [src[4]]), Token(Number(parse([src[8]])), 1, [src[8]]);
    var o2, o6 := Token(Punctuation[src[2]], 1, [src[2]]), Token(Punctuation[src[6]], 1, [src[6]]);
    var tail := [o6, n8, eof];
    assert ScanFrom(src, 8, 9, 1, parse) == Ok([eof]) by {
      assert src[8..9] == [src[8]];
    }
    assert ScanFrom(src, 4, 5, 1, parse) == Ok([o6, n8] + [eof]) by {
      SpacedOperand(src, 4, 5, parse, [eof]);
    }
    assert [o6, n8] + [eof] == tail;
    assert ScanFrom(src, 0, 1, 1, parse) == Ok([o2, n4] + tail) by {
      SpacedOperand(src, 0, 1, parse, tail);
    }
    assert [o2, n4] + tail == [o2, n4, o6, n8, eof];
  }

  /** ` op d`, a space, a punctuation character, a space and a lone digit, when the rest of the scan is known. */
  lemma SpacedOperand(src: string, start: nat, pos: nat, parse: string -> F32, rest: seq<Token>)
    requires start <= pos && pos + 3 < |src| && src[pos] == ' ' && src[pos + 1] in Punctuation
    requires src[pos + 2] == ' ' && IsDigit(src[pos + 3])
    requires pos + 4 == |src| || (!IsDigit(src[pos + 4]) && src[pos + 4] != '.')
    requires ScanFrom(src, pos + 3, pos + 4, 1, parse) == Ok(rest)
    ensures ScanFrom(src, start, pos, 1, parse)
         == Ok([Token(Punctuation[src[pos + 1]], 1, [src[pos + 1]]), Token(Number(parse([src[pos + 3]])), 1, [src[pos + 3]])] + rest)
  {
    var op, num := Token(Punctuation[src[pos + 1]], 1, [src[pos + 1]]), Token(Number(parse([src[pos + 3]])), 1, [src[pos + 3]]);
    assert ScanFrom(src, pos + 1, pos + 2, 1, parse) == Ok([num] + rest) by {
      SpacedDigit(src, pos + 1, pos + 2, 1, parse, rest);
    }
    assert [op] + ([num] + rest) == [op, num] + rest;
    SpacedPunctuation(src, start, pos, 1, parse, [num] + rest);
  }

  /** `RunEnd` over a slice that contains the whole run: the same end, shifted. */
  lemma RunEndSlice(src: string, a: nat, i: nat, b: nat, inRun: char -> bool)
    requires a <= i <= b <= |src| && RunEnd(src, i, inRun) <= b
    ensures RunEnd(src[a..b], i - a, inRun) == RunEnd(src, i, inRun) - a
  {
    var e := RunEnd(src, i, inRun);
    var s := src[a..b];
    forall k | i - a <= k < e - a ensures inRun(s[k]) {
      assert s[k] == src[k + a];
    }
    if e - a < |s| {
      assert s[e - a] == src[e];
    }
    RunEndAt(s, i - a, e - a, inRun);
  }

  /** Scanning a token's lexeme on its own gives a token of the same kind that spans the whole lexeme. */
  predicate Relexes(t: Token, parse: string -> F32) {
    && 0 < |t.lexeme|
    && var r := Step(t.lexeme, 0, 1, parse);
      r.Emitted? && r.next == |t.lexeme| && r.token.kind == t.kind
  }

  /** A number's lexeme, scanned on its own, is one number token spanning all of it. */
  lemma RelexNumber(src: string, pos: nat, line: nat, parse: string -> F32)
    requires pos < |src| && IsDigit(src[pos])
    ensures Relexes(LexNumber(src, pos, line, parse).token, parse)
  {
    var s := src[pos..NumberEnd(src, pos)];
    NumberEndSlice(src, pos);
    assert s[0..|s|] == s;
    StepOnDigit(s, 0, 1, parse);
  }

  /** A numeral's own text, scanned as a number, ends where the text ends. */
  lemma NumberEndSlice(src: string, pos: nat)
    requires pos < |src| && IsDigit(src[pos])
    ensures var s := src[pos..NumberEnd(src, pos)]; 0 < |s| && IsDigit(s[0]) && NumberEnd(s, 0) == |s|
  {
    var e := NumberEnd(src, pos);
    var s := src[pos..e];
    var d := RunEnd(src, pos + 1, IsDigit);
    assert RunEnd(s, 1, IsDigit) == d - pos by {
      RunEndSlice(src, pos, pos + 1, e, IsDigit);
    }
    if d + 1 < |src| && src[d] == '.' && IsDigit(src[d + 1]) {
      assert RunEnd(s, d - pos + 1, IsDigit) == e - pos by {
        RunEndSlice(src, pos, d + 1, e, IsDigit);
      }
      assert s[d - pos] == '.' && s[d - pos + 1] == src[d + 1];
    }
  }

  /** A word's lexeme, scanned on its own, is one token of the same keyword or identifier kind. */
  lemma RelexWord(src: string, pos: nat, line: nat)
    requires pos < |src| && IsAlpha(src[pos])
    ensures forall parse :: Relexes(LexWord(src, pos, line).token, parse)
  {
    var e := RunEnd(src, pos + 1, IsAlphaNumeric);
    var s := src[pos..e];
    RunEndSlice(src, pos, pos + 1, e, IsAlphaNumeric);
    assert s[0..|s|] == s;
    forall parse: string -> F32 ensures Relexes(LexWord(src, pos, line).token, parse) {
      StepOnAlpha(s, 0, 1, parse);
    }
  }

  /** A string's lexeme, quotes included, scanned on its own, is one string token with the same payload. */
  lemma RelexString(src: string, pos: nat, line: nat, parse: string -> F32)
    requires pos < |src| && src[pos] == '"' && LexString(src, pos, line).Emitted?
    ensures Relexes(LexString(src, pos, line).token, parse)
  {
    var e := RunEnd(src, pos + 1, NotQuote);
    var s := src[pos..e + 1];
    assert LexString(src, pos, line).token.lexeme == s;
    RunEndSlice(src, pos, pos + 1, e + 1, NotQuote);
    RelexQuoted(s, src[pos + 1..e]);
    OpensString(s, parse);
  }

  /** A lexeme that opens with a quote is scanned by the string routine. */
  lemma OpensString(s: string, parse: string -> F32)
    requires 0 < |s| && s[0] == '"'
    ensures Step(s, 0, 1, parse) == LexString(s, 0, 1)
  {
    StepOnSymbol(s, 0, 1, parse);
    assert LexSymbol(s, 0, 1) == LexString(s, 0, 1);
  }

  /** A lexeme that opens with a quote and first meets a quote at its last character scans to its payload. */
  lemma RelexQuoted(s: string, payload: string)
    requires 2 <= |s| && s[0] == '"' && RunEnd(s, 1, NotQuote) == |s| - 1 && payload == s[1..|s| - 1]
    ensures var r := LexString(s, 0, 1);
      r.Emitted? && r.next == |s| && r.token.kind == String(payload)
  {
  }

  /** A punctuation or operator lexeme, scanned on its own, is one token of the same kind. */
  lemma RelexSymbol(src: string, pos: nat, line: nat, parse: string -> F32)
    requires pos < |src| && !IsDigit(src[pos]) && !IsAlpha(src[pos]) && src[pos] != '"'
    requires LexSymbol(src, pos, line).Emitted?
    ensures Relexes(LexSymbol(src, pos, line).token, parse)
  {
    var c := src[pos];
    var s := LexSymbol(src, pos, line).token.lexeme;
    if c in Operators && pos + 1 < |src| && src[pos + 1] == '=' {
      assert s == [c, '='];
    } else {
      assert s == [c];
    }
    StepOnSymbol(s, 0, 1, parse);
  }

  /** Every token a turn of the loop pushes scans back, on its own, to a token of its kind. */
  lemma RelexStep(src: string, pos: nat, line: nat, parse: string -> F32)
    requires pos < |src| && Step(src, pos, line, parse).Emitted?
    ensures Relexes(Step(src, pos, line, parse).token, parse)
  {
    if IsDigit(src[pos]) {
      StepOnDigit(src, pos, line, parse);
      RelexNumber(src, pos, line, parse);
    } else if IsAlpha(src[pos]) {
      StepOnAlpha(src, pos, line, parse);
      RelexWord(src, pos, line);
    } else if src[pos] == '"' {
      StepOnSymbol(src, pos, line, parse);
      assert LexSymbol(src, pos, line) == LexString(src, pos, line);
      RelexString(src, pos, line, parse);
    } else {
      StepOnSymbol(src, pos, line, parse);
      RelexSymbol(src, pos, line, parse);
    }
  }

  /** Every token the loop pushes before EOF scans back, on its own, to a token of its kind. */
  lemma {:induction false} ScanFromRelexes(src: string, start: nat, pos: nat, line: nat, parse: string -> F32)
    requires start <= pos <= |src|
    requires ScanFrom(src, start, pos, line, parse).Ok?
    ensures var ts := ScanFrom(src, start, pos, line, parse).value;
      forall i :: 0 <= i < |ts| - 1 ==> Relexes(ts[i], parse)
    decreases |src| - pos
  {
    if pos < |src| {
      match Step(src, pos, line, parse)
      case Skipped(n, l) =>
        ScanFromRelexes(src, pos, n, l, parse);
      case Emitted(t, n, l) =>
        ScanFromRelexes(src, pos, n, l, parse);
        RelexStep(src, pos, line, parse);
        var rest := ScanFrom(src, pos, n, l, parse).value;
        var ts := [t] + rest;
        forall i | 0 < i < |ts| - 1 ensures Relexes(ts[i], parse) {
          assert ts[i] == rest[i - 1];
        }
    }
  }

  /**
   * The lexeme of any token a successful scan produces, EOF aside, scans on
   * its own to one token of the same kind with the same lexeme, then EOF.
   * (EOF's lexeme is the last window's text, which scans as that window's
   * token instead.)
   */
  lemma LexemeRoundTrip(src: string, parse: string -> F32, i: nat)
    requires Scan(src, parse).Ok?
    requires i < |Scan(src, parse).value| && Scan(src, parse).value[i].kind != EOF
    ensures var t := Scan(src, parse).value[i];
      var again := Scan(t.lexeme, parse);
      && again.Ok? && |again.value| == 2
      && again.value[0].kind == t.kind && again.value[0].lexeme == t.lexeme
      && again.value[1].kind == EOF
  {
    ScanFromEndsWithEOF(src, 0, 0, 1, parse);
    ScanFromRelexes(src, 0, 0, 1, parse);
    var t := Scan(src, parse).value[i];
    ScanOneToken(t.lexeme, parse);
    assert t.lexeme[0..|t.lexeme|] == t.lexeme;
  }
}
