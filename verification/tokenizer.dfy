/**
 * The older scanner (src/scanner.rs). It runs the same machine as the newer
 * one, character for character, but its tokens carry no lexeme and its
 * errors are `ScannerError`s rendered as `[line: N] message`. Its outcome is
 * therefore `Lexer.Scan` with the lexemes dropped and the error re-shaped,
 * which is what `Tokenize` states and what `Scanner.Tokenize` is proved to
 * return.
 */
module Tokenizer {
  import opened Wrappers
  import Errors
  import opened Float32
  import opened Tokens
  import opened Chars
  import opened Lexer

  /** A token of the older scanner: its kind and its line, no text. */
  datatype BareToken = BareToken(kind: TokenKind, line: nat)

  datatype ScannerError = ScannerError(msg: string, line: nat)

  /** `Result<Vec<Token>, ScannerError>`, the outcome of `tokenize`. */
  datatype Tokenized = Scanned(tokens: seq<BareToken>) | Rejected(error: ScannerError)

  /** `ScannerResult`: a step of the scanner went through or stopped on an error. */
  datatype Status = Done | Halt(error: ScannerError)

  function Bare(t: Token): BareToken {
    BareToken(t.kind, t.line)
  }

  /** The tokens with their lexemes dropped, in the same order. */
  function Strip(ts: seq<Token>): (bs: seq<BareToken>)
    ensures |bs| == |ts|
    ensures forall i :: 0 <= i < |ts| ==> bs[i] == Bare(ts[i])
  {
    if ts == [] then [] else [Bare(ts[0])] + Strip(ts[1..])
  }

  lemma StripCons(t: Token, ts: seq<Token>)
    ensures Strip([t] + ts) == [Bare(t)] + Strip(ts)
  {
    assert ([t] + ts)[1..] == ts;
  }

  /** The older scanner's error for an error of the newer one: same line, same message. */
  function Reshape(e: Errors.Error): ScannerError {
    ScannerError(e.msg, e.line)
  }

  /** What the older scanner reports once it has pushed `done` and the rest of the scan gives `rest`. */
  function Project(done: seq<BareToken>, rest: Errors.Result<seq<Token>>): Tokenized {
    match rest
    case Ok(ts) => Scanned(done + Strip(ts))
    case Err(e) => Rejected(Reshape(e))
  }

  /**
   * `Scanner::tokenize` as a function: the newer scanner's tokens without
   * their lexemes, or its first error as a `ScannerError`.
   */
  function Tokenization(source: string, parse: string -> F32): (r: Tokenized)
    ensures var s := Lexer.Scan(source, parse);
      && (r.Scanned? <==> s.Ok?)
      && (r.Scanned? ==> (|r.tokens| == |s.value|
            && forall i :: 0 <= i < |r.tokens| ==> r.tokens[i].kind == s.value[i].kind && r.tokens[i].line == s.value[i].line))
      && (r.Rejected? ==> r.error.line == s.error.line && r.error.msg == s.error.msg)
  {
    Project([], Lexer.Scan(source, parse))
  }

  /** One turn of the loop seen through `Project`, as `ThenStep` is for the newer scanner. */
  lemma ProjectStep(src: string, start: nat, pos: nat, line: nat, parse: string -> F32,
                    before: seq<BareToken>, after: seq<BareToken>, r: Lexed)
    requires start <= pos < |src| && r == Step(src, pos, line, parse) && !r.Failed?
    requires after == if r.Emitted? then before + [Bare(r.token)] else before
    ensures pos < r.next <= |src|
    ensures Project(after, ScanFrom(src, pos, r.next, r.line, parse)) == Project(before, ScanFrom(src, start, pos, line, parse))
  {
    ScanFromStep(src, start, pos, line, parse, r);
    if r.Emitted? {
      ProjectThen(before, r.token, ScanFrom(src, pos, r.next, r.line, parse));
    }
  }

  /** A token pushed now is the token the rest of the scan would put first. */
  lemma ProjectThen(before: seq<BareToken>, t: Token, rest: Errors.Result<seq<Token>>)
    ensures Project(before + [Bare(t)], rest) == Project(before, Then([t], rest))
  {
    if rest.Ok? {
      StripCons(t, rest.value);
      assert before + [Bare(t)] + Strip(rest.value) == before + ([Bare(t)] + Strip(rest.value));
    }
  }

  /** A word seen through `Project`: one bare token of its kind, and the scan goes on after it. */
  lemma ProjectWord(src: string, start: nat, pos: nat, e: nat, line: nat, parse: string -> F32,
                    before: seq<BareToken>, after: seq<BareToken>)
    requires start <= pos < |src| && IsAlpha(src[pos]) && e == RunEnd(src, pos + 1, IsAlphaNumeric)
    requires after == before + [BareToken(WordKind(src[pos..e]), line)]
    ensures pos < e <= |src|
    ensures Project(before, ScanFrom(src, start, pos, line, parse)) == Project(after, ScanFrom(src, pos, e, line, parse))
  {
    ScanWord(src, start, pos, e, line, parse);
    ProjectThen(before, Token(WordKind(src[pos..e]), line, src[pos..e]), ScanFrom(src, pos, e, line, parse));
  }

  /** A punctuation character seen through `Project`. */
  lemma ProjectPunctuation(src: string, start: nat, pos: nat, line: nat, parse: string -> F32,
                           before: seq<BareToken>, after: seq<BareToken>)
    requires start <= pos < |src| && src[pos] in Punctuation
    requires after == before + [BareToken(Punctuation[src[pos]], line)]
    ensures Project(before, ScanFrom(src, start, pos, line, parse)) == Project(after, ScanFrom(src, pos, pos + 1, line, parse))
  {
    ScanPunctuation(src, start, pos, line, parse);
    ProjectThen(before, Token(Punctuation[src[pos]], line, [src[pos]]), ScanFrom(src, pos, pos + 1, line, parse));
  }

  /** At the end of the source only EOF is left to push, on the current line. */
  lemma ProjectAtEnd(src: string, start: nat, line: nat, parse: string -> F32, before: seq<BareToken>)
    requires start <= |src|
    ensures Project(before, ScanFrom(src, start, |src|, line, parse)) == Scanned(before + [BareToken(EOF, line)])
  {
  }

  /**
   * A piece of a one-line source made only of words, punctuation and
   * spaces, such as the sources of the unit tests of src/scanner.rs.
   */
  datatype Piece = Word(text: string) | Mark(c: char) | Blank

  function Text(p: Piece): string {
    match p
    case Word(w) => w
    case Mark(c) => [c]
    case Blank => " "
  }

  function Render(ps: seq<Piece>): string {
    if ps == [] then [] else Text(ps[0]) + Render(ps[1..])
  }

  predicate PieceOk(p: Piece) {
    match p
    case Word(w) => |w| > 0 && IsAlpha(w[0]) && forall k :: 0 <= k < |w| ==> IsAlphaNumeric(w[k])
    case Mark(c) => c in Punctuation
    case Blank => true
  }

  /** Every piece is well formed and no two words touch, so each word is scanned whole. */
  predicate Separated(ps: seq<Piece>) {
    ps == [] || (PieceOk(ps[0]) && (|ps| > 1 ==> !(ps[0].Word? && ps[1].Word?)) && Separated(ps[1..]))
  }

  /** The token a piece should give: a keyword or identifier for a word, its kind for a mark, none for a space. */
  function Yield(p: Piece, line: nat): seq<BareToken> {
    match p
    case Word(w) => [BareToken(WordKind(w), line)]
    case Mark(c) => if c in Punctuation then [BareToken(Punctuation[c], line)] else []
    case Blank => []
  }

  /** The tokens the pieces should give, in order. */
  function Expected(ps: seq<Piece>, line: nat): seq<BareToken> {
    if ps == [] then [] else Yield(ps[0], line) + Expected(ps[1..], line)
  }

  /** The outcome of a scan that pushed `before`, then the tokens of `ps`, then EOF. */
  function Finished(before: seq<BareToken>, ps: seq<Piece>, line: nat): Tokenized {
    Scanned(before + Expected(ps, line) + [BareToken(EOF, line)])
  }

  /**
   * The scanner sees piece `p` at `pos`: a word as the whole run of letters
   * and digits there, a mark as a punctuation character, a blank as a space.
   */
  predicate Spelled(src: string, pos: nat, p: Piece) {
    match p
    case Word(w) =>
      && pos < pos + |w| <= |src| && IsAlpha(src[pos])
      && RunEnd(src, pos + 1, IsAlphaNumeric) == pos + |w| && src[pos..pos + |w|] == w
    case Mark(c) => pos < |src| && src[pos] == c && c in Punctuation
    case Blank => pos < |src| && src[pos] == ' '
  }

  /** The source from `pos` on is the pieces, one after the other, each as the scanner sees it. */
  predicate Laid(src: string, pos: nat, ps: seq<Piece>)
    decreases |ps|
  {
    if ps == [] then pos == |src|
    else Spelled(src, pos, ps[0]) && Laid(src, pos + |Text(ps[0])|, ps[1..])
  }

  /** A source written as separated pieces is laid out as those pieces. */
  lemma {:induction false} RenderLaid(src: string, pos: nat, ps: seq<Piece>)
    requires pos <= |src| && src[pos..] == Render(ps) && Separated(ps)
    ensures Laid(src, pos, ps)
    decreases |ps|
  {
    if ps != [] {
      RenderFirst(src, pos, ps);
      RenderLaid(src, pos + |Text(ps[0])|, ps[1..]);
      LaidStep(src, pos, ps);
    }
  }

  /** The first of the separated pieces written at `pos` is spelled there, and the others follow it. */
  lemma RenderFirst(src: string, pos: nat, ps: seq<Piece>)
    requires pos <= |src| && src[pos..] == Render(ps) && Separated(ps) && ps != []
    ensures Spelled(src, pos, ps[0]) && pos + |Text(ps[0])| <= |src|
    ensures src[pos + |Text(ps[0])|..] == Render(ps[1..]) && Separated(ps[1..])
  {
    RenderSplit(src, pos, ps);
    SeparatedTail(ps);
    if ps[0].Word? {
      NextNotInWord(src, pos + |Text(ps[0])|, ps[1..]);
    }
    PieceSpelled(src, pos, ps[0]);
  }

  lemma SeparatedTail(ps: seq<Piece>)
    requires Separated(ps) && ps != []
    ensures PieceOk(ps[0]) && Separated(ps[1..])
    ensures ps[0].Word? && ps[1..] != [] ==> !ps[1..][0].Word?
  {
  }

  lemma LaidStep(src: string, pos: nat, ps: seq<Piece>)
    requires ps != [] && Spelled(src, pos, ps[0]) && Laid(src, pos + |Text(ps[0])|, ps[1..])
    ensures Laid(src, pos, ps)
  {
  }

  lemma RenderSplit(src: string, pos: nat, ps: seq<Piece>)
    requires pos <= |src| && src[pos..] == Render(ps) && ps != []
    ensures pos + |Text(ps[0])| <= |src|
    ensures src[pos..pos + |Text(ps[0])|] == Text(ps[0]) && src[pos + |Text(ps[0])|..] == Render(ps[1..])
  {
    assert src[pos..] == Text(ps[0]) + Render(ps[1..]);
  }

  /** A source that continues with a mark or a space does not continue a word. */
  lemma NotInWord(ps: seq<Piece>)
    requires Separated(ps) && ps != [] && !ps[0].Word?
    ensures Render(ps) != [] && !IsAlphaNumeric(Render(ps)[0])
  {
    assert Render(ps)[0] == Text(ps[0])[0];
  }

  /** Whatever follows a word is not part of it. */
  lemma NextNotInWord(src: string, n: nat, ps: seq<Piece>)
    requires n <= |src| && src[n..] == Render(ps) && Separated(ps) && (ps == [] || !ps[0].Word?)
    ensures n == |src| || !IsAlphaNumeric(src[n])
  {
    if ps != [] {
      NotInWord(ps);
      assert src[n] == src[n..][0];
    }
  }

  /** A well-formed piece written at `pos` is seen as that piece, a word when nothing of a word follows it. */
  lemma PieceSpelled(src: string, pos: nat, p: Piece)
    requires PieceOk(p) && pos + |Text(p)| <= |src| && src[pos..pos + |Text(p)|] == Text(p)
    requires p.Word? ==> pos + |Text(p)| == |src| || !IsAlphaNumeric(src[pos + |Text(p)|])
    ensures Spelled(src, pos, p)
  {
    assert src[pos] == src[pos..pos + |Text(p)|][0];
    if p.Word? {
      assert forall k :: pos <= k < pos + |p.text| ==> src[k] == p.text[k - pos];
      RunEndAt(src, pos + 1, pos + |p.text|, IsAlphaNumeric);
    }
  }

  /** What is left of the scan from a window, after the bare tokens `before`. */
  function Rest(src: string, start: nat, pos: nat, line: nat, parse: string -> F32, before: seq<BareToken>): Tokenized
    requires start <= pos <= |src|
  {
    Project(before, ScanFrom(src, start, pos, line, parse))
  }

  /** Scanning a mark: its punctuation kind, and the scan goes on after it. */
  lemma MarkScan(src: string, start: nat, pos: nat, line: nat, parse: string -> F32,
                  p: Piece, before: seq<BareToken>)
    requires start <= pos && Spelled(src, pos, p) && p.Mark?
    ensures pos + |Text(p)| <= |src|
    ensures Rest(src, start, pos, line, parse, before) == Rest(src, pos, pos + |Text(p)|, line, parse, before + Yield(p, line))
  {
    ProjectPunctuation(src, start, pos, line, parse, before, before + Yield(p, line));
  }

  /** Scanning a space: no token, and the scan goes on after it. */
  lemma BlankScan(src: string, start: nat, pos: nat, line: nat, parse: string -> F32,
                  p: Piece, before: seq<BareToken>)
    requires start <= pos && Spelled(src, pos, p) && p.Blank?
    ensures pos + |Text(p)| <= |src|
    ensures Rest(src, start, pos, line, parse, before) == Rest(src, pos, pos + |Text(p)|, line, parse, before + Yield(p, line))
  {
    assert before + Yield(p, line) == before;
    ScanSpace(src, start, pos, line, parse);
  }

  /** The scan from a window, after the bare tokens `before`, as a total function of the window. */
  function Scanning(src: string, line: nat, parse: string -> F32): (nat, nat, seq<BareToken>) -> Tokenized {
    (start: nat, pos: nat, before: seq<BareToken>) =>
      if start <= pos <= |src| then Rest(src, start, pos, line, parse, before) else Scanned(before)
  }

  /**
   * What scanning one-line pieces needs of a scan: each word, mark or space
   * gives its expected tokens and moves past its text, and the end gives EOF.
   */
  ghost predicate Steps(src: string, line: nat, scan: (nat, nat, seq<BareToken>) -> Tokenized) {
    && (forall start: nat, pos: nat, p: Piece, before: seq<BareToken> :: StepAt(src, line, scan, start, pos, p, before))
    && (forall start: nat, before: seq<BareToken> :: EndAt(src, line, scan, start, before))
  }

  /** The piece `p` at `pos` gives its tokens and the scan goes on after its text. */
  ghost predicate StepAt(src: string, line: nat, scan: (nat, nat, seq<BareToken>) -> Tokenized,
                         start: nat, pos: nat, p: Piece, before: seq<BareToken>) {
    start <= pos && Spelled(src, pos, p) ==>
      scan(start, pos, before) == scan(pos, pos + |Text(p)|, before + Yield(p, line))
  }

  /** At the end of the source the scan adds EOF. */
  ghost predicate EndAt(src: string, line: nat, scan: (nat, nat, seq<BareToken>) -> Tokenized,
                        start: nat, before: seq<BareToken>) {
    start <= |src| ==> scan(start, |src|, before) == Scanned(before + [BareToken(EOF, line)])
  }

  /** The scanner's scan of a one-line source has those steps. */
  lemma ScanningSteps(src: string, line: nat, parse: string -> F32)
    ensures Steps(src, line, Scanning(src, line, parse))
  {
    ScanningWords(src, line, parse);
    ScanningMarks(src, line, parse);
    ScanningBlanks(src, line, parse);
    forall start: nat, before: seq<BareToken> | start <= |src|
      ensures Scanning(src, line, parse)(start, |src|, before) == Scanned(before + [BareToken(EOF, line)])
    {
      ProjectAtEnd(src, start, line, parse, before);
    }
    StepsOfKinds(src, line, Scanning(src, line, parse));
  }

  /** The steps of each kind of piece, and of the end, make up `Steps`. */
  lemma StepsOfKinds(src: string, line: nat, scan: (nat, nat, seq<BareToken>) -> Tokenized)
    requires WordSteps(src, line, scan)
    requires StepsOver(src, line, scan, (p: Piece) => p.Mark?)
    requires StepsOver(src, line, scan, (p: Piece) => p.Blank?)
    requires forall start: nat, before: seq<BareToken> ::
      start <= |src| ==> scan(start, |src|, before) == Scanned(before + [BareToken(EOF, line)])
    ensures Steps(src, line, scan)
  {
    forall start: nat, pos: nat, p: Piece, before: seq<BareToken>
      ensures StepAt(src, line, scan, start, pos, p, before)
    {
      if start <= pos && Spelled(src, pos, p) && p.Word? {
        WordPieceStep(src, line, scan, start, pos, p, before);
      }
    }
    forall start: nat, before: seq<BareToken>
      ensures EndAt(src, line, scan, start, before)
    {
    }
  }

  /** The steps of the pieces of one kind, as `StepAt` states them. */
  ghost predicate StepsOver(src: string, line: nat, scan: (nat, nat, seq<BareToken>) -> Tokenized, kind: Piece -> bool) {
    forall start: nat, pos: nat, p: Piece, before: seq<BareToken> ::
      start <= pos && Spelled(src, pos, p) && kind(p) ==>
        scan(start, pos, before) == scan(pos, pos + |Text(p)|, before + Yield(p, line))
  }

  /** The steps of words: the run of letters and digits from a letter, as one token. */
  ghost predicate WordSteps(src: string, line: nat, scan: (nat, nat, seq<BareToken>) -> Tokenized) {
    forall start: nat, pos: nat, before: seq<BareToken> {:trigger IsAlpha(src[pos]), scan(start, pos, before)} ::
      start <= pos < |src| && IsAlpha(src[pos]) ==>
        scan(start, pos, before)
        == scan(pos, RunEnd(src, pos + 1, IsAlphaNumeric),
                before + [BareToken(WordKind(src[pos..RunEnd(src, pos + 1, IsAlphaNumeric)]), line)])
  }

  lemma ScanningWords(src: string, line: nat, parse: string -> F32)
    ensures WordSteps(src, line, Scanning(src, line, parse))
  {
    forall start: nat, pos: nat, before: seq<BareToken> {:trigger IsAlpha(src[pos]), Scanning(src, line, parse)(start, pos, before)}
      | start <= pos < |src| && IsAlpha(src[pos])
      ensures Scanning(src, line, parse)(start, pos, before)
           == Scanning(src, line, parse)(pos, RunEnd(src, pos + 1, IsAlphaNumeric),
                before + [BareToken(WordKind(src[pos..RunEnd(src, pos + 1, IsAlphaNumeric)]), line)])
    {
      var e := RunEnd(src, pos + 1, IsAlphaNumeric);
      var after := before + [BareToken(WordKind(src[pos..e]), line)];
      ProjectWord(src, start, pos, e, line, parse, before, after);
      ScanningAgrees(src, line, parse, start, pos, before, pos, e, after);
    }
  }

  /** A word piece steps as `WordSteps` says, its text being the run. */
  lemma WordPieceStep(src: string, line: nat, scan: (nat, nat, seq<BareToken>) -> Tokenized,
                      start: nat, pos: nat, p: Piece, before: seq<BareToken>)
    requires WordSteps(src, line, scan) && start <= pos && Spelled(src, pos, p) && p.Word?
    ensures scan(start, pos, before) == scan(pos, pos + |Text(p)|, before + Yield(p, line))
  {
    assert src[pos..RunEnd(src, pos + 1, IsAlphaNumeric)] == p.text;
  }

  lemma ScanningMarks(src: string, line: nat, parse: string -> F32)
    ensures StepsOver(src, line, Scanning(src, line, parse), (p: Piece) => p.Mark?)
  {
    forall start: nat, pos: nat, p: Piece, before: seq<BareToken> | start <= pos && Spelled(src, pos, p) && p.Mark?
      ensures Scanning(src, line, parse)(start, pos, before)
           == Scanning(src, line, parse)(pos, pos + |Text(p)|, before + Yield(p, line))
    {
      MarkScan(src, start, pos, line, parse, p, before);
      ScanningAgrees(src, line, parse, start, pos, before, pos, pos + |Text(p)|, before + Yield(p, line));
    }
  }

  lemma ScanningBlanks(src: string, line: nat, parse: string -> F32)
    ensures StepsOver(src, line, Scanning(src, line, parse), (p: Piece) => p.Blank?)
  {
    forall start: nat, pos: nat, p: Piece, before: seq<BareToken> | start <= pos && Spelled(src, pos, p) && p.Blank?
      ensures Scanning(src, line, parse)(start, pos, before)
           == Scanning(src, line, parse)(pos, pos + |Text(p)|, before + Yield(p, line))
    {
      BlankScan(src, start, pos, line, parse, p, before);
      ScanningAgrees(src, line, parse, start, pos, before, pos, pos + |Text(p)|, before + Yield(p, line));
    }
  }

  /** Two windows the scan treats alike, seen through `Scanning`. */
  lemma ScanningAgrees(src: string, line: nat, parse: string -> F32,
                       start: nat, pos: nat, before: seq<BareToken>, start': nat, pos': nat, before': seq<BareToken>)
    requires start <= pos <= |src| && start' <= pos' <= |src|
    requires Rest(src, start, pos, line, parse, before) == Rest(src, start', pos', line, parse, before')
    ensures Scanning(src, line, parse)(start, pos, before) == Scanning(src, line, parse)(start', pos', before')
  {
  }

  /**
   * Scanning words, punctuation and spaces on one line gives exactly the
   * expected kinds, all on that line, and then EOF.
   */
  lemma {:induction false} ScanPieces(src: string, line: nat, scan: (nat, nat, seq<BareToken>) -> Tokenized,
                                      start: nat, pos: nat, ps: seq<Piece>, before: seq<BareToken>)
    requires Steps(src, line, scan) && start <= pos <= |src| && Laid(src, pos, ps)
    ensures scan(start, pos, before) == Finished(before, ps, line)
    decreases |ps|
  {
    if ps == [] {
      assert EndAt(src, line, scan, start, before);
      assert before + Expected(ps, line) == before;
    } else {
      LaidCons(src, pos, ps);
      assert StepAt(src, line, scan, start, pos, ps[0], before);
      ScanPieces(src, line, scan, pos, pos + |Text(ps[0])|, ps[1..], before + Yield(ps[0], line));
      ExpectedCons(ps, line, before);
    }
  }

  lemma LaidCons(src: string, pos: nat, ps: seq<Piece>)
    requires Laid(src, pos, ps) && ps != []
    ensures Spelled(src, pos, ps[0]) && pos + |Text(ps[0])| <= |src| && Laid(src, pos + |Text(ps[0])|, ps[1..])
  {
    match ps[0] {
      case Word(_) =>
      case Mark(_) =>
      case Blank =>
    }
  }

  lemma ExpectedCons(ps: seq<Piece>, line: nat, before: seq<BareToken>)
    requires ps != []
    ensures Finished(before + Yield(ps[0], line), ps[1..], line) == Finished(before, ps, line)
  {
    assert Expected(ps, line) == Yield(ps[0], line) + Expected(ps[1..], line);
    Associative(before, Yield(ps[0], line), Expected(ps[1..], line));
  }

  lemma Associative(a: seq<BareToken>, b: seq<BareToken>, c: seq<BareToken>)
    ensures a + b + c == a + (b + c)
  {
  }

  /** A source written as separated pieces scans to the pieces' tokens and EOF, all on line 1. */
  lemma TokenizePieces(src: string, parse: string -> F32, ps: seq<Piece>)
    requires src == Render(ps) && Separated(ps)
    ensures Tokenization(src, parse) == Scanned(Expected(ps, 1) + [BareToken(EOF, 1)])
  {
    RenderLaid(src, 0, ps);
    ScanningSteps(src, 1, parse);
    ScanPieces(src, 1, Scanning(src, 1, parse), 0, 0, ps, []);
    assert [] + Expected(ps, 1) == Expected(ps, 1);
  }

  /** The source of `test_expression` as pieces. */
  const ExpressionSource: seq<Piece> := [Word("foo"), Mark('.'), Word("bar"), Mark('.'), Word("baz")]

  lemma ExpressionLayout()
    ensures Render(ExpressionSource) == "foo.bar.baz" && Separated(ExpressionSource)
  {
  }

  lemma ExpressionExpected()
    ensures Expected(ExpressionSource, 1) + [BareToken(EOF, 1)] == [
      BareToken(Identifier("foo"), 1), BareToken(Dot, 1), BareToken(Identifier("bar"), 1),
      BareToken(Dot, 1), BareToken(Identifier("baz"), 1), BareToken(EOF, 1)]
  {
  }

  /** `test_expression`: `foo.bar.baz` is three identifiers joined by dots, all on line 1. */
  lemma ExpressionTokens(src: string, parse: string -> F32)
    requires src == "foo.bar.baz"
    ensures Tokenization(src, parse) == Scanned([
      BareToken(Identifier("foo"), 1), BareToken(Dot, 1), BareToken(Identifier("bar"), 1),
      BareToken(Dot, 1), BareToken(Identifier("baz"), 1), BareToken(EOF, 1)])
  {
    ExpressionLayout();
    ExpressionExpected();
    TokenizePieces(src, parse, ExpressionSource);
  }

  /** The source of `test_function` as pieces, in three runs of five. */
  const FunctionStart: seq<Piece> := [Word("fun"), Blank, Word("foo"), Mark('('), Word("a")]
  const FunctionMiddle: seq<Piece> := [Mark(')'), Blank, Mark('{'), Blank, Word("return")]
  const FunctionEnd: seq<Piece> := [Blank, Word("a"), Mark(';'), Blank, Mark('}')]

  lemma FunctionStartRun()
    ensures Render(FunctionStart) == "fun foo(a" && Separated(FunctionStart)
  {
  }

  lemma FunctionMiddleRun()
    ensures Render(FunctionMiddle) == ") { return" && Separated(FunctionMiddle)
  {
  }

  lemma FunctionEndRun()
    ensures Render(FunctionEnd) == " a; }" && Separated(FunctionEnd)
  {
  }

  lemma FunctionStartTokens()
    ensures Expected(FunctionStart, 1)
         == [BareToken(Function, 1), BareToken(Identifier("foo"), 1), BareToken(LeftParen, 1), BareToken(Identifier("a"), 1)]
  {
    FunctionYields();
  }

  /** The tokens of the words of `test_function`: two keywords and two identifiers. */
  lemma FunctionYields()
    ensures Yield(Word("fun"), 1) == [BareToken(Function, 1)] && Yield(Word("return"), 1) == [BareToken(Return, 1)]
    ensures Yield(Word("foo"), 1) == [BareToken(Identifier("foo"), 1)] && Yield(Word("a"), 1) == [BareToken(Identifier("a"), 1)]
  {
    assert WordKind("fun") == Function && WordKind("return") == Return;
  }

  lemma FunctionMiddleTokens()
    ensures Expected(FunctionMiddle, 1) == [BareToken(RightParen, 1), BareToken(LeftBrace, 1), BareToken(Return, 1)]
  {
    FunctionYields();
  }

  lemma FunctionEndTokens()
    ensures Expected(FunctionEnd, 1) == [BareToken(Identifier("a"), 1), BareToken(Semicolon, 1), BareToken(RightBrace, 1)]
  {
    FunctionYields();
  }

  lemma FunctionLayout()
    ensures Render(FunctionStart + FunctionMiddle + FunctionEnd) == "fun foo(a) { return a; }"
    ensures Separated(FunctionStart + FunctionMiddle + FunctionEnd)
  {
    FunctionText();
    FunctionSeparated();
  }

  lemma FunctionSeparated()
    ensures Separated(FunctionStart + FunctionMiddle + FunctionEnd)
  {
    FunctionStartRun();
    FunctionMiddleRun();
    FunctionEndRun();
    SeparatedAppend(FunctionStart, FunctionMiddle);
    SeparatedAppend(FunctionStart + FunctionMiddle, FunctionEnd);
  }

  lemma FunctionText()
    ensures Render(FunctionStart + FunctionMiddle + FunctionEnd) == "fun foo(a) { return a; }"
  {
    assert "fun foo(a" + ") { return" + " a; }" == "fun foo(a) { return a; }";
    FunctionStartRun();
    FunctionMiddleRun();
    FunctionEndRun();
    RenderAppend(FunctionStart, FunctionMiddle);
    RenderAppend(FunctionStart + FunctionMiddle, FunctionEnd);
  }

  lemma FunctionExpected()
    ensures Expected(FunctionStart + FunctionMiddle + FunctionEnd, 1) + [BareToken(EOF, 1)] == [
      BareToken(Function, 1), BareToken(Identifier("foo"), 1), BareToken(LeftParen, 1),
      BareToken(Identifier("a"), 1), BareToken(RightParen, 1), BareToken(LeftBrace, 1),
      BareToken(Return, 1), BareToken(Identifier("a"), 1), BareToken(Semicolon, 1),
      BareToken(RightBrace, 1), BareToken(EOF, 1)]
  {
    FunctionStartTokens();
    FunctionMiddleTokens();
    FunctionEndTokens();
    ExpectedAppend(FunctionStart, FunctionMiddle, 1);
    ExpectedAppend(FunctionStart + FunctionMiddle, FunctionEnd, 1);
    Runs(BareToken(Function, 1), BareToken(Identifier("foo"), 1), BareToken(LeftParen, 1),
      BareToken(Identifier("a"), 1), BareToken(RightParen, 1), BareToken(LeftBrace, 1),
      BareToken(Return, 1), BareToken(Identifier("a"), 1), BareToken(Semicolon, 1),
      BareToken(RightBrace, 1), BareToken(EOF, 1));
  }

  /** Runs of four, three and three tokens and a last one, joined. */
  lemma Runs<T>(a: T, b: T, c: T, d: T, e: T, f: T, g: T, h: T, i: T, j: T, k: T)
    ensures [a, b, c, d] + [e, f, g] + [h, i, j] + [k] == [a, b, c, d, e, f, g, h, i, j, k]
  {
  }

  lemma {:induction false} RenderAppend(a: seq<Piece>, b: seq<Piece>)
    ensures Render(a + b) == Render(a) + Render(b)
    decreases |a|
  {
    if a == [] {
      assert a + b == b;
    } else {
      assert (a + b)[1..] == a[1..] + b;
      RenderAppend(a[1..], b);
    }
  }

  lemma {:induction false} ExpectedAppend(a: seq<Piece>, b: seq<Piece>, line: nat)
    ensures Expected(a + b, line) == Expected(a, line) + Expected(b, line)
    decreases |a|
  {
    if a == [] {
      assert a + b == b;
    } else {
      assert (a + b)[1..] == a[1..] + b;
      ExpectedAppend(a[1..], b, line);
    }
  }

  /** Two separated runs stay separated when no word ends the first where a word starts the second. */
  lemma {:induction false} SeparatedAppend(a: seq<Piece>, b: seq<Piece>)
    requires Separated(a) && Separated(b)
    requires a != [] && b != [] ==> !(a[|a| - 1].Word? && b[0].Word?)
    ensures Separated(a + b)
    decreases |a|
  {
    if a != [] {
      assert (a + b)[1..] == a[1..] + b;
      SeparatedAppend(a[1..], b);
    } else {
      assert a + b == b;
    }
  }

  /** `test_function`: a one-line function declaration gives its keywords, names and punctuation, all on line 1. */
  lemma FunctionTokens(src: string, parse: string -> F32)
    requires src == "fun foo(a) { return a; }"
    ensures Tokenization(src, parse) == Scanned([
      BareToken(Function, 1), BareToken(Identifier("foo"), 1), BareToken(LeftParen, 1),
      BareToken(Identifier("a"), 1), BareToken(RightParen, 1), BareToken(LeftBrace, 1),
      BareToken(Return, 1), BareToken(Identifier("a"), 1), BareToken(Semicolon, 1),
      BareToken(RightBrace, 1), BareToken(EOF, 1)])
  {
    FunctionLayout();
    FunctionExpected();
    TokenizePieces(src, parse, FunctionStart + FunctionMiddle + FunctionEnd);
  }

  /**
   * A successful `tokenize` ends with exactly one EOF, on 1 plus the number
   * of newlines in the source; lines start at 1 and never decrease along
   * the tokens.
   */
  lemma TokenizedFacts(src: string, parse: string -> F32)
    requires Tokenization(src, parse).Scanned?
    ensures var ts := Tokenization(src, parse).tokens;
      && |ts| >= 1 && ts[|ts| - 1].kind == EOF
      && (forall i :: 0 <= i < |ts| - 1 ==> ts[i].kind != EOF)
      && ts[|ts| - 1].line == 1 + Newlines(src, 0, |src|)
      && (forall i, j :: 0 <= i <= j < |ts| ==> 1 <= ts[i].line <= ts[j].line)
  {
    ScanLines(src, parse);
    SameKindsAndLines(Tokenization(src, parse).tokens, Scan(src, parse).value, 1 + Newlines(src, 0, |src|));
  }

  /** The part of `ScanFacts` about kinds and lines. */
  lemma ScanLines(src: string, parse: string -> F32)
    requires Scan(src, parse).Ok?
    ensures var ts := Scan(src, parse).value;
      && EndsWithSingleEOF(ts)
      && ts[|ts| - 1].line == 1 + Newlines(src, 0, |src|)
      && (forall i, j :: 0 <= i <= j < |ts| ==> 1 <= ts[i].line <= ts[j].line)
  {
    ScanFacts(src, parse);
  }

  /** The facts of `TokenizedFacts` carry over between token lists with the same kinds and lines. */
  lemma SameKindsAndLines(ts: seq<BareToken>, ls: seq<Token>, last: nat)
    requires |ts| == |ls|
    requires forall i :: 0 <= i < |ts| ==> ts[i].kind == ls[i].kind && ts[i].line == ls[i].line
    requires EndsWithSingleEOF(ls) && ls[|ls| - 1].line == last
    requires forall i, j :: 0 <= i <= j < |ls| ==> 1 <= ls[i].line <= ls[j].line
    ensures |ts| >= 1 && ts[|ts| - 1].kind == EOF && ts[|ts| - 1].line == last
    ensures forall i :: 0 <= i < |ts| - 1 ==> ts[i].kind != EOF
    ensures forall i, j :: 0 <= i <= j < |ts| ==> 1 <= ts[i].line <= ts[j].line
  {
    forall i, j | 0 <= i <= j < |ts| ensures 1 <= ts[i].line <= ts[j].line {
      assert 1 <= ls[i].line <= ls[j].line;
    }
  }

  /**
   * `!`, `=`, `<` or `>` first: the first token is the two-character kind
   * exactly when `=` follows, else the one-character kind, on line 1.
   */
  lemma OperatorFirst(src: string, parse: string -> F32)
    requires 0 < |src| && src[0] in Operators
    ensures var r := Tokenization(src, parse);
      r.Scanned? ==>
        && |r.tokens| > 1
        && r.tokens[0] == BareToken(if 1 < |src| && src[1] == '=' then Operators[src[0]].1 else Operators[src[0]].0, 1)
  {
    ScanOperator(src, parse);
  }

  /** `OperatorFirst` for the newer scanner. */
  lemma ScanOperator(src: string, parse: string -> F32)
    requires 0 < |src| && src[0] in Operators
    ensures var r := Scan(src, parse);
      r.Ok? ==>
        && |r.value| > 1 && r.value[0].line == 1
        && r.value[0].kind == if 1 < |src| && src[1] == '=' then Operators[src[0]].1 else Operators[src[0]].0
  {
    OperatorStep(src, parse);
    ScanFromStep(src, 0, 0, 1, parse, Step(src, 0, 1, parse));
    if ScanFrom(src, 0, Step(src, 0, 1, parse).next, 1, parse).Ok? {
      ScanFromEndsWithEOF(src, 0, Step(src, 0, 1, parse).next, 1, parse);
    }
  }

  lemma OperatorStep(src: string, parse: string -> F32)
    requires 0 < |src| && src[0] in Operators
    ensures var r := Step(src, 0, 1, parse);
      && r.Emitted? && r.line == 1 && r.token.line == 1
      && r.token.kind == if 1 < |src| && src[1] == '=' then Operators[src[0]].1 else Operators[src[0]].0
  {
    StepOnSymbol(src, 0, 1, parse);
  }

  /** `1.`: a number, then a dot, then EOF, since no digit follows the dot. */
  lemma TrailingDotTokens(src: string, parse: string -> F32)
    requires |src| == 2 && IsDigit(src[0]) && src[1] == '.'
    ensures Tokenization(src, parse) == Scanned([BareToken(Number(parse(src[..1])), 1), BareToken(Dot, 1), BareToken(EOF, 1)])
  {
    TrailingDot(src, parse);
  }

  /** `1 + 1 * 2` tokenizes to Number, Plus, Number, Star, Number and EOF, all on line 1. */
  lemma ArithmeticTokens(src: string, parse: string -> F32)
    requires src == "1 + 1 * 2"
    ensures Tokenization(src, parse) == Scanned([
      BareToken(Number(parse("1")), 1), BareToken(Plus, 1), BareToken(Number(parse("1")), 1),
      BareToken(Star, 1), BareToken(Number(parse("2")), 1), BareToken(EOF, 1)])
  {
    assert [src[0]] == "1" && [src[2]] == "+" && [src[4]] == "1" && [src[6]] == "*" && [src[8]] == "2";
    SpacedOperationTokens(src, parse);
  }

  /** `SpacedOperation` seen through `Tokenization`. */
  lemma SpacedOperationTokens(src: string, parse: string -> F32)
    requires |src| == 9 && IsDigit(src[0]) && IsDigit(src[4]) && IsDigit(src[8])
    requires src[1] == ' ' && src[3] == ' ' && src[5] == ' ' && src[7] == ' '
    requires src[2] in Punctuation && src[6] in Punctuation
    ensures Tokenization(src, parse) == Scanned([
      BareToken(Number(parse([src[0]])), 1), BareToken(Punctuation[src[2]], 1),
      BareToken(Number(parse([src[4]])), 1), BareToken(Punctuation[src[6]], 1),
      BareToken(Number(parse([src[8]])), 1), BareToken(EOF, 1)])
  {
    var ts := [
      Token(Number(parse([src[0]])), 1, [src[0]]), Token(Punctuation[src[2]], 1, [src[2]]),
      Token(Number(parse([src[4]])), 1, [src[4]]), Token(Punctuation[src[6]], 1, [src[6]]),
      Token(Number(parse([src[8]])), 1, [src[8]]), Token(EOF, 1, [src[8]])];
    SpacedOperation(src, parse);
    Tokenizes(src, parse, ts);
    StripSix(ts);
  }

  lemma StripSix(ts: seq<Token>)
    requires |ts| == 6
    ensures Strip(ts) == [Bare(ts[0]), Bare(ts[1]), Bare(ts[2]), Bare(ts[3]), Bare(ts[4]), Bare(ts[5])]
  {
  }

  /** A successful scan tokenizes to its tokens without their lexemes. */
  lemma Tokenizes(src: string, parse: string -> F32, ts: seq<Token>)
    requires Lexer.Scan(src, parse) == Errors.Ok(ts)
    ensures Tokenization(src, parse) == Scanned(Strip(ts))
  {
  }

  /** An opening quote with no closing one: "Unterminated string" on the line the end of input is on. */
  lemma UnterminatedString(src: string, parse: string -> F32)
    requires 0 < |src| && src[0] == '"' && forall k :: 0 < k < |src| ==> src[k] != '"'
    ensures Tokenization(src, parse) == Rejected(ScannerError("Unterminated string", 1 + Newlines(src, 1, |src|)))
  {
    ScanUnterminated(src, parse);
  }

  /** `UnterminatedString` for the newer scanner. */
  lemma ScanUnterminated(src: string, parse: string -> F32)
    requires 0 < |src| && src[0] == '"' && forall k :: 0 < k < |src| ==> src[k] != '"'
    ensures Scan(src, parse) == Errors.Err(Errors.Scanner(1 + Newlines(src, 1, |src|), "Unterminated string"))
  {
    UnterminatedStep(src, parse);
    ScanFails(src, parse);
  }

  lemma UnterminatedStep(src: string, parse: string -> F32)
    requires 0 < |src| && src[0] == '"' && forall k :: 0 < k < |src| ==> src[k] != '"'
    ensures Step(src, 0, 1, parse) == Failed(Errors.Scanner(1 + Newlines(src, 1, |src|), "Unterminated string"))
  {
    RunEndAt(src, 1, |src|, NotQuote);
    QuoteStep(src, 1, parse);
  }

  /** A source that is one string literal: its text between the quotes, on the closing quote's line, then EOF. */
  lemma StringTokens(src: string, parse: string -> F32)
    requires 2 <= |src| && src[0] == '"' && src[|src| - 1] == '"'
    requires forall k :: 0 < k < |src| - 1 ==> src[k] != '"'
    ensures var l := 1 + Newlines(src, 1, |src| - 1);
      Tokenization(src, parse) == Scanned([BareToken(String(src[1..|src| - 1]), l), BareToken(EOF, l)])
  {
    ScanString(src, parse);
  }

  /** `StringTokens` for the newer scanner. */
  lemma ScanString(src: string, parse: string -> F32)
    requires 2 <= |src| && src[0] == '"' && src[|src| - 1] == '"'
    requires forall k :: 0 < k < |src| - 1 ==> src[k] != '"'
    ensures var l := 1 + Newlines(src, 1, |src| - 1);
      Scan(src, parse) == Errors.Ok([Token(String(src[1..|src| - 1]), l, src), Token(EOF, l, src)])
  {
    StringStep(src, parse);
    ScanOneToken(src, parse);
  }

  lemma StringStep(src: string, parse: string -> F32)
    requires 2 <= |src| && src[0] == '"' && src[|src| - 1] == '"'
    requires forall k :: 0 < k < |src| - 1 ==> src[k] != '"'
    ensures var l := 1 + Newlines(src, 1, |src| - 1);
      Step(src, 0, 1, parse) == Emitted(Token(String(src[1..|src| - 1]), l, src), |src|, l)
  {
    QuoteStep(src, 1, parse);
    WholeString(src);
  }

  /** `StringStep` after the dispatch on the quote. */
  lemma WholeString(src: string)
    requires 2 <= |src| && src[0] == '"' && src[|src| - 1] == '"'
    requires forall k :: 0 < k < |src| - 1 ==> src[k] != '"'
    ensures var l := 1 + Newlines(src, 1, |src| - 1);
      LexString(src, 0, 1) == Emitted(Token(String(src[1..|src| - 1]), l, src), |src|, l)
  {
    RunEndAt(src, 1, |src| - 1, NotQuote);
    LexStringEmits(src, 0, 1, |src| - 1);
    assert src[0..|src|] == src;
  }

  /** A quote whose closing quote is at `e`: the text between them, as one token. */
  lemma LexStringEmits(src: string, pos: nat, line: nat, e: nat)
    requires pos < e < |src| && src[pos] == '"' && RunEnd(src, pos + 1, NotQuote) == e
    ensures var l := line + Newlines(src, pos + 1, e);
      LexString(src, pos, line) == Emitted(Token(String(src[pos + 1..e]), l, src[pos..e + 1]), e + 1, l)
  {
  }

  /** A quote first: the scan of a string literal. */
  lemma QuoteStep(src: string, line: nat, parse: string -> F32)
    requires 0 < |src| && src[0] == '"'
    ensures Step(src, 0, line, parse) == LexString(src, 0, line)
  {
    StepOnSymbol(src, 0, line, parse);
  }

  /** Any other first character: "Unexpected character." on line 1. */
  lemma UnexpectedFirst(src: string, parse: string -> F32)
    requires 0 < |src| && !IsAlphaNumeric(src[0]) && src[0] !in "(){},.-+;*!=<>/ \r\t\n\""
    ensures Tokenization(src, parse) == Rejected(ScannerError("Unexpected character.", 1))
  {
    UnexpectedCharacter(src, 0, 1, parse);
  }

  /** The error of `UnexpectedFirst`, as the older scanner renders it. */
  lemma UnexpectedDisplay()
    ensures Display(ScannerError("Unexpected character.", 1)) == "[line: 1] Unexpected character."
  {
    FirstLineDisplay("Unexpected character.");
  }

  lemma FirstLineDisplay(msg: string)
    ensures Display(ScannerError(msg, 1)) == "[line: 1] " + msg
  {
    assert Errors.NatToString(1) == "1";
  }

  /** `impl Display for ScannerError`: `[line: N] message`. */
  function Display(e: ScannerError): (s: string)
    ensures |s| > 7 && s[..7] == "[line: "
  {
    "[line: " + Errors.NatToString(e.line) + "] " + e.msg
  }

  /** Reads the line and the message back from a rendered `ScannerError`. */
  function Decode(s: string): Option<ScannerError> {
    if |s| < 7 || s[..7] != "[line: " then None
    else
      var t := s[7..];
      var k := Errors.DigitRun(t);
      if 1 <= k && k + 2 <= |t| && t[k..k + 2] == "] " then Some(ScannerError(t[k + 2..], Errors.DigitsValue(t[..k])))
      else None
  }

  /** Rendering loses nothing: the line and the message come back from the text. */
  lemma DecodeDisplay(e: ScannerError)
    ensures Decode(Display(e)) == Some(e)
  {
    var d := Errors.NatToString(e.line);
    var s := Display(e);
    RenderedLine(d, e.msg);
    assert s == "[line: " + d + "] " + e.msg;
  }

  /** The pieces `Decode` cuts out of `[line: <d>] <msg>`, for a run of digits `d`. */
  lemma RenderedLine(d: string, msg: string)
    requires |d| >= 1 && forall i :: 0 <= i < |d| ==> IsDigit(d[i])
    ensures var s := "[line: " + d + "] " + msg;
      var t := s[7..];
      && |s| >= 7 && s[..7] == "[line: " && t == d + ("] " + msg)
      && Errors.DigitRun(t) == |d| && |d| + 2 <= |t|
      && t[|d|..|d| + 2] == "] " && t[|d| + 2..] == msg && t[..|d|] == d
  {
    Cut("[line: ", d, "] ", msg);
    assert ("] " + msg)[0] == ']';
    Errors.DigitRunOfDigits(d, "] " + msg);
  }

  /** The three parts of `pre + d + sep + msg` after `pre`, cut apart again. */
  lemma Cut(pre: string, d: string, sep: string, msg: string)
    ensures var s := pre + d + sep + msg;
      var t := s[|pre|..];
      && s[..|pre|] == pre && t == d + (sep + msg)
      && t[..|d|] == d && t[|d|..|d| + |sep|] == sep && t[|d| + |sep|..] == msg
  {
    var s := pre + d + sep + msg;
    var t := d + (sep + msg);
    assert s == pre + t;
    assert s[|pre|..] == t;
    assert t[..|d|] == d;
    assert t[|d|..][..|sep|] == sep;
  }

  class Scanner {
    const source: string
    /** `str::parse::<f32>`, which the model does not define. */
    const parse: string -> F32
    var tokens: seq<BareToken>
    var current: nat
    var start: nat
    var line: nat

    /** The window `[start, current)` lies inside the source. */
    predicate Valid()
      reads this
    {
      start <= current <= |source|
    }

    /**
     * The state after a piece of `scan_token` did what `s` describes, with
     * the lexeme of a pushed token dropped.
     */
    predicate Reached(r: Status, s: Lexed, before: seq<BareToken>)
      reads this
    {
      match s
      case Failed(e) => r == Halt(Reshape(e))
      case Skipped(n, l) => r == Done && current == n && line == l && tokens == before
      case Emitted(t, n, l) => r == Done && current == n && line == l && tokens == before + [Bare(t)]
    }

    constructor (source: string, parse: string -> F32)
      ensures this.source == source && this.parse == parse
      ensures tokens == [] && current == 0 && start == 0 && line == 1
    {
      this.source := source;
      this.parse := parse;
      tokens := [];
      current := 0;
      start := 0;
      line := 1;
    }

    /** `Scanner::tokenize`. */
    static method Tokenize(source: string, parse: string -> F32) returns (r: Tokenized)
      ensures r == Tokenization(source, parse)
    {
      var scanner := new Scanner(source, parse);
      var status := scanner.ScanTokens();
      r := if status.Done? then Scanned(scanner.tokens) else Rejected(status.error);
    }

    predicate IsAtEnd()
      reads this
    {
      current >= |source|
    }

    /** `scan_tokens`: `scan_token` on fresh windows until the end, then EOF; the first error stops it. */
    method ScanTokens() returns (r: Status)
      requires Valid()
      modifies this`tokens, this`current, this`start, this`line
      ensures match Project(old(tokens), ScanFrom(source, old(start), old(current), old(line), parse))
        case Scanned(ts) => r == Done && tokens == ts
        case Rejected(e) => r == Halt(e)
    {
      while !IsAtEnd()
        invariant Valid()
        invariant Project(tokens, ScanFrom(source, start, current, line, parse))
               == Project(old(tokens), ScanFrom(source, old(start), old(current), old(line), parse))
        decreases |source| - current
      {
        ghost var previous, before, l := start, tokens, line;
        start := current;
        ghost var step := Step(source, start, line, parse);
        r := ScanToken();
        if r.Halt? {
          return;
        }
        ProjectStep(source, previous, start, l, parse, before, tokens, step);
      }
      AddToken(EOF);
      r := Done;
    }

    /**
     * `scan_token`, in the order of its `match`: the arms for the symbol
     * characters, then the fallback arm for digits, letters and the rest.
     */
    method ScanToken() returns (r: Status)
      requires Valid() && start == current < |source|
      modifies this`tokens, this`current, this`line
      ensures Valid()
      ensures Reached(r, Step(source, old(current), old(line), parse), old(tokens))
    {
      var c := Advance();
      if c in Punctuation || c in Operators || c == '/' || c == ' ' || c == '\r' || c == '\t' || c == '\n' || c == '"' {
        r := ScanSymbol(c);
      } else {
        r := ScanOther();
      }
    }

    /** The arms of `scan_token` for the symbol characters. */
    method ScanSymbol(c: char) returns (r: Status)
      requires Valid() && current == start + 1 && current <= |source| && c == source[start]
      requires !IsDigit(c) && !IsAlpha(c)
      requires c in Punctuation || c in Operators || c == '/' || c == ' ' || c == '\r' || c == '\t' || c == '\n' || c == '"'
      modifies this`tokens, this`current, this`line
      ensures Valid()
      ensures Reached(r, Step(source, start, old(line), parse), old(tokens))
    {
      StepOnSymbol(source, start, line, parse);
      ghost var step := LexSymbol(source, start, line);
      if c in Punctuation {
        AddToken(Punctuation[c]);
      } else if c in Operators {
        var two := Matches('=');
        if two { AddToken(Operators[c].1); } else { AddToken(Operators[c].0); }
      } else if c == '/' {
        var comment := Matches('/');
        if comment {
          AdvanceWhile(NotNewline);
          NewlinesFree(source, start, current);
        } else {
          AddToken(Slash);
        }
      } else if c == ' ' || c == '\r' || c == '\t' {
      } else if c == '\n' {
        line := line + 1;
      } else {
        r := ProcessString();
        return;
      }
      assert Reached(Done, step, old(tokens));
      r := Done;
    }

    /** The fallback arm of `scan_token`: a number, a word, or an unexpected character. */
    method ScanOther() returns (r: Status)
      requires Valid() && current == start + 1 && current <= |source|
      requires source[start] !in Punctuation && source[start] !in Operators && source[start] !in "/ \r\t\n\""
      modifies this`tokens, this`current
      ensures Valid()
      ensures Reached(r, Step(source, start, line, parse), old(tokens))
    {
      var c := source[start];
      if IsDigit(c) {
        StepOnDigit(source, start, line, parse);
        ProcessNumber();
        r := Done;
      } else if IsAlpha(c) {
        StepOnAlpha(source, start, line, parse);
        ProcessIdentifier();
        r := Done;
      } else {
        StepOnSymbol(source, start, line, parse);
        r := Halt(Failure("Unexpected character."));
      }
    }

    /** `process_string`, entered just after the opening quote. */
    method ProcessString() returns (r: Status)
      requires Valid() && current == start + 1 && source[start] == '"'
      modifies this`tokens, this`current, this`line
      ensures Valid()
      ensures Reached(r, LexString(source, start, old(line)), old(tokens))
    {
      AdvanceToQuote();
      if IsAtEnd() {
        return Halt(Failure("Unterminated string"));
      }
      var _ := Advance();
      AddToken(String(source[start + 1..current - 1]));
      r := Done;
    }

    /** The loop of `process_string`: up to the closing quote or the end, counting newlines. */
    method AdvanceToQuote()
      requires current <= |source|
      modifies this`current, this`line
      ensures current == RunEnd(source, old(current), NotQuote)
      ensures line == old(line) + Newlines(source, old(current), current)
    {
      while Peek() != Some('"') && !IsAtEnd()
        invariant old(current) <= current <= |source|
        invariant RunEnd(source, current, NotQuote) == RunEnd(source, old(current), NotQuote)
        invariant line == old(line) + Newlines(source, old(current), current)
        decreases |source| - current
      {
        if Peek() == Some('\n') {
          line := line + 1;
        }
        var _ := Advance();
      }
    }

    /** `process_number`, entered just after the first digit. */
    method ProcessNumber()
      requires Valid() && current == start + 1 && IsDigit(source[start])
      modifies this`tokens, this`current
      ensures Valid()
      ensures Reached(Done, LexNumber(source, start, line, parse), old(tokens))
    {
      AdvanceWhile(IsDigit);
      if Peek() == Some('.') {
        var next := PeekNext();
        if next.Some? && IsDigit(next.value) {
          var _ := Advance();
          AdvanceWhile(IsDigit);
        }
      }
      assert current == NumberEnd(source, start);
      AddToken(Number(parse(source[start..current])));
    }

    /** `process_identifier`, entered just after the first letter. */
    method ProcessIdentifier()
      requires Valid() && current == start + 1 && IsAlpha(source[start])
      modifies this`tokens, this`current
      ensures Valid()
      ensures Reached(Done, LexWord(source, start, line), old(tokens))
    {
      AdvanceWhile(IsAlphaNumeric);
      AddToken(WordKind(source[start..current]));
    }

    /** The `while let Some(c) = self.peek()` loops: over the run `inRun` accepts. */
    method AdvanceWhile(inRun: char -> bool)
      requires current <= |source|
      modifies this`current
      ensures current == RunEnd(source, old(current), inRun)
    {
      while Peek().Some? && inRun(Peek().value)
        invariant old(current) <= current <= |source|
        invariant RunEnd(source, current, inRun) == RunEnd(source, old(current), inRun)
        decreases |source| - current
      {
        var _ := Advance();
      }
    }

    /** Pushes a token of the given kind on the current line. */
    method AddToken(kind: TokenKind)
      modifies this`tokens
      ensures tokens == old(tokens) + [BareToken(kind, line)]
    {
      tokens := tokens + [BareToken(kind, line)];
    }

    method Advance() returns (c: char)
      requires current < |source|
      modifies this`current
      ensures current == old(current) + 1 && c == source[old(current)]
    {
      current := current + 1;
      c := source[current - 1];
    }

    function Peek(): Option<char>
      reads this
    {
      if current >= |source| then None else Some(source[current])
    }

    function PeekNext(): Option<char>
      reads this
    {
      if current + 1 >= |source| then None else Some(source[current + 1])
    }

    /** Consumes the next character exactly when it is `expected`. */
    method Matches(expected: char) returns (b: bool)
      requires current <= |source|
      modifies this`current
      ensures b == (old(current) < |source| && source[old(current)] == expected)
      ensures current == if b then old(current) + 1 else old(current)
    {
      if Peek() == Some(expected) {
        var _ := Advance();
        b := true;
      } else {
        b := false;
      }
    }

    /** `get_scanner_error`: an error on the current line. */
    function Failure(msg: string): (e: ScannerError)
      reads this
    {
      ScannerError(msg, line)
    }
  }
}
