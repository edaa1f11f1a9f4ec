/**
 * The newer scanner (rlox/src/scanner.rs) as the object it is: a cursor over
 * the source bytes that pushes tokens onto its vector. Each method is proved
 * to do what the matching function of `Lexer` describes, so that
 * `Scanner.Scan` returns exactly `Lexer.Scan`, about which the properties of
 * the scanner are proved.
 */
module RloxScanner {
  import opened Wrappers
  import opened Errors
  import opened Float32
  import opened Tokens
  import opened Chars
  import opened Lexer

  class Scanner {
    const source: string
    /** `str::parse::<f32>`, which the model does not define. */
    const parse: string -> F32
    var tokens: seq<Token>
    var current: nat
    var start: nat
    var line: nat

    /** The window `[start, current)` lies inside the source. */
    predicate Valid()
      reads this
    {
      start <= current <= |source|
    }

    /**
     * The state after a piece of `scan_token` did what `s` describes: the
     * error it returned, or the pushed token (if any), the new cursor and the
     * new line counter.
     */
    predicate Reached(r: Outcome, s: Lexed, before: seq<Token>)
      reads this
    {
      match s
      case Failed(e) => r == Fail(e)
      case Skipped(n, l) => r == Pass && current == n && line == l && tokens == before
      case Emitted(t, n, l) => r == Pass && current == n && line == l && tokens == before + [t]
    }

    constructor (source: string, parse: string -> F32)
      ensures this.source == source && this.parse == parse
      ensures tokens == [] && current == 0 && start == 0 && line == 1
    {
      this.source := source;
      this.parse := parse;
      tokens := [];
      current := 0;
      start := 0;
      line := 1;
    }

    /** `Scanner::scan`: the tokens of the whole source, or the first error. */
    static method Scan(source: string, parse: string -> F32) returns (r: Result<seq<Token>>)
      ensures r == Lexer.Scan(source, parse)
    {
      var scanner := new Scanner(source, parse);
      var outcome := scanner.ScanTokens();
      r := if outcome.Pass? then Ok(scanner.tokens) else Err(outcome.error);
      match Lexer.Scan(source, parse)
      case Ok(ts) => assert [] + ts == ts;
      case Err(_) =>
    }

    predicate IsAtEnd()
      reads this
    {
      current >= |source|
    }

    /**
     * `scan_tokens`: runs `scan_token` on fresh windows until the source is
     * used up, then pushes EOF; the first error stops it.
     */
    method ScanTokens() returns (r: Outcome)
      requires Valid()
      modifies this`tokens, this`current, this`start, this`line
      ensures match ScanFrom(source, old(start), old(current), old(line), parse)
        case Ok(ts) => r == Pass && tokens == old(tokens) + ts
        case Err(e) => r == Fail(e)
    {
      while !IsAtEnd()
        invariant Valid()
        invariant Then(tokens, ScanFrom(source, start, current, line, parse))
               == Then(old(tokens), ScanFrom(source, old(start), old(current), old(line), parse))
        decreases |source| - current
      {
        ghost var previous, before, l := start, tokens, line;
        start := current;
        ghost var step := Step(source, start, line, parse);
        r := ScanToken();
        if r.Fail? {
          return;
        }
        ThenStep(source, previous, start, l, parse, before, tokens, step);
      }
      AddToken(EOF);
      r := Pass;
    }

    /** `scan_token`: one turn of the loop, on the window starting at `current`. */
    method ScanToken() returns (r: Outcome)
      requires Valid() && start == current < |source|
      modifies this`tokens, this`current, this`line
      ensures Valid()
      ensures Reached(r, Step(source, old(current), old(line), parse), old(tokens))
    {
      var c := Advance();
      if IsDigit(c) {
        StepOnDigit(source, start, line, parse);
        ProcessNumber();
      } else if IsAlpha(c) {
        StepOnAlpha(source, start, line, parse);
        ProcessIdentifier();
      } else {
        StepOnSymbol(source, start, line, parse);
        ghost var step := LexSymbol(source, start, line);
        if c in Punctuation {
          AddToken(Punctuation[c]);
        } else if c in Operators {
          var two := Matches('=');
          if two { AddToken(Operators[c].1); } else { AddToken(Operators[c].0); }
        } else if c == '/' {
          var comment := Matches('/');
          if comment {
            AdvanceWhile(NotNewline);
            NewlinesFree(source, start, current);
          } else {
            AddToken(Slash);
          }
        } else if c == ' ' || c == '\r' || c == '\t' {
        } else if c == '\n' {
          line := line + 1;
        } else if c == '"' {
          r := ProcessString();
          return;
        } else {
          return Fail(Failure("Unexpected character."));
        }
        assert Reached(Pass, step, old(tokens));
      }
      r := Pass;
    }

    /** A string literal whose opening quote was just consumed. */
    method ProcessString() returns (r: Outcome)
      requires Valid() && current == start + 1 && source[start] == '"'
      modifies this`tokens, this`current, this`line
      ensures Valid()
      ensures Reached(r, LexString(source, start, old(line)), old(tokens))
    {
      AdvanceToQuote();
      if IsAtEnd() {
        return Fail(Failure("Unterminated string"));
      }
      var _ := Advance();
      AddToken(String(source[start + 1..current - 1]));
      r := Pass;
    }

    /**
     * The loop of `process_string`: advances to the closing quote or to the
     * end, counting the newlines it passes.
     */
    method AdvanceToQuote()
      requires current <= |source|
      modifies this`current, this`line
      ensures current == RunEnd(source, old(current), NotQuote)
      ensures line == old(line) + Newlines(source, old(current), current)
    {
      while Peek() != Some('"') && !IsAtEnd()
        invariant old(current) <= current <= |source|
        invariant RunEnd(source, current, NotQuote) == RunEnd(source, old(current), NotQuote)
        invariant line == old(line) + Newlines(source, old(current), current)
        decreases |source| - current
      {
        if Peek() == Some('\n') {
          line := line + 1;
        }
        var _ := Advance();
      }
    }

    /** A number whose first digit was just consumed. */
    method ProcessNumber()
      requires Valid() && current == start + 1 && IsDigit(source[start])
      modifies this`tokens, this`current
      ensures Valid()
      ensures Reached(Pass, LexNumber(source, start, line, parse), old(tokens))
    {
      AdvanceWhile(IsDigit);
      if Peek() == Some('.') {
        var next := PeekNext();
        if next.Some? && IsDigit(next.value) {
          var _ := Advance();
          AdvanceWhile(IsDigit);
        }
      }
      assert current == NumberEnd(source, start);
      AddToken(Number(parse(source[start..current])));
    }

    /** An identifier or keyword whose first letter was just consumed. */
    method ProcessIdentifier()
      requires Valid() && current == start + 1 && IsAlpha(source[start])
      modifies this`tokens, this`current
      ensures Valid()
      ensures Reached(Pass, LexWord(source, start, line), old(tokens))
    {
      AdvanceWhile(IsAlphaNumeric);
      AddToken(WordKind(source[start..current]));
    }

    /**
     * The `while let Some(c) = self.peek()` loop of `process_number` and
     * `process_identifier`: advances over the run of characters `inRun`
     * accepts, stopping at the first other one or at the end.
     */
    method AdvanceWhile(inRun: char -> bool)
      requires current <= |source|
      modifies this`current
      ensures current == RunEnd(source, old(current), inRun)
    {
      while Peek().Some? && inRun(Peek().value)
        invariant old(current) <= current <= |source|
        invariant RunEnd(source, current, inRun) == RunEnd(source, old(current), inRun)
        decreases |source| - current
      {
        var _ := Advance();
      }
    }

    /** Pushes a token of the current window, on the current line. */
    method AddToken(kind: TokenKind)
      requires Valid()
      modifies this`tokens
      ensures tokens == old(tokens) + [Token(kind, line, source[start..current])]
    {
      tokens := tokens + [Token(kind, line, source[start..current])];
    }

    method Advance() returns (c: char)
      requires current < |source|
      modifies this`current
      ensures current == old(current) + 1 && c == source[old(current)]
    {
      current := current + 1;
      c := source[current - 1];
    }

    function Peek(): Option<char>
      reads this
    {
      if current >= |source| then None else Some(source[current])
    }

    function PeekNext(): Option<char>
      reads this
    {
      if current + 1 >= |source| then None else Some(source[current + 1])
    }

    /** Consumes the next character exactly when it is `expected`. */
    method Matches(expected: char) returns (b: bool)
      requires current <= |source|
      modifies this`current
      ensures b == (old(current) < |source| && source[old(current)] == expected)
      ensures current == if b then old(current) + 1 else old(current)
    {
      if Peek() == Some(expected) {
        var _ := Advance();
        b := true;
      } else {
        b := false;
      }
    }

    /** `err`: a scanner error on the current line. */
    function Failure(msg: string): (e: Error)
      reads this
    {
      Error.Scanner(line, msg)
    }
  }
}
