/** The scanner object: its fields are updated in place by each call, and every method is
    proved to leave exactly the state the ScannerSpec functions describe. A method returns
    `ok == false` where the program stops on an out-of-range string slice. */
module Scanning {

  import opened Wrappers
  import opened Tokens
  import opened ScannerSpec

  /** One iteration of the string loop leaves its outcome unchanged. */
  lemma StringEndStep(src: string, current: nat, line: nat)
    requires current <= |src| && PeekAt(src, current) != '"'
    ensures StringEnd(src, current, line) ==
      StringEnd(src, current + 1, if PeekAt(src, current) == '\n' then line + 1 else line)
  {
  }

  /** string() once its loop has stopped in state st1: the four ways it can end. */
  lemma StringLitCases(src: string, rule: StringRule, st0: ScanState, st1: ScanState)
    requires st0.start < st0.current <= |src| + 1
    requires (st1.current, st1.line) == StringEnd(src, st0.current, st0.line)
    requires st1 == st0.(current := st1.current, line := st1.line)
    ensures var st2 := st1.(errors := st1.errors + [ScanError(st1.line, "Unterminated string.")]);
      StringLit(src, rule, st0) ==
        if AtEnd(src, st1.current) then (if rule == Corrected then Some(st2) else StringToken(src, st2))
        else if rule == Corrected then StringToken(src, Advanced(st1))
        else StringToken(src, st1)
  {
  }

  class Scanner {
    const source: string
    const rule: StringRule
    var tokens: seq<Token>
    var errors: seq<ScanError>
    var start: nat
    var current: nat
    var line: nat

    /** The fields as a ScanState. */
    function State(): ScanState
      reads this
    {
      ScanState(start, current, line, tokens, errors)
    }

    /** Scanner::new: nothing scanned yet, on line 1. */
    constructor (source: string, rule: StringRule)
      ensures this.source == source && this.rule == rule
      ensures State() == Initial
    {
      this.source := source;
      this.rule := rule;
      tokens := [];
      errors := [];
      start := 0;
      current := 0;
      line := 1;
    }

    /** isAtEnd. */
    predicate IsAtEnd()
      reads this
    {
      AtEnd(source, current)
    }

    /** peek. */
    function Peek(): char
      reads this
    {
      PeekAt(source, current)
    }

    /** advance: the character under the cursor, if any; the cursor moves on either way. */
    method Advance() returns (c: Option<char>)
      modifies this
      ensures c == CharAt(source, old(current))
      ensures State() == Advanced(old(State()))
    {
      c := CharAt(source, current);
      current := current + 1;
    }

    /** match2: consumes the expected character if it is under the cursor. */
    method Match2(expected: char) returns (b: bool)
      modifies this
      ensures b == Matches(source, old(current), expected)
      ensures State() == if b then Advanced(old(State())) else old(State())
    {
      if IsAtEnd() {
        return false;
      }
      if CharAt(source, current) != Some(expected) {
        return false;
      }
      current := current + 1;
      return true;
    }

    /** add_token2: pushes the token for `source[start..current]`, or stops on the slice. */
    method AddToken2(kind: TokenType, literal: Option<Literal>) returns (ok: bool)
      modifies this
      ensures ok == ScannerSpec.AddToken(source, old(State()), kind, literal.GetOr(Literal.Nil)).Some?
      ensures ok ==> State() == ScannerSpec.AddToken(source, old(State()), kind, literal.GetOr(Literal.Nil)).value
      ensures !ok ==> State() == old(State())
    {
      if !(start <= current <= |source|) {
        return false;
      }
      var text := source[start..current];
      tokens := tokens + [Token.New(kind, text, literal.GetOr(Literal.Nil), line)];
      return true;
    }

    /** add_token: a token without a literal value. */
    method AddToken(kind: TokenType) returns (ok: bool)
      modifies this
      ensures ok == ScannerSpec.AddToken(source, old(State()), kind, Literal.Nil).Some?
      ensures ok ==> State() == ScannerSpec.AddToken(source, old(State()), kind, Literal.Nil).value
      ensures !ok ==> State() == old(State())
    {
      ok := AddToken2(kind, None);
    }

    /** The loop of string(): advances to the closing quote or past the end, counting the
        newlines it passes. */
    method StringLoop()
      requires current <= |source| + 1
      modifies this
      ensures State() == old(State()).(current := StringEnd(source, old(current), old(line)).0,
                                       line := StringEnd(source, old(current), old(line)).1)
    {
      ghost var target := StringEnd(source, current, line);
      while Peek() != '"' && !IsAtEnd()
        invariant old(current) <= current <= |source| + 1
        invariant StringEnd(source, current, line) == target
        invariant State() == old(State()).(current := current, line := line)
        decreases |source| + 1 - current
      {
        StringEndStep(source, current, line);
        if Peek() == '\n' {
          line := line + 1;
        }
        var _ := Advance();
      }
    }

    /** string(), entered just past the opening quote. */
    method StringLiteral() returns (ok: bool)
      requires start < current <= |source| + 1
      modifies this
      ensures ok == StringLit(source, rule, old(State())).Some?
      ensures ok ==> State() == StringLit(source, rule, old(State())).value
    {
      StringLoop();
      ghost var st1 := State();
      StringLitCases(source, rule, old(State()), st1);
      if IsAtEnd() {
        errors := errors + [ScanError(line, "Unterminated string.")];
        if rule == Corrected {
          return true;
        }
      } else if rule == Corrected {
        current := current + 1;
        assert State() == Advanced(st1);
      }
      if !(start + 1 <= current - 1 <= |source|) {
        return false;
      }
      var value := source[start + 1..current - 1];
      ok := AddToken2(STRING, Some(Literal.String(value)));
    }

    /** The comment loop of scanToken, entered after the second '/': advances until an
        advance returns a newline, which counts a line, or returns nothing. */
    method SkipComment()
      requires current <= |source|
      modifies this
      ensures State() == old(State()).(current := CommentEnd(source, old(current), old(line)).0,
                                       line := CommentEnd(source, old(current), old(line)).1)
    {
      ghost var target := CommentEnd(source, current, line);
      var c := Advance();
      while c.Some? && c.value != '\n'
        invariant 1 <= current <= |source| + 1
        invariant c == CharAt(source, current - 1)
        invariant line == old(line)
        invariant c.Some? && c.value != '\n' ==> CommentEnd(source, current, line) == target
        invariant !(c.Some? && c.value != '\n') ==> target == (current, if c.Some? then line + 1 else line)
        invariant State() == old(State()).(current := current)
        decreases |source| + 1 - current
      {
        c := Advance();
      }
      if c.Some? {
        line := line + 1;
      }
    }

    /** scanToken: consumes one character and acts on it. */
    method ScanToken() returns (ok: bool)
      requires start <= current <= |source|
      modifies this
      ensures ok == ScannerSpec.ScanToken(source, rule, old(State())).Some?
      ensures ok ==> State() == ScannerSpec.ScanToken(source, rule, old(State())).value
    {
      var c := Advance();
      ok := true;
      match c {
        case None =>
        case Some(c) =>
          match c {
            case '(' => ok := AddToken(LEFT_PAREN);
            case ')' => ok := AddToken(RIGHT_PAREN);
            case '{' => ok := AddToken(LEFT_BRACE);
            case '}' => ok := AddToken(RIGHT_BRACE);
            case ',' => ok := AddToken(COMMA);
            case '.' => ok := AddToken(DOT);
            case '-' => ok := AddToken(MINUS);
            case '+' => ok := AddToken(PLUS);
            case ';' => ok := AddToken(SEMICOLON);
            case '*' => ok := AddToken(STAR);
            case '!' =>
              var m := Match2('=');
              if m { ok := AddToken(BANG_EQUAL); } else { ok := AddToken(BANG); }
            case '=' =>
              var m := Match2('=');
              if m { ok := AddToken(EQUAL_EQUAL); } else { ok := AddToken(EQUAL); }
            case '<' =>
              var m := Match2('=');
              if m { ok := AddToken(LESS_EQUAL); } else { ok := AddToken(LESS); }
            case '>' =>
              var m := Match2('=');
              if m { ok := AddToken(GREATER_EQUAL); } else { ok := AddToken(GREATER); }
            case '/' =>
              var m := Match2('/');
              if m { SkipComment(); } else { ok := AddToken(SLASH); }
            case ' ' | '\r' | '\t' =>
            case '\n' => line := line + 1;
            case '"' => ok := StringLiteral();
            case _ => errors := errors + [ScanError(line, UnexpectedCharacter(c))];
          }
      }
    }

    /** scanTokens: scans to the end and appends the EOF token; None where the program stops. */
    method ScanTokens() returns (r: Option<seq<Token>>)
      requires current <= |source| + 1
      modifies this
      ensures r.Some? == ScanFrom(source, rule, old(State())).Some?
      ensures r.Some? ==>
        r.value == tokens && tokens == ScanFrom(source, rule, old(State())).value.tokens + [EofToken(line)]
      ensures old(State()) == Initial ==> r == ScannerSpec.ScanTokens(source, rule)
    {
      while !IsAtEnd()
        invariant current <= |source| + 1
        invariant ScanFrom(source, rule, State()) == ScanFrom(source, rule, old(State()))
        decreases |source| + 1 - current
      {
        start := current;
        var ok := ScanToken();
        if !ok {
          return None;
        }
      }
      tokens := tokens + [Token.New(EOF, "", Literal.Nil, line)];
      return Some(tokens);
    }
  }
}
