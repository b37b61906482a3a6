/** What the scanner promises, proved of the functions in ScannerSpec. */
module ScannerProperties {

  import opened Wrappers
  import opened Tokens
  import opened ScannerSpec

  // ---------------------------------------------------------------------------
  // One step

  /** What one scanToken call may do, from the state st0 it starts in to the state r it
      leaves: emit at most one token and report at most one error, touching nothing emitted
      before; an emitted token is described by TokenFits. */
  predicate StepFits(src: string, st0: ScanState, r: ScanState) {
    |st0.tokens| <= |r.tokens| <= |st0.tokens| + 1 && r.tokens[..|st0.tokens|] == st0.tokens &&
    |st0.errors| <= |r.errors| <= |st0.errors| + 1 && r.errors[..|st0.errors|] == st0.errors &&
    (|r.tokens| > |st0.tokens| ==> TokenFits(src, st0, r, r.tokens[|st0.tokens|]))
  }

  /** The token's lexeme is `source[start..current]` and its line the line counter, as they
      stand after the step; it is not EOF; only a string literal carries a literal value, and
      only a quote starts one. */
  predicate TokenFits(src: string, st0: ScanState, r: ScanState, t: Token) {
    st0.start <= r.current <= |src| && t.lexeme == src[st0.start..r.current] && t.line == r.line &&
    t.tokenType != EOF &&
    (t.tokenType == STRING ==> st0.current < |src| && src[st0.current] == '"') &&
    (t.tokenType != STRING ==> t.literal == Literal.Nil)
  }

  lemma AddTokenFits(src: string, st0: ScanState, st: ScanState, kind: TokenType)
    requires st.start == st0.start && st.line == st0.line && st.tokens == st0.tokens && st.errors == st0.errors
    requires kind != EOF && kind != STRING
    ensures AddToken(src, st, kind, Literal.Nil).Some? ==> StepFits(src, st0, AddToken(src, st, kind, Literal.Nil).value)
  {
    if AddToken(src, st, kind, Literal.Nil).Some? {
      var r := AddToken(src, st, kind, Literal.Nil).value;
      assert r.tokens[..|st0.tokens|] == st0.tokens;
    }
  }

  lemma StringLitFits(src: string, rule: StringRule, st0: ScanState)
    requires st0.start == st0.current < |src| && src[st0.current] == '"'
    ensures var r := StringLit(src, rule, st0.(current := st0.current + 1));
      r.Some? ==> StepFits(src, st0, r.value)
  {
    var st := st0.(current := st0.current + 1);
    var r := StringLit(src, rule, st);
    if r.Some? {
      assert r.value.tokens[..|st0.tokens|] == st0.tokens;
      assert r.value.errors[..|st0.errors|] == st0.errors;
    }
  }

  lemma SingleFits(src: string, rule: StringRule, st: ScanState)
    requires st.start == st.current < |src| && src[st.current] in "(){},.-+;*"
    ensures ScanToken(src, rule, st).Some? ==> StepFits(src, st, ScanToken(src, rule, st).value)
    ensures ScanToken(src, rule, st).Some?
  {
    AddTokenFits(src, st, st.(current := st.current + 1), SingleKind(src[st.current]));
  }
  lemma EqualOrFits(src: string, st: ScanState, two: TokenType, one: TokenType)
    requires st.start == st.current < |src|
    requires two != EOF && two != STRING && one != EOF && one != STRING
    ensures var r := EqualOr(src, st.(current := st.current + 1), two, one);
      r.Some? ==> StepFits(src, st, r.value)
  {
    var st1 := st.(current := st.current + 1);
    AddTokenFits(src, st, st1.(current := st1.current + 1), two);
    AddTokenFits(src, st, st1, one);
  }

  lemma PairFits(src: string, rule: StringRule, st: ScanState)
    requires st.start == st.current < |src| && src[st.current] in "!=<>"
    ensures ScanToken(src, rule, st).Some? ==> StepFits(src, st, ScanToken(src, rule, st).value)
    ensures ScanToken(src, rule, st).Some?
  {
    var (two, one) := PairKinds(src[st.current]);
    assert ScanToken(src, rule, st) == EqualOr(src, st.(current := st.current + 1), two, one);
    EqualOrFits(src, st, two, one);
  }

  lemma SlashFits(src: string, rule: StringRule, st: ScanState)
    requires st.start == st.current < |src| && src[st.current] == '/'
    ensures ScanToken(src, rule, st).Some? ==> StepFits(src, st, ScanToken(src, rule, st).value)
    ensures ScanToken(src, rule, st).Some?
  {
    var st1 := st.(current := st.current + 1);
    var r := ScanToken(src, rule, st);
    AddTokenFits(src, st, st1, SLASH);
    if r.Some? {
      assert r.value.tokens[..|st.tokens|] == st.tokens;
      assert r.value.errors[..|st.errors|] == st.errors;
    }
  }
  lemma QuoteFits(src: string, rule: StringRule, st: ScanState)
    requires st.start == st.current < |src| && src[st.current] == '"'
    ensures ScanToken(src, rule, st).Some? ==> StepFits(src, st, ScanToken(src, rule, st).value)
  {
    StringLitFits(src, rule, st);
  }
  lemma OtherFits(src: string, rule: StringRule, st: ScanState)
    requires st.start == st.current < |src| && src[st.current] !in "(){},.-+;*!=<>/\""
    ensures ScanToken(src, rule, st).Some? ==> StepFits(src, st, ScanToken(src, rule, st).value)
    ensures ScanToken(src, rule, st).Some?
  {
    var r := ScanToken(src, rule, st);
    if r.Some? {
      assert r.value.tokens[..|st.tokens|] == st.tokens;
      assert r.value.errors[..|st.errors|] == st.errors;
    }
  }

  /** The corrected string() never slices out of range. */
  lemma CorrectedStringLitTotal(src: string, st: ScanState)
    requires st.start < st.current <= |src| + 1
    ensures StringLit(src, Corrected, st).Some?
  { }

  /** One scanToken call fits StepFits. */
  lemma ScanTokenEmits(src: string, rule: StringRule, st: ScanState)
    requires st.start == st.current <= |src|
    ensures ScanToken(src, rule, st).Some? ==> StepFits(src, st, ScanToken(src, rule, st).value)
    ensures rule == Corrected || st.current == |src| || src[st.current] != '"' ==> ScanToken(src, rule, st).Some?
  {
    if st.current == |src| {
      var st1 := st.(current := st.current + 1);
      assert st1.tokens[..|st.tokens|] == st.tokens;
      assert st1.errors[..|st.errors|] == st.errors;
    } else if src[st.current] in "(){},.-+;*" {
      SingleFits(src, rule, st);
    } else if src[st.current] in "!=<>" {
      PairFits(src, rule, st);
    } else if src[st.current] == '/' {
      SlashFits(src, rule, st);
    } else if src[st.current] == '"' {
      QuoteFits(src, rule, st);
      if rule == Corrected {
        CorrectedStringLitTotal(src, st.(current := st.current + 1));
        assert ScanToken(src, rule, st) == StringLit(src, rule, st.(current := st.current + 1));
      }
    } else {
      OtherFits(src, rule, st);
    }
  }

  // ---------------------------------------------------------------------------
  // The whole scan

  /** `lex` is a stretch of the source that begins at or after position `from`. */
  predicate SliceFrom(src: string, from: nat, lex: string) {
    exists a: nat, b: nat | from <= a <= b <= |src| :: src[a..b] == lex
  }

  lemma SliceFromEarlier(src: string, from: nat, from': nat, lex: string)
    requires from' <= from && SliceFrom(src, from, lex)
    ensures SliceFrom(src, from', lex)
  {
    var a: nat, b: nat :| from <= a <= b <= |src| && src[a..b] == lex;
    assert from' <= a;
  }

  /** The tokens a scan adds after those of st: none is EOF, each one's lexeme is a stretch
      of the source at or after where the scan started, and their lines never decrease,
      lying between the line the scan starts on and the line it ends on. */
  predicate AddedFit(src: string, st: ScanState, r: ScanState) {
    st.tokens <= r.tokens && st.errors <= r.errors && st.line <= r.line &&
    (forall i | |st.tokens| <= i < |r.tokens| :: r.tokens[i].tokenType != EOF && st.line <= r.tokens[i].line <= r.line) &&
    (forall i | |st.tokens| <= i < |r.tokens| :: SliceFrom(src, st.current, r.tokens[i].lexeme)) &&
    (forall i, j | |st.tokens| <= i < j < |r.tokens| :: r.tokens[i].line <= r.tokens[j].line)
  }

  lemma AddedFitCompose(src: string, st: ScanState, st0: ScanState, mid: ScanState, r: ScanState)
    requires st0 == st.(start := st.current)
    requires StepFits(src, st0, mid) && st.line <= mid.line && st.current <= mid.current
    requires AddedFit(src, mid, r)
    ensures AddedFit(src, st, r)
  {
    assert st.tokens <= mid.tokens by {
      assert mid.tokens[..|st.tokens|] == st.tokens;
    }
    assert st.errors <= mid.errors by {
      assert mid.errors[..|st.errors|] == st.errors;
    }
    if |mid.tokens| > |st.tokens| {
      var t := mid.tokens[|st.tokens|];
      assert r.tokens[|st.tokens|] == t;
      assert src[st.current..mid.current] == t.lexeme;
    }
    forall i | |mid.tokens| <= i < |r.tokens|
      ensures SliceFrom(src, st.current, r.tokens[i].lexeme)
    {
      SliceFromEarlier(src, mid.current, st.current, r.tokens[i].lexeme);
    }
  }

  lemma {:induction false} ScanFromEmits(src: string, rule: StringRule, st: ScanState)
    requires st.current <= |src| + 1
    ensures ScanFrom(src, rule, st).Some? ==> AddedFit(src, st, ScanFrom(src, rule, st).value)
    decreases |src| + 1 - st.current
  {
    if !AtEnd(src, st.current) {
      var st0 := st.(start := st.current);
      var step := ScanToken(src, rule, st0);
      if step.Some? {
        ScanTokenEmits(src, rule, st0);
        ScanFromEmits(src, rule, step.value);
        if ScanFrom(src, rule, step.value).Some? {
          AddedFitCompose(src, st, st0, step.value, ScanFrom(src, rule, step.value).value);
        }
      }
    } else {
      assert AddedFit(src, st, st);
    }
  }

  /** scanTokens ends its list with exactly one EOF token: empty lexeme, no literal, on the
      line the scan ended on. */
  lemma EofExactlyOnceAtEnd(src: string, rule: StringRule)
    ensures Scan(src, rule).Some? ==>
      var ts := Scan(src, rule).value.tokens;
      |ts| >= 1 && ts[|ts| - 1] == Token(EOF, "", Literal.Nil, Scan(src, rule).value.line) &&
      forall i | 0 <= i < |ts| - 1 :: ts[i].tokenType != EOF
  {
    ScanFromEmits(src, rule, Initial);
  }

  /** The line counter never goes down: it starts at 1 and each token's line is at least
      the one before it, up to the EOF token's line. */
  lemma LinesNeverDecrease(src: string, rule: StringRule)
    ensures Scan(src, rule).Some? ==>
      var st := Scan(src, rule).value;
      st.line >= 1 &&
      forall i, j | 0 <= i < j < |st.tokens| :: 1 <= st.tokens[i].line <= st.tokens[j].line
  {
    ScanFromEmits(src, rule, Initial);
  }

  /** Every token scanTokens returns before its EOF has a lexeme cut from the source text. */
  lemma LexemesFromSource(src: string, rule: StringRule)
    ensures Scan(src, rule).Some? ==>
      var ts := Scan(src, rule).value.tokens;
      forall i | 0 <= i < |ts| - 1 :: SliceFrom(src, 0, ts[i].lexeme)
  {
    ScanFromEmits(src, rule, Initial);
  }

  /** With the corrected string(), every text scans to the end. */
  lemma {:induction false} CorrectedScanFromTotal(src: string, st: ScanState)
    requires st.current <= |src| + 1
    ensures ScanFrom(src, Corrected, st).Some?
    decreases |src| + 1 - st.current
  {
    if !AtEnd(src, st.current) {
      var st0 := st.(start := st.current);
      ScanTokenEmits(src, Corrected, st0);
      CorrectedScanFromTotal(src, ScanToken(src, Corrected, st0).value);
    }
  }

  lemma CorrectedNeverStops(src: string)
    ensures ScanTokens(src, Corrected).Some?
  {
    CorrectedScanFromTotal(src, Initial);
  }

  // ---------------------------------------------------------------------------
  // String literals as written

  /** As written, once the scan reaches a quote it stops on a slice: the literal's closing quote
      is left under the cursor and opens another literal, and the last literal opened is
      either empty (start+1 > current-1) or unterminated (the lexeme runs past the end). */
  lemma {:induction false} QuoteStops(src: string, st: ScanState)
    requires st.current < |src| && src[st.current] == '"'
    ensures ScanFrom(src, AsWritten, st) == None
    decreases |src| - st.current
  {
    var i := st.current;
    var st0 := st.(start := i);
    var st1 := st0.(current := i + 1);
    assert ScanToken(src, AsWritten, st0) == StringLit(src, AsWritten, st1);
    var (q, l) := StringEnd(src, i + 1, st.line);
    if q < |src| && q != i + 1 {
      var step := StringLit(src, AsWritten, st1);
      assert step.Some? && step.value.current == q;
      QuoteStops(src, step.value);
    }
  }

  /** As written, a scan that gets to the end carries no STRING token. */
  lemma {:induction false} NoStringTokenAsWritten(src: string, st: ScanState)
    requires st.current <= |src| + 1
    ensures ScanFrom(src, AsWritten, st).Some? ==>
      forall i | |st.tokens| <= i < |ScanFrom(src, AsWritten, st).value.tokens| ::
        ScanFrom(src, AsWritten, st).value.tokens[i].tokenType != STRING
    decreases |src| + 1 - st.current
  {
    if !AtEnd(src, st.current) {
      if st.current < |src| && src[st.current] == '"' {
        QuoteStops(src, st);
      } else {
        var st0 := st.(start := st.current);
        ScanTokenEmits(src, AsWritten, st0);
        var step := ScanToken(src, AsWritten, st0).value;
        NoStringTokenAsWritten(src, step);
        ScanFromEmits(src, AsWritten, step);
        if ScanFrom(src, AsWritten, step).Some? {
          NoStringCompose(src, st.(start := st.current), step, ScanFrom(src, AsWritten, step).value);
        }
      }
    }
  }

  /** A step that does not start at a quote, followed by a scan that adds no STRING token,
      adds no STRING token. */
  lemma NoStringCompose(src: string, st0: ScanState, mid: ScanState, r: ScanState)
    requires !(st0.current < |src| && src[st0.current] == '"')
    requires StepFits(src, st0, mid) && AddedFit(src, mid, r)
    requires forall i | |mid.tokens| <= i < |r.tokens| :: r.tokens[i].tokenType != STRING
    ensures forall i | |st0.tokens| <= i < |r.tokens| :: r.tokens[i].tokenType != STRING
  {
    if |mid.tokens| > |st0.tokens| {
      assert r.tokens[|st0.tokens|] == mid.tokens[|st0.tokens|];
    }
  }

  lemma NoStringTokenInAnyScan(src: string)
    ensures ScanTokens(src, AsWritten).Some? ==>
      forall t | t in ScanTokens(src, AsWritten).value :: t.tokenType != STRING
  {
    NoStringTokenAsWritten(src, Initial);
  }

  /** The string loop stops at the first quote. */
  lemma {:induction false} StringEndStopsAtQuote(src: string, current: nat, line: nat, q: nat)
    requires current <= q < |src| && src[q] == '"'
    requires forall k | current <= k < q :: src[k] != '"'
    ensures StringEnd(src, current, line).0 == q
    decreases q - current
  {
    if current < q {
      StringEndStopsAtQuote(src, current + 1, if src[current] == '\n' then line + 1 else line, q);
    }
  }

  /** With no quote ahead, the string loop runs past the end. */
  lemma {:induction false} StringEndRunsOut(src: string, current: nat, line: nat)
    requires current <= |src| + 1
    requires forall k | current <= k < |src| :: src[k] != '"'
    ensures StringEnd(src, current, line).0 == |src| + 1
    decreases |src| + 1 - current
  {
    if current <= |src| {
      StringEndRunsOut(src, current + 1, if PeekAt(src, current) == '\n' then line + 1 else line);
    }
  }

  /** A double quote hands the rest of the token to the string rule. */
  lemma QuoteOpensLiteral(src: string, rule: StringRule, st: ScanState)
    requires st.start == st.current < |src| && src[st.current] == '"'
    ensures ScanToken(src, rule, st) == StringLit(src, rule, st.(current := st.current + 1))
  {
  }

  /** As written, the string rule once the closing quote is at `q`: the cursor is left on
      the quote, and an empty literal stops the scan on its slice. */
  lemma ClosedLiteralAsWritten(src: string, st: ScanState, q: nat)
    requires st.start < st.current <= q < |src| && src[q] == '"'
    requires forall k | st.current <= k < q :: src[k] != '"'
    ensures var line := st.line + Newlines(src[st.current..q]);
      StringLit(src, AsWritten, st) ==
        if q == st.start + 1 then None
        else Some(st.(current := q, line := line,
                      tokens := st.tokens + [Token(STRING, src[st.start..q], Literal.String(src[st.start + 1..q - 1]), line)]))
  {
    StringEndStopsAtQuote(src, st.current, st.line, q);
    StringEndPasses(src, st.current, st.line);
    assert min(st.current, |src|) == st.current && min(q, |src|) == q;
    var st2 := st.(current := q, line := st.line + Newlines(src[st.current..q]));
    assert StringLit(src, AsWritten, st) == StringToken(src, st2);
    if q == st.start + 1 {
      assert StringToken(src, st2) == None;
    } else {
      assert StringToken(src, st2).Some?;
    }
  }

  /** Corrected, the string rule once the closing quote is at `q`: the quote is consumed and
      belongs to the lexeme. */
  lemma ClosedLiteralCorrected(src: string, st: ScanState, q: nat)
    requires st.start < st.current <= q < |src| && src[q] == '"'
    requires forall k | st.current <= k < q :: src[k] != '"'
    ensures var line := st.line + Newlines(src[st.current..q]);
      StringLit(src, Corrected, st) ==
        Some(st.(current := q + 1, line := line,
                 tokens := st.tokens + [Token(STRING, src[st.start..q + 1], Literal.String(src[st.start + 1..q]), line)]))
  {
    StringEndStopsAtQuote(src, st.current, st.line, q);
    StringEndPasses(src, st.current, st.line);
    assert min(st.current, |src|) == st.current && min(q, |src|) == q;
    var st1 := st.(current := q, line := st.line + Newlines(src[st.current..q]));
    assert StringLit(src, Corrected, st) == StringToken(src, Advanced(st1));
    assert StringToken(src, Advanced(st1)).Some?;
  }

  /** As written, a literal closed at q leaves the cursor on the closing quote: the lexeme
      stops before it and the value drops the literal's last character. An empty literal
      stops the scan on its slice. */
  lemma AsWrittenStringLiteral(src: string, st: ScanState, q: nat)
    requires st.start == st.current < q < |src|
    requires src[st.current] == '"' && src[q] == '"'
    requires forall k | st.current < k < q :: src[k] != '"'
    ensures var line := st.line + Newlines(src[st.current + 1..q]);
      ScanToken(src, AsWritten, st) ==
        if q == st.current + 1 then None
        else Some(st.(current := q, line := line,
                      tokens := st.tokens + [Token(STRING, src[st.current..q], Literal.String(src[st.current + 1..q - 1]), line)]))
  {
    QuoteOpensLiteral(src, AsWritten, st);
    ClosedLiteralAsWritten(src, st.(current := st.current + 1), q);
  }


  /** `"ab"`: the first literal is emitted with lexeme `"ab` and contents `a`, and then the
      closing quote opens an unterminated literal and the scan stops. */
  lemma QuotedAbAsWritten()
    ensures ScanToken("\"ab\"", AsWritten, Initial) ==
      Some(ScanState(0, 3, 1, [Token(STRING, "\"ab", Literal.String("a"), 1)], []))
    ensures ScanTokens("\"ab\"", AsWritten) == None
  {
    var src := "\"ab\"";
    var t := Token(STRING, "\"ab", Literal.String("a"), 1);
    assert forall k | 0 < k < 3 :: src[k] != '"';
    AsWrittenStringLiteral(src, Initial, 3);
    assert Initial.tokens + [t] == [t];
    assert src[0..3] == "\"ab";
    assert src[1..2] == "a";
    assert Newlines(src[1..3]) == 0 by {
      assert src[1..3] == "ab";
      assert "ab"[..1] == "a";
      assert "a"[..0] == "";
    }
    QuoteStops(src, Initial);
  }

  // ---------------------------------------------------------------------------
  // String literals corrected

  /** Corrected, a literal closed at q is one STRING token: the lexeme runs through the closing
      quote, the value is the text between the quotes, and the newlines inside are counted. */
  lemma CorrectedStringLiteral(src: string, st: ScanState, q: nat)
    requires st.start == st.current < q < |src|
    requires src[st.current] == '"' && src[q] == '"'
    requires forall k | st.current < k < q :: src[k] != '"'
    ensures var line := st.line + Newlines(src[st.current + 1..q]);
      ScanToken(src, Corrected, st) ==
        Some(st.(current := q + 1, line := line,
                 tokens := st.tokens + [Token(STRING, src[st.current..q + 1], Literal.String(src[st.current + 1..q]), line)]))
  {
    QuoteOpensLiteral(src, Corrected, st);
    ClosedLiteralCorrected(src, st.(current := st.current + 1), q);
  }


  /** Corrected, a literal with no closing quote is reported on the line the text ends on,
      emits nothing, and ends the scan. */
  lemma CorrectedUnterminated(src: string, st: ScanState)
    requires st.start == st.current < |src| && src[st.current] == '"'
    requires forall k | st.current < k < |src| :: src[k] != '"'
    ensures var line := st.line + Newlines(src[st.current + 1..]);
      ScanToken(src, Corrected, st) ==
        Some(st.(current := |src| + 1, line := line, errors := st.errors + [ScanError(line, "Unterminated string.")]))
  {
    var i := st.current;
    var st1 := st.(current := i + 1);
    assert ScanToken(src, Corrected, st) == StringLit(src, Corrected, st1);
    StringEndRunsOut(src, i + 1, st.line);
    StringEndPasses(src, i + 1, st.line);
    assert min(i + 1, |src|) == i + 1 && min(|src| + 1, |src|) == |src|;
    assert src[i + 1..|src|] == src[i + 1..];
  }

  /** Corrected, `"ab"` is the STRING token `"ab"` with contents `ab`, then EOF. */
  lemma QuotedAbCorrected()
    ensures ScanTokens("\"ab\"", Corrected) ==
      Some([Token(STRING, "\"ab\"", Literal.String("ab"), 1), Token(EOF, "", Literal.Nil, 1)])
  {
    var src := "\"ab\"";
    var t := Token(STRING, "\"ab\"", Literal.String("ab"), 1);
    var st4 := ScanState(0, 4, 1, [t], []);
    assert ScanToken(src, Corrected, Initial) == Some(st4) by {
      assert forall k | 0 < k < 3 :: src[k] != '"';
      CorrectedStringLiteral(src, Initial, 3);
      assert src[0..4] == src;
      assert src[1..3] == "ab";
      assert Newlines(src[1..3]) == 0 by {
        assert "ab"[..1] == "a";
        assert "a"[..0] == "";
      }
      assert Token(STRING, src[0..4], Literal.String(src[1..3]), 1) == t;
      assert Initial.tokens + [t] == [t];
    }
    var st5 := ScanState(4, 5, 1, [t], []);
    assert ScanToken(src, Corrected, st4.(start := 4)) == Some(st5) by {
      assert CharAt(src, 4) == None;
    }
    assert ScanFrom(src, Corrected, st4) == Some(st5);
    assert ScanFrom(src, Corrected, Initial) == Some(st5);
    assert [t] + [EofToken(1)] == [t, Token(EOF, "", Literal.Nil, 1)];
  }

  // ---------------------------------------------------------------------------
  // Character by character

  /** Each of ( ) { } , . - + ; * is one token of its kind whose lexeme is that character. */
  lemma SingleCharacterToken(src: string, rule: StringRule, st: ScanState)
    requires st.start == st.current < |src| && src[st.current] in "(){},.-+;*"
    ensures ScanToken(src, rule, st) ==
      Some(st.(current := st.current + 1,
               tokens := st.tokens + [Token(SingleKind(src[st.current]), [src[st.current]], Literal.Nil, st.line)]))
  {
    assert src[st.start..st.current + 1] == [src[st.current]];
  }

  /** ! = < > followed by '=' are one two-character token; otherwise one one-character token. */
  lemma TwoCharacterToken(src: string, rule: StringRule, st: ScanState)
    requires st.start == st.current < |src| && src[st.current] in "!=<>"
    ensures st.current + 1 < |src| && src[st.current + 1] == '=' ==>
      ScanToken(src, rule, st) ==
        Some(st.(current := st.current + 2,
                 tokens := st.tokens + [Token(PairKinds(src[st.current]).0, src[st.current..st.current + 2], Literal.Nil, st.line)]))
    ensures !(st.current + 1 < |src| && src[st.current + 1] == '=') ==>
      ScanToken(src, rule, st) ==
        Some(st.(current := st.current + 1,
                 tokens := st.tokens + [Token(PairKinds(src[st.current]).1, [src[st.current]], Literal.Nil, st.line)]))
  {
    var (two, one) := PairKinds(src[st.current]);
    assert ScanToken(src, rule, st) == EqualOr(src, st.(current := st.current + 1), two, one);
    assert src[st.start..st.current + 1] == [src[st.current]];
  }

  /** match2 consumes the expected character exactly when it is the next one. */
  lemma Match2Consumes(src: string, current: nat, expected: char)
    ensures Matches(src, current, expected) <==> current < |src| && src[current] == expected
  { }

  /** `//` emits nothing and reports nothing: it consumes through the first newline after it,
      counting that one line, or to the end of the text when there is none. */
  lemma CommentSkipped(src: string, rule: StringRule, st: ScanState)
    requires st.start == st.current && st.current + 1 < |src| && src[st.current] == '/' && src[st.current + 1] == '/'
    ensures ScanToken(src, rule, st).Some?
    ensures var r := ScanToken(src, rule, st).value;
      r.tokens == st.tokens && r.errors == st.errors && r.start == st.start &&
      st.current + 2 < r.current <= |src| + 1 &&
      (forall k | st.current + 2 <= k < r.current - 1 && k < |src| :: src[k] != '\n') &&
      (r.current - 1 < |src| ==> src[r.current - 1] == '\n' && r.line == st.line + 1) &&
      (r.current - 1 >= |src| ==> r.current == |src| + 1 && r.line == st.line)
  { }

  /** A '/' not followed by another is the SLASH token. */
  lemma LoneSlash(src: string, rule: StringRule, st: ScanState)
    requires st.start == st.current < |src| && src[st.current] == '/'
    requires !(st.current + 1 < |src| && src[st.current + 1] == '/')
    ensures ScanToken(src, rule, st) ==
      Some(st.(current := st.current + 1, tokens := st.tokens + [Token(SLASH, "/", Literal.Nil, st.line)]))
  {
    assert src[st.start..st.current + 1] == "/";
  }

  /** Blanks emit nothing, and a newline emits nothing but counts one line. */
  lemma WhitespaceAndNewline(src: string, rule: StringRule, st: ScanState)
    requires st.start == st.current < |src| && src[st.current] in " \r\t\n"
    ensures src[st.current] != '\n' ==> ScanToken(src, rule, st) == Some(st.(current := st.current + 1))
    ensures src[st.current] == '\n' ==> ScanToken(src, rule, st) == Some(st.(current := st.current + 1, line := st.line + 1))
  { }

  /** The characters scanToken has a rule for. */
  const Recognised: string := "(){},.-+;*!=<>/ \r\t\n\""

  /** Any other character is reported on the current line and emits nothing; scanning goes on
      with the next character. */
  lemma UnexpectedCharacterReported(src: string, rule: StringRule, st: ScanState)
    requires st.start == st.current < |src| && src[st.current] !in Recognised
    ensures ScanToken(src, rule, st) ==
      Some(st.(current := st.current + 1,
               errors := st.errors + [ScanError(st.line, "Unexpected character '" + [src[st.current]] + "'.")]))
  { }

  /** There is no rule for numbers or identifiers: digits, letters and '_' are unexpected. */
  lemma DigitsAndLettersUnexpected(c: char)
    requires '0' <= c <= '9' || 'a' <= c <= 'z' || 'A' <= c <= 'Z' || c == '_'
    ensures c !in Recognised
  { }

  /** The one-character tokens, as a table independent of scanToken. */
  function SingleKind(c: char): TokenType
    requires c in "(){},.-+;*"
  {
    if c == '(' then LEFT_PAREN
    else if c == ')' then RIGHT_PAREN
    else if c == '{' then LEFT_BRACE
    else if c == '}' then RIGHT_BRACE
    else if c == ',' then COMMA
    else if c == '.' then DOT
    else if c == '-' then MINUS
    else if c == '+' then PLUS
    else if c == ';' then SEMICOLON
    else STAR
  }

  /** The operators that may be followed by '=': the two-character kind and the one-character kind. */
  function PairKinds(c: char): (TokenType, TokenType)
    requires c in "!=<>"
  {
    if c == '!' then (BANG_EQUAL, BANG)
    else if c == '=' then (EQUAL_EQUAL, EQUAL)
    else if c == '<' then (LESS_EQUAL, LESS)
    else (GREATER_EQUAL, GREATER)
  }
}
