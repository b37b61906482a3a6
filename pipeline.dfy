/** The interpreter's own test program end to end: its tokens parse to the statements the
    evaluator runs, and running them prints 6 and then 3. */
module Pipeline {

  import opened Wrappers
  import opened Tokens
  import opened Syntax
  import opened ParserSpec
  import opened ParserProperties
  import opened Interpreter

  /** The tokens a full Lox scanner gives for `print 2*3; var x = 3; print x;`, all on line 1,
      ending in EOF. This snapshot's scanner cannot produce them: it has no number or
      identifier rule, so it reports digits and letters as unexpected characters. */
  const ScenarioTokens: seq<Token> := [
    Token(PRINT, "print", Literal.Nil, 1),
    Token(NUMBER, "2", Literal.Number(Two), 1),
    Token(STAR, "*", Literal.Nil, 1),
    Token(NUMBER, "3", Literal.Number(Three), 1),
    Token(SEMICOLON, ";", Literal.Nil, 1),
    Token(VAR, "var", Literal.Nil, 1),
    ScenarioX,
    Token(EQUAL, "=", Literal.Nil, 1),
    Token(NUMBER, "3", Literal.Number(Three), 1),
    Token(SEMICOLON, ";", Literal.Nil, 1),
    Token(PRINT, "print", Literal.Nil, 1),
    ScenarioX,
    Token(SEMICOLON, ";", Literal.Nil, 1),
    Token(EOF, "", Literal.Nil, 1)
  ]

  /** `var` at the start of a declaration hands the rest to var_declaration. */
  lemma {:induction false} VarDeclarationStarts(ts: seq<Token>, pos: nat)
    requires Cursor(ts, pos) && ts[pos].tokenType == VAR
    ensures Declaration(ts, pos) == VarDeclaration(ts, pos + 1)
  {
  }

  /** `print a * b;`, for atoms a and b and a factor operator, is the print of the product. */
  lemma {:induction false} PrintProduct(ts: seq<Token>, pos: nat)
    requires Cursor(ts, pos) && pos + 4 < |ts| && ts[pos].tokenType == PRINT
    requires IsAtom(ts[pos + 1]) && IsAtom(ts[pos + 3]) && ts[pos + 4].tokenType == SEMICOLON
    requires ts[pos + 2].tokenType == STAR || ts[pos + 2].tokenType == SLASH
    ensures Declaration(ts, pos) ==
      Ok(Stmt.Print(Binary(AtomExpr(ts[pos + 1]), ts[pos + 2], AtomExpr(ts[pos + 3]))), pos + 5)
  {
    var a, b := AtomExpr(ts[pos + 1]), AtomExpr(ts[pos + 3]);
    var product := Binary(a, ts[pos + 2], b);
    UnaryAtom(ts, pos + 1);
    UnaryAtom(ts, pos + 3);
    assert LevelExpr(ts, pos + 1, FactorLevel) == Ok(product, pos + 4) by {
      assert LevelLoop(ts, pos + 4, FactorLevel, product) == Ok(product, pos + 4);
      assert LevelLoop(ts, pos + 2, FactorLevel, a) == Ok(product, pos + 4);
    }
    LevelClimbs(ts, pos + 1, FactorLevel, product, pos + 4);
    PrintDeclaration(ts, pos, product, pos + 4);
  }

  /** A declaration that parses hands the rest of the parse its statement. */
  lemma {:induction false} ParseStep(ts: seq<Token>, pos: nat, done: seq<Stmt>, s: Stmt, n: nat)
    requires Cursor(ts, pos) && !IsAtEnd(ts, pos) && Declaration(ts, pos) == Ok(s, n)
    ensures ParseFrom(ts, pos, done, []) == ParseFrom(ts, n, done + [s], [])
  {
  }

  /** `var x = c;` for an atom c is the declaration of x with initializer c. */
  lemma {:induction false} VarOfAtom(ts: seq<Token>, pos: nat)
    requires Cursor(ts, pos) && pos + 5 < |ts|
    requires ts[pos].tokenType == VAR && ts[pos + 1].tokenType == IDENTIFIER
    requires ts[pos + 2].tokenType == EQUAL && IsAtom(ts[pos + 3]) && ts[pos + 4].tokenType == SEMICOLON
    ensures Declaration(ts, pos) == Ok(Var(ts[pos + 1], AtomExpr(ts[pos + 3])), pos + 5)
  {
    AtomExpression(ts, pos + 3);
    VarWithInitializer(ts, pos + 1, AtomExpr(ts[pos + 3]), pos + 4);
    VarDeclarationStarts(ts, pos);
  }

  /** `print y;` then the end: the parse appends the print and reports no error. */
  lemma {:induction false} PrintThenEnd(ts: seq<Token>, pos: nat, done: seq<Stmt>)
    requires ValidTokens(ts) && |ts| == pos + 4
    requires ts[pos].tokenType == PRINT && IsAtom(ts[pos + 1]) && ts[pos + 2].tokenType == SEMICOLON
    ensures ParseFrom(ts, pos, done, []) == (done + [Stmt.Print(AtomExpr(ts[pos + 1]))], [])
  {
    AtomExpression(ts, pos + 1);
    PrintDeclaration(ts, pos, AtomExpr(ts[pos + 1]), pos + 2);
    ParseStep(ts, pos, done, Stmt.Print(AtomExpr(ts[pos + 1])), pos + 3);
  }

  /** `print a * b; var x = c; print y;`: three statements and no error. */
  lemma {:induction false} ThreeStatements(ts: seq<Token>)
    requires ValidTokens(ts) && |ts| == 14
    requires ts[0].tokenType == PRINT && IsAtom(ts[1]) && ts[2].tokenType == STAR && IsAtom(ts[3])
    requires ts[4].tokenType == SEMICOLON && ts[5].tokenType == VAR && ts[6].tokenType == IDENTIFIER
    requires ts[7].tokenType == EQUAL && IsAtom(ts[8]) && ts[9].tokenType == SEMICOLON
    requires ts[10].tokenType == PRINT && IsAtom(ts[11]) && ts[12].tokenType == SEMICOLON
    ensures ParserSpec.Parse(ts) ==
      ([Stmt.Print(Binary(AtomExpr(ts[1]), ts[2], AtomExpr(ts[3]))),
        Var(ts[6], AtomExpr(ts[8])),
        Stmt.Print(AtomExpr(ts[11]))], [])
  {
    var s0 := Stmt.Print(Binary(AtomExpr(ts[1]), ts[2], AtomExpr(ts[3])));
    var s1 := Var(ts[6], AtomExpr(ts[8]));
    var s2 := Stmt.Print(AtomExpr(ts[11]));
    PrintProduct(ts, 0);
    ParseStep(ts, 0, [], s0, 5);
    VarOfAtom(ts, 5);
    ParseStep(ts, 5, [] + [s0], s1, 10);
    PrintThenEnd(ts, 10, [] + [s0] + [s1]);
    assert [] + [s0] + [s1] + [s2] == [s0, s1, s2];
  }

  /** The scenario's tokens have the shape `print a * b; var x = c; print y;`. */
  lemma ScenarioShape()
    ensures var ts := ScenarioTokens;
      ValidTokens(ts) && |ts| == 14 &&
      ts[0].tokenType == PRINT && IsAtom(ts[1]) && ts[2].tokenType == STAR && IsAtom(ts[3]) &&
      ts[4].tokenType == SEMICOLON && ts[5].tokenType == VAR && ts[6].tokenType == IDENTIFIER &&
      ts[7].tokenType == EQUAL && IsAtom(ts[8]) && ts[9].tokenType == SEMICOLON &&
      ts[10].tokenType == PRINT && IsAtom(ts[11]) && ts[12].tokenType == SEMICOLON
  {
  }

  /** The atoms of the scenario's tokens build the statements the evaluator's scenario runs. */
  lemma ScenarioAtoms()
    ensures var ts := ScenarioTokens;
      IsAtom(ts[1]) && IsAtom(ts[3]) && IsAtom(ts[8]) && IsAtom(ts[11]) &&
      [Stmt.Print(Binary(AtomExpr(ts[1]), ts[2], AtomExpr(ts[3]))),
       Var(ts[6], AtomExpr(ts[8])),
       Stmt.Print(AtomExpr(ts[11]))] == ScenarioProgram
  {
    var ts := ScenarioTokens;
    assert AtomExpr(ts[1]) == Expr.Literal(Literal.Number(Two));
    assert AtomExpr(ts[3]) == AtomExpr(ts[8]) == Expr.Literal(Literal.Number(Three));
    assert ts[6] == ts[11] == ScenarioX;
  }

  /** parse on the scenario's tokens: the statements the evaluator's scenario runs, and no
      error. */
  lemma ScenarioParses()
    ensures ParserSpec.Parse(ScenarioTokens) == (ScenarioProgram, [])
  {
    ScenarioShape();
    ScenarioAtoms();
    ThreeStatements(ScenarioTokens);
  }

  /** Parsing the tokens and running the statements prints "6" and then "3" and leaves x bound
      to 3, when the host computes 2.0 * 3.0 as 6.0 and renders 6.0 and 3.0 as "6" and "3"
      once a trailing ".0" is trimmed, as Rust's `f64` Display does without any trim. */
  lemma ScenarioEndToEnd(arith: Arith, numText: Number -> string)
    requires arith.mul(Two, Three) == Six
    requires TrimPointZero(numText(Six)) == "6" && TrimPointZero(numText(Three)) == "3"
    ensures ParserSpec.Parse(ScenarioTokens).1 == []
    ensures ExecAll(arith, numText, Machine(map[], []), ParserSpec.Parse(ScenarioTokens).0) ==
      (Machine(map["x" := Value.Number(Three)], ["6", "3"]), None)
  {
    ScenarioParses();
    ScenarioRuns(arith, numText);
  }
}
