/** Properties of the parser specification: caps, cursor guarantees, error recovery, and the
    shape of the trees it builds (precedence, associativity, desugaring). */
module ParserProperties {

  import opened Wrappers
  import opened Tokens
  import opened Syntax
  import opened ParserSpec

  // ---------------------------------------------------------------------------
  // Limits and guarantees of the loops

  /** finish_call's loop only ever extends the arguments it was given and never returns more
      than 255 of them. */
  lemma {:induction false} ArgumentsCapped(ts: seq<Token>, pos: nat, first: Token, args: seq<Expr>)
    requires Cursor(ts, pos) && |args| <= 255
    ensures var r := Arguments(ts, pos, first, args);
      r.Ok? ==> args <= r.value && |r.value| <= 255
    decreases |ts| - pos
  {
    if !Check(ts, pos, RIGHT_PAREN) && |args| < 255 {
      var arg := ParserSpec.Expression(ts, pos);
      if arg.Ok? {
        var p := if Check(ts, arg.next, COMMA) then Advanced(ts, arg.next) else arg.next;
        ArgumentsCapped(ts, p, first, args + [arg.value]);
      }
    }
  }

  /** A call has at most 255 arguments. */
  lemma {:induction false} FinishCallCapped(ts: seq<Token>, pos: nat)
    requires Cursor(ts, pos)
    ensures FinishCall(ts, pos).Ok? ==> |FinishCall(ts, pos).value| <= 255
  {
    ArgumentsCapped(ts, pos, ts[pos], []);
  }

  /** With 255 arguments collected and no `)` next, the error is "too many arguments", reported
      on the token the argument list started at. */
  lemma {:induction false} TooManyArguments(ts: seq<Token>, pos: nat, first: Token, args: seq<Expr>)
    requires Cursor(ts, pos) && |args| == 255 && !Check(ts, pos, RIGHT_PAREN)
    ensures Arguments(ts, pos, first, args) == Err(ParseError(first, "too many arguments"), pos)
  {
  }

  /** The loop of finish_call only stops before a `)`, so its closing consume cannot fail:
      no call is ever rejected with "Expected ')' after arguments". */
  lemma {:induction false} ArgumentsClose(ts: seq<Token>, pos: nat, first: Token, args: seq<Expr>)
    requires Cursor(ts, pos) && |args| <= 255 && Check(ts, pos, RIGHT_PAREN)
    ensures Arguments(ts, pos, first, args) == Ok(args, pos + 1)
  {
  }

  /** The parameter loop only extends the parameters, never returns more than 255 of them, and
      stops before a `)`. */
  lemma {:induction false} ParametersCapped(ts: seq<Token>, pos: nat, first: Token, params: seq<Token>)
    requires Cursor(ts, pos) && |params| <= 255
    ensures var r := Parameters(ts, pos, first, params);
      r.Ok? ==> params <= r.value && |r.value| <= 255 && Check(ts, r.next, RIGHT_PAREN)
    decreases |ts| - pos
  {
    if !Check(ts, pos, RIGHT_PAREN) && |params| < 255 {
      var param := Consume(ts, pos, IDENTIFIER, "expected IDENTIFIER arg, got something else");
      if param.Ok? {
        var p := if Check(ts, param.next, COMMA) then Advanced(ts, param.next) else param.next;
        assert Parameters(ts, pos, first, params) == Parameters(ts, p, first, params + [param.value]);
        ParametersCapped(ts, p, first, params + [param.value]);
      }
    }
  }

  /** A parameter list that already holds 255 parameters and is not closed by `)` is rejected
      with "too many arguments" on the token after the declaration's `(`, which
      func_declaration passes as `first`. */
  lemma {:induction false} TooManyParameters(ts: seq<Token>, pos: nat, first: Token, params: seq<Token>)
    requires Cursor(ts, pos) && |params| == 255 && !Check(ts, pos, RIGHT_PAREN)
    ensures Parameters(ts, pos, first, params) == Err(ParseError(first, "too many arguments"), pos)
  {
  }

  /** Every token of `ps` is an identifier. */
  predicate AllIdentifiers(ps: seq<Token>) {
    forall i | 0 <= i < |ps| :: ps[i].tokenType == IDENTIFIER
  }

  /** Every parameter of a function declaration is an identifier. */
  lemma {:induction false} ParametersAreIdentifiers(ts: seq<Token>, pos: nat, first: Token, params: seq<Token>)
    requires Cursor(ts, pos) && |params| <= 255 && AllIdentifiers(params)
    ensures var r := Parameters(ts, pos, first, params); r.Ok? ==> AllIdentifiers(r.value)
    decreases |ts| - pos
  {
    if !Check(ts, pos, RIGHT_PAREN) && |params| < 255 {
      var param := Consume(ts, pos, IDENTIFIER, "expected IDENTIFIER arg, got something else");
      if param.Ok? {
        var p := if Check(ts, param.next, COMMA) then Advanced(ts, param.next) else param.next;
        assert Parameters(ts, pos, first, params) == Parameters(ts, p, first, params + [param.value]);
        assert AllIdentifiers(params + [param.value]) by {
          assert forall i | 0 <= i < |params| :: (params + [param.value])[i] == params[i];
        }
        ParametersAreIdentifiers(ts, p, first, params + [param.value]);
      }
    }
  }

  /** block_statement's loop yields a Block holding the declarations parsed before it, and
      stops just after a `}`. */
  lemma {:induction false} BlockLoopShape(ts: seq<Token>, pos: nat, statements: seq<Stmt>)
    requires Cursor(ts, pos)
    ensures var r := BlockLoop(ts, pos, statements);
      r.Ok? ==> r.value.Block? && statements <= r.value.statements && ts[r.next - 1].tokenType == RIGHT_BRACE
    decreases |ts| - pos
  {
    if !Check(ts, pos, RIGHT_BRACE) && !IsAtEnd(ts, pos) {
      var d := Declaration(ts, pos);
      if d.Ok? {
        BlockLoopShape(ts, d.next, statements + [d.value]);
        assert BlockLoop(ts, pos, statements) == BlockLoop(ts, d.next, statements + [d.value]);
      }
    } else {
      var close := Consume(ts, pos, RIGHT_BRACE, "Expected '}' after block");
      assert close.Ok? ==> BlockLoop(ts, pos, statements) == Ok(Block(statements), close.next);
    }
  }

  /** block_statement yields a Block and stops just after a `}`; so the body of a function
      declaration, parsed by it, is always a block. */
  lemma {:induction false} BlockStatementIsBlock(ts: seq<Token>, pos: nat)
    requires Cursor(ts, pos)
    ensures var r := BlockStatement(ts, pos);
      r.Ok? ==> r.value.Block? && ts[r.next - 1].tokenType == RIGHT_BRACE
  {
    BlockLoopShape(ts, pos, []);
  }

  // ---------------------------------------------------------------------------
  // Error recovery

  /** synchronise's loop stops at the first point at or after p where it may stop. */
  lemma {:induction false} SyncLoopStops(ts: seq<Token>, p: nat)
    requires Cursor(ts, p) && (p >= 1 || IsAtEnd(ts, p))
    ensures var q := SyncLoop(ts, p);
      SyncPoint(ts, q) && forall k | p <= k < q :: !SyncPoint(ts, k)
    decreases |ts| - p
  {
    if !IsAtEnd(ts, p) && ts[p - 1].tokenType != SEMICOLON && !StartsDeclaration(ts[p].tokenType) {
      SyncLoopStops(ts, Advanced(ts, p));
    }
  }

  /** synchronise discards the token under the cursor and then stops at the first token that
      follows a `;` or begins a declaration, or at EOF. */
  lemma {:induction false} SynchroniseStops(ts: seq<Token>, pos: nat)
    requires Cursor(ts, pos)
    ensures var q := Synchronise(ts, pos);
      SyncPoint(ts, q) && forall k | Advanced(ts, pos) <= k < q :: !SyncPoint(ts, k)
  {
    SyncLoopStops(ts, Advanced(ts, pos));
  }

  /** parse's loop keeps what it has collected, and every statement or error it adds consumes
      at least one token, so there are fewer of them than tokens. */
  lemma {:induction false} ParseFromBound(ts: seq<Token>, pos: nat, statements: seq<Stmt>, errors: seq<ParseError>)
    requires Cursor(ts, pos)
    ensures var r := ParseFrom(ts, pos, statements, errors);
      statements <= r.0 && errors <= r.1 &&
      |r.0| - |statements| + |r.1| - |errors| <= |ts| - 1 - pos
    decreases |ts| - pos
  {
    if !IsAtEnd(ts, pos) {
      match Declaration(ts, pos)
      case Ok(s, n) => ParseFromBound(ts, n, statements + [s], errors);
      case Err(e, n) => ParseFromBound(ts, Synchronise(ts, n), statements, errors + [e]);
    }
  }

  /** A program of n tokens before EOF yields at most n statements and errors in all. */
  lemma {:induction false} ParseBound(ts: seq<Token>)
    requires ValidTokens(ts)
    ensures |Parse(ts).0| + |Parse(ts).1| <= |ts| - 1
  {
    ParseFromBound(ts, 0, [], []);
  }

  // ---------------------------------------------------------------------------
  // Atoms climbing the precedence levels

  /** The tokens primary turns into a leaf without looking further. */
  predicate IsAtom(t: Token) {
    match t.tokenType
    case IDENTIFIER | NUMBER | STRING | TRUE | FALSE | NIL => true
    case _ => false
  }

  /** The leaf primary builds from an atom token. */
  function AtomExpr(t: Token): Expr
    requires IsAtom(t)
  {
    match t.tokenType
    case IDENTIFIER => Variable(t)
    case TRUE => Expr.Literal(Literal.Boolean(true))
    case FALSE => Expr.Literal(Literal.Boolean(false))
    case NIL => Expr.Literal(Literal.Nil)
    case _ => Expr.Literal(t.literal)
  }

  /** The binary operators of all six levels. */
  predicate IsBinaryOperator(t: TokenType) {
    match t
    case OR | AND | BANG_EQUAL | EQUAL_EQUAL | GREATER | GREATER_EQUAL | LESS | LESS_EQUAL
      | MINUS | PLUS | STAR | SLASH => true
    case _ => false
  }

  /** The next looser level: the inverse of Tighter. */
  function Looser(l: Level): Option<Level> {
    match l
    case OrLevel => None
    case AndLevel => Some(OrLevel)
    case EqualityLevel => Some(AndLevel)
    case ComparisonLevel => Some(EqualityLevel)
    case TermLevel => Some(ComparisonLevel)
    case FactorLevel => Some(TermLevel)
  }

  /** An atom not followed by `(` is a unary expression on its own. */
  lemma {:induction false} UnaryAtom(ts: seq<Token>, pos: nat)
    requires Cursor(ts, pos) && IsAtom(ts[pos]) && ts[pos + 1].tokenType != LEFT_PAREN
    ensures ParserSpec.Unary(ts, pos) == Ok(AtomExpr(ts[pos]), pos + 1)
  {
    assert Primary(ts, pos) == Ok(AtomExpr(ts[pos]), pos + 1);
    assert CallLoop(ts, pos + 1, AtomExpr(ts[pos])) == Ok(AtomExpr(ts[pos]), pos + 1);
  }

  /** A unary expression followed by no binary operator is the whole expression of every
      level. */
  lemma {:induction false} UnaryClimbs(ts: seq<Token>, pos: nat, l: Level, e: Expr, p: nat)
    requires Cursor(ts, pos) && ParserSpec.Unary(ts, pos) == Ok(e, p) && !IsBinaryOperator(ts[p].tokenType)
    ensures LevelExpr(ts, pos, l) == Ok(e, p)
    decreases Rank(l)
  {
    match Tighter(l)
    case Some(t) => UnaryClimbs(ts, pos, t, e, p);
    case None =>
  }

  /** A level's expression followed by neither a binary operator nor `=` is the whole
      expression. */
  lemma {:induction false} LevelClimbs(ts: seq<Token>, pos: nat, l: Level, e: Expr, p: nat)
    requires Cursor(ts, pos) && LevelExpr(ts, pos, l) == Ok(e, p)
    requires !IsBinaryOperator(ts[p].tokenType) && ts[p].tokenType != EQUAL
    ensures ParserSpec.Expression(ts, pos) == Ok(e, p)
    decreases 20 - Rank(l)
  {
    match Looser(l)
    case Some(u) =>
      assert Operand(ts, pos, u) == LevelExpr(ts, pos, l);
      LevelClimbs(ts, pos, u, e, p);
    case None =>
  }

  /** An atom followed by neither `(`, a binary operator nor `=` is the whole expression. */
  lemma {:induction false} AtomExpression(ts: seq<Token>, pos: nat)
    requires Cursor(ts, pos) && IsAtom(ts[pos])
    requires var t := ts[pos + 1].tokenType; t != LEFT_PAREN && !IsBinaryOperator(t) && t != EQUAL
    ensures ParserSpec.Expression(ts, pos) == Ok(AtomExpr(ts[pos]), pos + 1)
  {
    UnaryAtom(ts, pos);
    UnaryClimbs(ts, pos, OrLevel, AtomExpr(ts[pos]), pos + 1);
    LevelClimbs(ts, pos, OrLevel, AtomExpr(ts[pos]), pos + 1);
  }

  /** A unary expression followed by no `*` or `/` is a whole factor. */
  lemma {:induction false} FactorOfUnary(ts: seq<Token>, pos: nat, e: Expr, p: nat)
    requires Cursor(ts, pos) && ParserSpec.Unary(ts, pos) == Ok(e, p)
    requires ts[p].tokenType != STAR && ts[p].tokenType != SLASH
    ensures LevelExpr(ts, pos, FactorLevel) == Ok(e, p)
  {
    assert LevelLoop(ts, p, FactorLevel, e) == Ok(e, p);
  }

  // ---------------------------------------------------------------------------
  // Precedence and associativity

  /** `a + b * c`: factor operators bind tighter than term operators. */
  lemma {:induction false} FactorBindsTighter(ts: seq<Token>)
    requires ValidTokens(ts) && |ts| == 6
    requires IsAtom(ts[0]) && IsAtom(ts[2]) && IsAtom(ts[4])
    requires ts[1].tokenType == PLUS || ts[1].tokenType == MINUS
    requires ts[3].tokenType == STAR || ts[3].tokenType == SLASH
    ensures var a, b, c := AtomExpr(ts[0]), AtomExpr(ts[2]), AtomExpr(ts[4]);
      ParserSpec.Expression(ts, 0) == Ok(Binary(a, ts[1], Binary(b, ts[3], c)), 5)
  {
    var a, b, c := AtomExpr(ts[0]), AtomExpr(ts[2]), AtomExpr(ts[4]);
    TermLoopOfProduct(ts);
    LevelClimbs(ts, 0, TermLevel, Binary(a, ts[1], Binary(b, ts[3], c)), 5);
  }

  /** The term level alone on `a + b * c` takes the product as its right operand. */
  lemma {:induction false} TermLoopOfProduct(ts: seq<Token>)
    requires ValidTokens(ts) && |ts| == 6
    requires IsAtom(ts[0]) && IsAtom(ts[2]) && IsAtom(ts[4])
    requires ts[1].tokenType == PLUS || ts[1].tokenType == MINUS
    requires ts[3].tokenType == STAR || ts[3].tokenType == SLASH
    ensures var a, b, c := AtomExpr(ts[0]), AtomExpr(ts[2]), AtomExpr(ts[4]);
      LevelExpr(ts, 0, TermLevel) == Ok(Binary(a, ts[1], Binary(b, ts[3], c)), 5)
  {
    var a, b, c := AtomExpr(ts[0]), AtomExpr(ts[2]), AtomExpr(ts[4]);
    UnaryAtom(ts, 0);
    UnaryAtom(ts, 2);
    UnaryAtom(ts, 4);
    FactorOfUnary(ts, 0, a, 1);
    var bc, abc := Binary(b, ts[3], c), Binary(a, ts[1], Binary(b, ts[3], c));
    assert Operand(ts, 4, FactorLevel) == Ok(c, 5);
    LevelLoopStep(ts, 3, FactorLevel, b);
    assert LevelLoop(ts, 5, FactorLevel, bc) == Ok(bc, 5);
    assert LevelExpr(ts, 2, FactorLevel) == Ok(bc, 5) by {
      assert Operand(ts, 2, FactorLevel) == Ok(b, 3);
    }
    assert Operand(ts, 2, TermLevel) == Ok(bc, 5);
    LevelLoopStep(ts, 1, TermLevel, a);
    assert LevelLoop(ts, 5, TermLevel, abc) == Ok(abc, 5);
    assert Operand(ts, 0, TermLevel) == Ok(a, 1);
  }

  /** `a - b - c`: operators of one level group to the left. */
  lemma {:induction false} TermGroupsLeft(ts: seq<Token>)
    requires ValidTokens(ts) && |ts| == 6
    requires IsAtom(ts[0]) && IsAtom(ts[2]) && IsAtom(ts[4])
    requires ts[1].tokenType == PLUS || ts[1].tokenType == MINUS
    requires ts[3].tokenType == PLUS || ts[3].tokenType == MINUS
    ensures var a, b, c := AtomExpr(ts[0]), AtomExpr(ts[2]), AtomExpr(ts[4]);
      ParserSpec.Expression(ts, 0) == Ok(Binary(Binary(a, ts[1], b), ts[3], c), 5)
  {
    var a, b, c := AtomExpr(ts[0]), AtomExpr(ts[2]), AtomExpr(ts[4]);
    TermLoopGroupsLeft(ts);
    LevelClimbs(ts, 0, TermLevel, Binary(Binary(a, ts[1], b), ts[3], c), 5);
  }

  /** The term level alone on `a - b - c` nests the first difference inside the second. */
  lemma {:induction false} TermLoopGroupsLeft(ts: seq<Token>)
    requires ValidTokens(ts) && |ts| == 6
    requires IsAtom(ts[0]) && IsAtom(ts[2]) && IsAtom(ts[4])
    requires ts[1].tokenType == PLUS || ts[1].tokenType == MINUS
    requires ts[3].tokenType == PLUS || ts[3].tokenType == MINUS
    ensures var a, b, c := AtomExpr(ts[0]), AtomExpr(ts[2]), AtomExpr(ts[4]);
      LevelExpr(ts, 0, TermLevel) == Ok(Binary(Binary(a, ts[1], b), ts[3], c), 5)
  {
    var a, b, c := AtomExpr(ts[0]), AtomExpr(ts[2]), AtomExpr(ts[4]);
    UnaryAtom(ts, 0);
    UnaryAtom(ts, 2);
    UnaryAtom(ts, 4);
    FactorOfUnary(ts, 0, a, 1);
    FactorOfUnary(ts, 2, b, 3);
    FactorOfUnary(ts, 4, c, 5);
    var ab, abc := Binary(a, ts[1], b), Binary(Binary(a, ts[1], b), ts[3], c);
    assert Operand(ts, 2, TermLevel) == Ok(b, 3);
    assert Operand(ts, 4, TermLevel) == Ok(c, 5);
    LevelLoopStep(ts, 1, TermLevel, a);
    LevelLoopStep(ts, 3, TermLevel, ab);
    assert LevelLoop(ts, 5, TermLevel, abc) == Ok(abc, 5);
    assert Operand(ts, 0, TermLevel) == Ok(a, 1);
  }

  /** `x = y = c`: assignment groups to the right. */
  lemma {:induction false} AssignmentGroupsRight(ts: seq<Token>)
    requires ValidTokens(ts) && |ts| == 6
    requires ts[0].tokenType == IDENTIFIER && ts[2].tokenType == IDENTIFIER && IsAtom(ts[4])
    requires ts[1].tokenType == EQUAL && ts[3].tokenType == EQUAL
    ensures ParserSpec.Expression(ts, 0) == Ok(Assign(ts[0], Assign(ts[2], AtomExpr(ts[4]))), 5)
  {
    var c := AtomExpr(ts[4]);
    AtomExpression(ts, 4);
    UnaryAtom(ts, 2);
    UnaryClimbs(ts, 2, OrLevel, Variable(ts[2]), 3);
    assert Assignment(ts, 2) == Ok(Assign(ts[2], c), 5);
    UnaryAtom(ts, 0);
    UnaryClimbs(ts, 0, OrLevel, Variable(ts[0]), 1);
  }

  /** `=` after anything but a variable is an error at the `=`, which is consumed. */
  lemma {:induction false} AssignmentNeedsVariable(ts: seq<Token>, pos: nat, e: Expr, p: nat)
    requires Cursor(ts, pos) && LevelExpr(ts, pos, OrLevel) == Ok(e, p)
    requires !e.Variable? && ts[p].tokenType == EQUAL
    ensures Assignment(ts, pos) == Err(ParseError(ts[p], "trailing equal sign in non assignment expression??"), p + 1)
  {
  }

  // ---------------------------------------------------------------------------
  // Declarations and statements

  /** `var x;` declares x with the Null initializer. */
  lemma {:induction false} VarWithoutInitializer(ts: seq<Token>, pos: nat)
    requires Cursor(ts, pos) && ts[pos].tokenType == IDENTIFIER && ts[pos + 1].tokenType == SEMICOLON
    ensures VarDeclaration(ts, pos) == Ok(Var(ts[pos], Null), pos + 2)
  {
  }

  /** `var x = e;` declares x with the initializer e. */
  lemma {:induction false} VarWithInitializer(ts: seq<Token>, pos: nat, e: Expr, p: nat)
    requires Cursor(ts, pos) && ts[pos].tokenType == IDENTIFIER && ts[pos + 1].tokenType == EQUAL
    requires ParserSpec.Expression(ts, pos + 2) == Ok(e, p) && ts[p].tokenType == SEMICOLON
    ensures VarDeclaration(ts, pos) == Ok(Var(ts[pos], e), p + 1)
  {
  }

  /** `print e;` at the top level. */
  lemma {:induction false} PrintDeclaration(ts: seq<Token>, pos: nat, e: Expr, p: nat)
    requires Cursor(ts, pos) && ts[pos].tokenType == PRINT
    requires ParserSpec.Expression(ts, pos + 1) == Ok(e, p) && ts[p].tokenType == SEMICOLON
    ensures Declaration(ts, pos) == Ok(Stmt.Print(e), p + 1)
  {
    assert Statement(ts, pos) == Ok(Stmt.Print(e), p + 1);
  }

  /** `e;` as a statement, for an atom e. */
  lemma {:induction false} AtomStatement(ts: seq<Token>, pos: nat)
    requires Cursor(ts, pos) && IsAtom(ts[pos]) && ts[pos + 1].tokenType == SEMICOLON
    ensures ExprStatement(ts, pos) == Ok(Stmt.Expression(AtomExpr(ts[pos])), pos + 2)
  {
    AtomExpression(ts, pos);
  }

  /** for_statement from its parts: an initializer, an optional condition up to `;`, an
      optional increment up to `)`, and a body, desugared into a while loop. */
  lemma {:induction false} ForStatementParts(ts: seq<Token>, pos: nat, init: Option<Stmt>, a: nat,
      condition: Option<Expr>, b: nat, increment: Option<Expr>, c: nat, body: Stmt, d: nat)
    requires Cursor(ts, pos) && ts[pos].tokenType == LEFT_PAREN
    requires pos < a <= b < c && c + 1 < |ts|
    requires ForInitializer(ts, pos + 1) == Ok(init, a)
    requires ForClause(ts, a, SEMICOLON) == Ok(condition, b) && ts[b].tokenType == SEMICOLON
    requires ForClause(ts, b + 1, RIGHT_PAREN) == Ok(increment, c)
    requires ts[c].tokenType == RIGHT_PAREN
    requires Statement(ts, c + 1) == Ok(body, d)
    ensures ForStatement(ts, pos) == Ok(Desugared(init, condition, increment, body), d)
  {
    assert Consume(ts, pos, LEFT_PAREN, "Expect '(' after FOR").next == pos + 1;
    assert Consume(ts, b, SEMICOLON, "Expected ';' before increment in FOR").next == b + 1;
    assert Consume(ts, c, RIGHT_PAREN, "Expected final ')' in FOR").next == c + 1;
    assert !IsAtEnd(ts, pos) && !IsAtEnd(ts, b) && !IsAtEnd(ts, c);
  }

  /** An atom followed by `;` as the initializer of a `for`. */
  lemma {:induction false} ForInitializerAtom(ts: seq<Token>, pos: nat)
    requires Cursor(ts, pos) && IsAtom(ts[pos]) && ts[pos + 1].tokenType == SEMICOLON
    ensures ForInitializer(ts, pos) == Ok(Some(Stmt.Expression(AtomExpr(ts[pos]))), pos + 2)
  {
    AtomStatement(ts, pos);
  }

  /** `for` at a statement's start: the rest is a for statement. */
  lemma {:induction false} StatementFor(ts: seq<Token>, pos: nat)
    requires Cursor(ts, pos) && ts[pos].tokenType == FOR
    ensures Statement(ts, pos) == ForStatement(ts, pos + 1)
  {
    assert !MatchTypes(ts, pos, [PRINT]) && !MatchTypes(ts, pos, [LEFT_BRACE]);
    assert !MatchTypes(ts, pos, [IF]) && !MatchTypes(ts, pos, [WHILE]) && MatchTypes(ts, pos, [FOR]);
  }

  /** The for statement of `for (x; y; z) w;`, after `for`. */
  lemma {:induction false} ForStatementOfAtoms(ts: seq<Token>)
    requires ValidTokens(ts) && |ts| == 11
    requires ts[1].tokenType == LEFT_PAREN
    requires IsAtom(ts[2]) && ts[3].tokenType == SEMICOLON
    requires IsAtom(ts[4]) && ts[5].tokenType == SEMICOLON
    requires IsAtom(ts[6]) && ts[7].tokenType == RIGHT_PAREN
    requires IsAtom(ts[8]) && ts[9].tokenType == SEMICOLON
    ensures var x, y, z, w := AtomExpr(ts[2]), AtomExpr(ts[4]), AtomExpr(ts[6]), AtomExpr(ts[8]);
      ForStatement(ts, 1) ==
        Ok(Block([Stmt.Expression(x), While(y, Block([Stmt.Expression(w), Stmt.Expression(z)]))]), 10)
  {
    var x, y, z, w := AtomExpr(ts[2]), AtomExpr(ts[4]), AtomExpr(ts[6]), AtomExpr(ts[8]);
    ForInitializerAtom(ts, 2);
    assert ForClause(ts, 4, SEMICOLON) == Ok(Some(y), 5) by {
      AtomExpression(ts, 4);
    }
    assert ForClause(ts, 6, RIGHT_PAREN) == Ok(Some(z), 7) by {
      AtomExpression(ts, 6);
    }
    assert Statement(ts, 8) == Ok(Stmt.Expression(w), 10) by {
      AtomStatement(ts, 8);
    }
    ForStatementParts(ts, 1, Some(Stmt.Expression(x)), 4, Some(y), 5, Some(z), 7, Stmt.Expression(w), 10);
  }

  /** The for statement of `for (;;) w;`, after `for`: `while (true) w;`. */
  lemma {:induction false} ForDefaultsToTrue(ts: seq<Token>)
    requires ValidTokens(ts) && |ts| == 8
    requires ts[1].tokenType == LEFT_PAREN
    requires ts[2].tokenType == SEMICOLON && ts[3].tokenType == SEMICOLON && ts[4].tokenType == RIGHT_PAREN
    requires IsAtom(ts[5]) && ts[6].tokenType == SEMICOLON
    ensures ForStatement(ts, 1) ==
      Ok(While(Expr.Literal(Literal.Boolean(true)), Stmt.Expression(AtomExpr(ts[5]))), 7)
  {
    assert Statement(ts, 5) == Ok(Stmt.Expression(AtomExpr(ts[5])), 7) by {
      AtomStatement(ts, 5);
    }
    assert ForInitializer(ts, 2) == Ok(None, 3);
    ForStatementParts(ts, 1, None, 3, None, 3, None, 4, Stmt.Expression(AtomExpr(ts[5])), 7);
  }

  /** `if` at a statement's start: the rest is an if statement. */
  lemma {:induction false} StatementIf(ts: seq<Token>, pos: nat)
    requires Cursor(ts, pos) && ts[pos].tokenType == IF
    ensures Statement(ts, pos) == IfStatement(ts, pos + 1)
  {
    assert !MatchTypes(ts, pos, [PRINT]) && !MatchTypes(ts, pos, [LEFT_BRACE]) && MatchTypes(ts, pos, [IF]);
  }

  /** A statement that begins with none of the statement keywords (or `{`) is an expression
      statement. */
  lemma {:induction false} StatementOfExpression(ts: seq<Token>, pos: nat)
    requires Cursor(ts, pos) && ts[pos].tokenType !in [PRINT, LEFT_BRACE, IF, WHILE, FOR]
    ensures Statement(ts, pos) == ExprStatement(ts, pos)
  {
    assert !MatchTypes(ts, pos, [PRINT]) && !MatchTypes(ts, pos, [LEFT_BRACE]);
    assert !MatchTypes(ts, pos, [IF]) && !MatchTypes(ts, pos, [WHILE]) && !MatchTypes(ts, pos, [FOR]);
  }

  /** The if statement of `if c s` without its parentheses, after `if`, parses the same as
      with them: the discarded consumes do not reject a missing parenthesis. */
  lemma {:induction false} IfWithoutParentheses(ts: seq<Token>)
    requires ValidTokens(ts) && |ts| == 5
    requires IsAtom(ts[1]) && IsAtom(ts[2]) && ts[3].tokenType == SEMICOLON
    requires ts[1].tokenType != EQUAL
    ensures IfStatement(ts, 1) == Ok(If(AtomExpr(ts[1]), Stmt.Expression(AtomExpr(ts[2])), None), 4)
  {
    AtomExpression(ts, 1);
    AtomStatement(ts, 2);
    StatementOfExpression(ts, 2);
    assert Consume(ts, 1, LEFT_PAREN, "Expect '(' after IF").next == 1;
    assert Consume(ts, 2, RIGHT_PAREN, "Expected ')' closing IF condition").next == 2;
    assert !MatchTypes(ts, 4, [ELSE]);
  }

  // ---------------------------------------------------------------------------
  // Programs

  /** A declaration that begins with none of the keywords (or `{`) is an expression
      statement. */
  lemma {:induction false} ExprDeclaration(ts: seq<Token>, pos: nat)
    requires Cursor(ts, pos)
    requires ts[pos].tokenType !in [VAR, FUN, PRINT, LEFT_BRACE, IF, WHILE, FOR]
    ensures Declaration(ts, pos) == ExprStatement(ts, pos)
  {
  }

  /** `a = b; print x;` with a not a variable: the failed declaration is reported on the `=`,
      parsing resumes after the `;`, and the print statement is still parsed. */
  lemma {:induction false} ErrorRecovery(ts: seq<Token>)
    requires ValidTokens(ts) && |ts| == 8
    requires IsAtom(ts[0]) && ts[0].tokenType != IDENTIFIER && ts[1].tokenType == EQUAL
    requires IsAtom(ts[2]) && ts[3].tokenType == SEMICOLON
    requires ts[4].tokenType == PRINT && ts[5].tokenType == IDENTIFIER && ts[6].tokenType == SEMICOLON
    ensures Parse(ts) ==
      ([Stmt.Print(Variable(ts[5]))], [ParseError(ts[1], "trailing equal sign in non assignment expression??")])
  {
    var err := ParseError(ts[1], "trailing equal sign in non assignment expression??");
    assert Declaration(ts, 0) == Err(err, 2) by {
      UnaryAtom(ts, 0);
      UnaryClimbs(ts, 0, OrLevel, AtomExpr(ts[0]), 1);
      AssignmentNeedsVariable(ts, 0, AtomExpr(ts[0]), 1);
      ExprDeclaration(ts, 0);
    }
    assert Synchronise(ts, 2) == 4 by {
      assert SyncLoop(ts, 3) == SyncLoop(ts, 4);
    }
    assert Declaration(ts, 4) == Ok(Stmt.Print(Variable(ts[5])), 7) by {
      AtomExpression(ts, 5);
      PrintDeclaration(ts, 4, Variable(ts[5]), 6);
    }
    assert [] + [err] == [err];
    assert ParseFrom(ts, 0, [], []) == ParseFrom(ts, 4, [], [err]);
    assert [] + [Stmt.Print(Variable(ts[5]))] == [Stmt.Print(Variable(ts[5]))];
    assert ParseFrom(ts, 4, [], [err]) == ParseFrom(ts, 7, [Stmt.Print(Variable(ts[5]))], [err]);
  }

  /** One argument followed by `,` or `)`: the loop of finish_call takes it and moves on. */
  lemma {:induction false} ArgumentsStep(ts: seq<Token>, pos: nat, first: Token, args: seq<Expr>, e: Expr, p: nat)
    requires Cursor(ts, pos) && |args| < 255 && !Check(ts, pos, RIGHT_PAREN)
    requires ParserSpec.Expression(ts, pos) == Ok(e, p)
    ensures Arguments(ts, pos, first, args) ==
      Arguments(ts, if Check(ts, p, COMMA) then p + 1 else p, first, args + [e])
  {
  }

  /** The parser's own test input `func(x, y, z)(2);`: two calls, the first with the three
      identifiers as arguments, each recording its closing parenthesis. */
  lemma {:induction false} CallTestExpression(ts: seq<Token>)
    requires ValidTokens(ts) && |ts| == 13
    requires ts[0].tokenType == IDENTIFIER && ts[1].tokenType == LEFT_PAREN
    requires ts[2].tokenType == IDENTIFIER && ts[3].tokenType == COMMA
    requires ts[4].tokenType == IDENTIFIER && ts[5].tokenType == COMMA
    requires ts[6].tokenType == IDENTIFIER && ts[7].tokenType == RIGHT_PAREN
    requires ts[8].tokenType == LEFT_PAREN && ts[9].tokenType == NUMBER && ts[10].tokenType == RIGHT_PAREN
    requires ts[11].tokenType == SEMICOLON
    ensures ParseExpr(ts) == Some(Expr.Call(
      Expr.Call(Variable(ts[0]), ts[7], [Variable(ts[2]), Variable(ts[4]), Variable(ts[6])]),
      ts[10], [Expr.Literal(ts[9].literal)]))
  {
    var x, y, z := Variable(ts[2]), Variable(ts[4]), Variable(ts[6]);
    var two := Expr.Literal(ts[9].literal);
    ThreeArguments(ts);
    OneArgument(ts);
    var inner := Expr.Call(Variable(ts[0]), ts[7], [x, y, z]);
    var outer := Expr.Call(inner, ts[10], [two]);
    assert ParserSpec.Unary(ts, 0) == Ok(outer, 11) by {
      CallLoopStep(ts, 1, Variable(ts[0]));
      CallLoopStep(ts, 8, inner);
      assert CallLoop(ts, 11, outer) == Ok(outer, 11);
      assert Primary(ts, 0) == Ok(Variable(ts[0]), 1);
      assert ParserSpec.Call(ts, 0) == Ok(outer, 11);
    }
    UnaryClimbs(ts, 0, OrLevel, outer, 11);
    LevelClimbs(ts, 0, OrLevel, outer, 11);
  }

  /** The first argument list of the test's call, `x, y, z)`, after its `(`. */
  lemma {:induction false} ThreeArguments(ts: seq<Token>)
    requires ValidTokens(ts) && |ts| > 8
    requires ts[2].tokenType == IDENTIFIER && ts[3].tokenType == COMMA
    requires ts[4].tokenType == IDENTIFIER && ts[5].tokenType == COMMA
    requires ts[6].tokenType == IDENTIFIER && ts[7].tokenType == RIGHT_PAREN
    ensures FinishCall(ts, 2) == Ok([Variable(ts[2]), Variable(ts[4]), Variable(ts[6])], 8)
  {
    var x, y, z := Variable(ts[2]), Variable(ts[4]), Variable(ts[6]);
    AtomExpression(ts, 2);
    AtomExpression(ts, 4);
    AtomExpression(ts, 6);
    assert [] + [x] == [x] && [x] + [y] == [x, y] && [x, y] + [z] == [x, y, z];
    ArgumentsStep(ts, 2, ts[2], [], x, 3);
    ArgumentsStep(ts, 4, ts[2], [x], y, 5);
    ArgumentsStep(ts, 6, ts[2], [x, y], z, 7);
    ArgumentsClose(ts, 7, ts[2], [x, y, z]);
  }

  /** The second argument list of the test's call, `2)`, after its `(`. */
  lemma {:induction false} OneArgument(ts: seq<Token>)
    requires ValidTokens(ts) && |ts| > 11
    requires ts[9].tokenType == NUMBER && ts[10].tokenType == RIGHT_PAREN
    ensures FinishCall(ts, 9) == Ok([Expr.Literal(ts[9].literal)], 11)
  {
    var two := Expr.Literal(ts[9].literal);
    AtomExpression(ts, 9);
    assert [] + [two] == [two];
    ArgumentsStep(ts, 9, ts[9], [], two, 10);
    ArgumentsClose(ts, 10, ts[9], [two]);
  }
}
