/** The recursive-descent parser as functions of the token list and a cursor position. Each
    grammar procedure yields a value or an error together with where it leaves the cursor
    (an error leaves it where the failing step stopped, since parsing resumes from there). */
module ParserSpec {

  import opened Wrappers
  import opened Tokens
  import opened Syntax

  /** The error a grammar procedure returns: the offending token and a message. */
  datatype ParseError = ParseError(token: Token, message: string)

  /** A procedure's outcome and the cursor position it leaves. */
  datatype Parsed<+T> = Ok(value: T, next: nat) | Err(error: ParseError, next: nat) {
    predicate IsFailure() { Err? }

    function PropagateFailure<U>(): Parsed<U>
      requires Err?
    {
      Err(error, next)
    }

    function Extract(): Parsed<T>
      requires Ok?
    {
      this
    }

    /** The outcome without the cursor, as the source's `Result` carries it. */
    function Outcome(): Result<T, ParseError> {
      match this
      case Ok(v, _) => Success(v)
      case Err(e, _) => Failure(e)
    }

    /** A value wrapped in `Some`, as an optional clause is. */
    function Optional(): (r: Parsed<Option<T>>)
      ensures r.Ok? == Ok? && r.next == next
      ensures Ok? ==> r.value == Some(value)
      ensures Err? ==> r.error == error
    {
      match this
      case Ok(v, n) => Ok(Some(v), n)
      case Err(e, n) => Err(e, n)
    }

    /** The same outcome carrying another value: the result of a step whose own value is
        not needed. */
    function Then<U>(v: U): (r: Parsed<U>)
      ensures r.Ok? == Ok? && r.next == next
      ensures Ok? ==> r.value == v
      ensures Err? ==> r.error == error
    {
      match this
      case Ok(_, n) => Ok(v, n)
      case Err(e, n) => Err(e, n)
    }
  }

  /** The token lists the parser is given: non-empty, ending in EOF (as scanTokens
      produces them). */
  predicate ValidTokens(ts: seq<Token>) {
    |ts| > 0 && ts[|ts| - 1].tokenType == EOF
  }

  /** A cursor that indexes a token: `peek` is defined there. */
  predicate Cursor(ts: seq<Token>, pos: nat) {
    ValidTokens(ts) && pos < |ts|
  }

  /** The cursor stays on a token, and a procedure that succeeds consumed at least one. */
  predicate Advances<T>(ts: seq<Token>, pos: nat, r: Parsed<T>) {
    pos <= r.next < |ts| && (r.Ok? ==> pos < r.next)
  }

  /** The cursor stays on a token and does not move back. */
  predicate Within<T>(ts: seq<Token>, pos: nat, r: Parsed<T>) {
    pos <= r.next < |ts|
  }

  // ---------------------------------------------------------------------------
  // Cursor helpers

  /** is_at_end: the token under the cursor is EOF. */
  predicate IsAtEnd(ts: seq<Token>, pos: nat)
    requires Cursor(ts, pos)
  {
    ts[pos].tokenType == EOF
  }

  /** check: the token under the cursor has the given type; never at EOF. */
  predicate Check(ts: seq<Token>, pos: nat, t: TokenType)
    requires Cursor(ts, pos)
  {
    if IsAtEnd(ts, pos) then false else ts[pos].tokenType == t
  }

  /** advance's move of the cursor: one token on, except at EOF. */
  function Advanced(ts: seq<Token>, pos: nat): (p: nat)
    requires Cursor(ts, pos)
    ensures p < |ts|
    ensures p == pos <==> IsAtEnd(ts, pos)
    ensures pos <= p <= pos + 1
    ensures !IsAtEnd(ts, pos) ==> p - 1 == pos
  {
    if !IsAtEnd(ts, pos) then pos + 1 else pos
  }

  /** match_types: whether `check` holds for one of the types; the cursor then moves on
      by one. */
  predicate MatchTypes(ts: seq<Token>, pos: nat, types: seq<TokenType>)
    requires Cursor(ts, pos)
  {
    !IsAtEnd(ts, pos) && ts[pos].tokenType in types
  }

  /** consume: the expected token, consumed; otherwise an error on the token under the
      cursor, which does not move. */
  function Consume(ts: seq<Token>, pos: nat, t: TokenType, message: string): (r: Parsed<Token>)
    requires Cursor(ts, pos)
    ensures r.Ok? <==> t != EOF && ts[pos].tokenType == t
    ensures r.Ok? ==> r.value == ts[pos] && r.next == pos + 1 && r.next < |ts|
    ensures r.Err? ==> r.error == ParseError(ts[pos], message) && r.next == pos
  {
    if Check(ts, pos, t) then Ok(ts[pos], Advanced(ts, pos))
    else Err(ParseError(ts[pos], message), pos)
  }

  // ---------------------------------------------------------------------------
  // Binary precedence levels

  /** The six binary levels, loosest first: or, and, equality, comparison, term, factor. */
  datatype Level = OrLevel | AndLevel | EqualityLevel | ComparisonLevel | TermLevel | FactorLevel

  /** The operator tokens each level's loop matches. */
  function Operators(l: Level): seq<TokenType> {
    match l
    case OrLevel => [OR]
    case AndLevel => [AND]
    case EqualityLevel => [BANG_EQUAL, EQUAL_EQUAL]
    case ComparisonLevel => [GREATER, GREATER_EQUAL, LESS, LESS_EQUAL]
    case TermLevel => [MINUS, PLUS]
    case FactorLevel => [STAR, SLASH]
  }

  /** The next tighter level; factor's operands are unary expressions. */
  function Tighter(l: Level): Option<Level> {
    match l
    case OrLevel => Some(AndLevel)
    case AndLevel => Some(EqualityLevel)
    case EqualityLevel => Some(ComparisonLevel)
    case ComparisonLevel => Some(TermLevel)
    case TermLevel => Some(FactorLevel)
    case FactorLevel => None
  }

  /** or and and build Logical nodes, the other levels Binary nodes. */
  function Combine(l: Level, left: Expr, op: Token, right: Expr): Expr {
    if l == OrLevel || l == AndLevel then Logical(left, op, right) else Binary(left, op, right)
  }

  /** The termination rank of a level: looser levels rank higher. */
  function Rank(l: Level): nat {
    match l
    case OrLevel => 15
    case AndLevel => 13
    case EqualityLevel => 11
    case ComparisonLevel => 9
    case TermLevel => 7
    case FactorLevel => 5
  }

  // ---------------------------------------------------------------------------
  // Expressions

  /** expression. */
  function Expression(ts: seq<Token>, pos: nat): (r: Parsed<Expr>)
    requires Cursor(ts, pos)
    ensures Advances(ts, pos, r)
    decreases |ts| - pos, 17
  {
    Assignment(ts, pos)
  }

  /** assignment: an or-expression, then, after `=`, the assigned value parsed as another
      assignment when the left side is a variable, and an error at the `=` otherwise. */
  function Assignment(ts: seq<Token>, pos: nat): (r: Parsed<Expr>)
    requires Cursor(ts, pos)
    ensures Advances(ts, pos, r)
    decreases |ts| - pos, 16
  {
    var left :- LevelExpr(ts, pos, OrLevel);
    var p := left.next;
    if MatchTypes(ts, p, [EQUAL]) then
      var equals := ts[p];
      if left.value.Variable? then
        var value :- Assignment(ts, Advanced(ts, p));
        Ok(Assign(left.value.name, value.value), value.next)
      else Err(ParseError(equals, "trailing equal sign in non assignment expression??"), Advanced(ts, p))
    else Ok(left.value, p)
  }

  /** The operand of a level: the next tighter level, or a unary expression. */
  function Operand(ts: seq<Token>, pos: nat, l: Level): (r: Parsed<Expr>)
    requires Cursor(ts, pos)
    ensures Advances(ts, pos, r)
    decreases |ts| - pos, Rank(l) - 1
  {
    match Tighter(l)
    case Some(t) => LevelExpr(ts, pos, t)
    case None => Unary(ts, pos)
  }

  /** or, and, equality, comparison, term and factor: an operand, then the loop. */
  function LevelExpr(ts: seq<Token>, pos: nat, l: Level): (r: Parsed<Expr>)
    requires Cursor(ts, pos)
    ensures Advances(ts, pos, r)
    decreases |ts| - pos, Rank(l)
  {
    var first :- Operand(ts, pos, l);
    LevelLoop(ts, first.next, l, first.value)
  }

  /** The loop of a level: while an operator of the level matches, combine what was parsed
      so far with the next operand, so the tree grows to the left. */
  function LevelLoop(ts: seq<Token>, pos: nat, l: Level, left: Expr): (r: Parsed<Expr>)
    requires Cursor(ts, pos)
    ensures Within(ts, pos, r)
    decreases |ts| - pos, Rank(l)
  {
    if MatchTypes(ts, pos, Operators(l)) then
      var op := ts[pos];
      var right :- Operand(ts, Advanced(ts, pos), l);
      LevelLoop(ts, right.next, l, Combine(l, left, op, right.value))
    else Ok(left, pos)
  }

  /** unary: `!` or `-` applied to another unary expression, else a call. */
  function Unary(ts: seq<Token>, pos: nat): (r: Parsed<Expr>)
    requires Cursor(ts, pos)
    ensures Advances(ts, pos, r)
    decreases |ts| - pos, 3
  {
    if MatchTypes(ts, pos, [BANG, MINUS]) then
      var op := ts[pos];
      var right :- Unary(ts, Advanced(ts, pos));
      Ok(Expr.Unary(op, right.value), right.next)
    else Call(ts, pos)
  }

  /** call: a primary expression followed by any number of argument lists. */
  function Call(ts: seq<Token>, pos: nat): (r: Parsed<Expr>)
    requires Cursor(ts, pos)
    ensures Advances(ts, pos, r)
    decreases |ts| - pos, 2
  {
    var callee :- Primary(ts, pos);
    CallLoop(ts, callee.next, callee.value)
  }

  /** The loop of call: each `(` starts an argument list; the node records the `)` token. */
  function CallLoop(ts: seq<Token>, pos: nat, callee: Expr): (r: Parsed<Expr>)
    requires Cursor(ts, pos)
    ensures Within(ts, pos, r)
    decreases |ts| - pos, 2
  {
    if MatchTypes(ts, pos, [LEFT_PAREN]) then
      var args :- FinishCall(ts, Advanced(ts, pos));
      var paren := ts[args.next - 1];
      CallLoop(ts, args.next, Expr.Call(callee, paren, args.value))
    else Ok(callee, pos)
  }

  /** finish_call: the arguments up to `)`; errors on the token it started at once 255
      arguments have been collected and another follows. */
  function FinishCall(ts: seq<Token>, pos: nat): (r: Parsed<seq<Expr>>)
    requires Cursor(ts, pos)
    ensures Advances(ts, pos, r)
    decreases |ts| - pos, 19
  {
    Arguments(ts, pos, ts[pos], [])
  }

  /** The loop of finish_call, with the arguments collected so far. A comma after an
      argument is skipped when present. */
  function Arguments(ts: seq<Token>, pos: nat, first: Token, args: seq<Expr>): (r: Parsed<seq<Expr>>)
    requires Cursor(ts, pos) && |args| <= 255
    ensures Advances(ts, pos, r)
    decreases |ts| - pos, 18
  {
    if !Check(ts, pos, RIGHT_PAREN) then
      if |args| >= 255 then Err(ParseError(first, "too many arguments"), pos)
      else
        var arg :- Expression(ts, pos);
        var p := if Check(ts, arg.next, COMMA) then Advanced(ts, arg.next) else arg.next;
        Arguments(ts, p, first, args + [arg.value])
    else
      Consume(ts, pos, RIGHT_PAREN, "Expected ')' after arguments").Then(args)
  }

  /** primary: a literal, a parenthesised expression or a variable; anything else is an
      error on the token, which is not consumed. */
  function Primary(ts: seq<Token>, pos: nat): (r: Parsed<Expr>)
    requires Cursor(ts, pos)
    ensures Advances(ts, pos, r)
    decreases |ts| - pos, 1
  {
    var t := ts[pos];
    match t.tokenType
    case FALSE => Ok(Expr.Literal(Literal.Boolean(false)), Advanced(ts, pos))
    case TRUE => Ok(Expr.Literal(Literal.Boolean(true)), Advanced(ts, pos))
    case NIL => Ok(Expr.Literal(Literal.Nil), Advanced(ts, pos))
    case NUMBER | STRING => Ok(Expr.Literal(t.literal), Advanced(ts, pos))
    case LEFT_PAREN =>
      var inner :- Expression(ts, Advanced(ts, pos));
      var close :- Consume(ts, inner.next, RIGHT_PAREN, "Expect ')' after expression.");
      Ok(Grouping(inner.value), close.next)
    case IDENTIFIER => Ok(Variable(t), Advanced(ts, pos))
    case _ => Err(ParseError(t, "primary unable to match"), pos)
  }

  // ---------------------------------------------------------------------------
  // Statements

  /** declaration: `var` and `fun` declarations, else a statement. */
  function Declaration(ts: seq<Token>, pos: nat): (r: Parsed<Stmt>)
    requires Cursor(ts, pos)
    ensures Advances(ts, pos, r)
    decreases |ts| - pos, 23
  {
    if MatchTypes(ts, pos, [VAR]) then VarDeclaration(ts, Advanced(ts, pos))
    else if MatchTypes(ts, pos, [FUN]) then FuncDeclaration(ts, Advanced(ts, pos))
    else Statement(ts, pos)
  }

  /** var_declaration, after `var`: a name, an optional `= initializer` (Null when absent)
      and `;`. */
  function VarDeclaration(ts: seq<Token>, pos: nat): (r: Parsed<Stmt>)
    requires Cursor(ts, pos)
    ensures Advances(ts, pos, r)
    decreases |ts| - pos, 23
  {
    var name :- Consume(ts, pos, IDENTIFIER, "expected IDENTIFIER in var declaration");
    if MatchTypes(ts, name.next, [EQUAL]) then
      var init :- Expression(ts, Advanced(ts, name.next));
      var semi :- Consume(ts, init.next, SEMICOLON, "Expected ';' after value");
      Ok(Var(name.value, init.value), semi.next)
    else
      var semi :- Consume(ts, name.next, SEMICOLON, "Expected ';' after value");
      Ok(Var(name.value, Null), semi.next)
  }

  /** func_declaration, after `fun`: a name, `(`, the parameters, `)`, and a block body. */
  function FuncDeclaration(ts: seq<Token>, pos: nat): (r: Parsed<Stmt>)
    requires Cursor(ts, pos)
    ensures Advances(ts, pos, r)
    decreases |ts| - pos, 23
  {
    var name :- Consume(ts, pos, IDENTIFIER, "fun declaration lacking identifier");
    var open :- Consume(ts, name.next, LEFT_PAREN, "expect '(' after func identifier decl");
    var params :- Parameters(ts, open.next, ts[open.next], []);
    match Consume(ts, params.next, RIGHT_PAREN, "Expected ')' after arguments")
    case Err(e, n) => Err(e, n)
    case Ok(_, afterParams) =>
      var brace :- Consume(ts, afterParams, LEFT_BRACE, "Expected opening brace for func body");
      var body :- BlockStatement(ts, brace.next);
      if body.value.Block? then Ok(Func(name.value, params.value, body.value.statements), body.next)
      else Err(ParseError(name.value, "Expected block statement for function body"), body.next)
  }

  /** The parameter loop of func_declaration: identifiers up to `)`, a comma after each
      skipped when present, with the same cap of 255 as arguments. */
  function Parameters(ts: seq<Token>, pos: nat, first: Token, params: seq<Token>): (r: Parsed<seq<Token>>)
    requires Cursor(ts, pos) && |params| <= 255
    ensures Within(ts, pos, r)
    decreases |ts| - pos
  {
    if !Check(ts, pos, RIGHT_PAREN) then
      if |params| >= 255 then Err(ParseError(first, "too many arguments"), pos)
      else
        var param :- Consume(ts, pos, IDENTIFIER, "expected IDENTIFIER arg, got something else");
        var p := if Check(ts, param.next, COMMA) then Advanced(ts, param.next) else param.next;
        Parameters(ts, p, first, params + [param.value])
    else Ok(params, pos)
  }

  /** statement: print, block, if, while and for statements, else an expression statement. */
  function Statement(ts: seq<Token>, pos: nat): (r: Parsed<Stmt>)
    requires Cursor(ts, pos)
    ensures Advances(ts, pos, r)
    decreases |ts| - pos, 22
  {
    if MatchTypes(ts, pos, [PRINT]) then PrintStatement(ts, Advanced(ts, pos))
    else if MatchTypes(ts, pos, [LEFT_BRACE]) then BlockStatement(ts, Advanced(ts, pos))
    else if MatchTypes(ts, pos, [IF]) then IfStatement(ts, Advanced(ts, pos))
    else if MatchTypes(ts, pos, [WHILE]) then WhileStatement(ts, Advanced(ts, pos))
    else if MatchTypes(ts, pos, [FOR]) then ForStatement(ts, Advanced(ts, pos))
    else ExprStatement(ts, pos)
  }

  /** print_statement, after `print`. */
  function PrintStatement(ts: seq<Token>, pos: nat): (r: Parsed<Stmt>)
    requires Cursor(ts, pos)
    ensures Advances(ts, pos, r)
    decreases |ts| - pos, 18
  {
    var e :- Expression(ts, pos);
    var semi :- Consume(ts, e.next, SEMICOLON, "Expected ';' after value");
    Ok(Stmt.Print(e.value), semi.next)
  }

  /** block_statement, after `{`: declarations up to `}` or EOF, then `}`. */
  function BlockStatement(ts: seq<Token>, pos: nat): (r: Parsed<Stmt>)
    requires Cursor(ts, pos)
    ensures Advances(ts, pos, r)
    decreases |ts| - pos, 25
  {
    BlockLoop(ts, pos, [])
  }

  /** The loop of block_statement, with the declarations parsed so far. */
  function BlockLoop(ts: seq<Token>, pos: nat, statements: seq<Stmt>): (r: Parsed<Stmt>)
    requires Cursor(ts, pos)
    ensures Advances(ts, pos, r)
    decreases |ts| - pos, 24
  {
    if !Check(ts, pos, RIGHT_BRACE) && !IsAtEnd(ts, pos) then
      var d :- Declaration(ts, pos);
      BlockLoop(ts, d.next, statements + [d.value])
    else
      var close :- Consume(ts, pos, RIGHT_BRACE, "Expected '}' after block");
      Ok(Block(statements), close.next)
  }

  /** if_statement, after `if`. The results of consuming the parentheses are discarded: a
      missing one is not an error. */
  function IfStatement(ts: seq<Token>, pos: nat): (r: Parsed<Stmt>)
    requires Cursor(ts, pos)
    ensures Advances(ts, pos, r)
    decreases |ts| - pos, 18
  {
    var p1 := Consume(ts, pos, LEFT_PAREN, "Expect '(' after IF").next;
    var condition :- Expression(ts, p1);
    var p2 := Consume(ts, condition.next, RIGHT_PAREN, "Expected ')' closing IF condition").next;
    var thenBranch :- Statement(ts, p2);
    if MatchTypes(ts, thenBranch.next, [ELSE]) then
      var elseBranch :- Statement(ts, Advanced(ts, thenBranch.next));
      Ok(If(condition.value, thenBranch.value, Some(elseBranch.value)), elseBranch.next)
    else Ok(If(condition.value, thenBranch.value, None), thenBranch.next)
  }

  /** while_statement, after `while`; its parentheses are discarded like if's. */
  function WhileStatement(ts: seq<Token>, pos: nat): (r: Parsed<Stmt>)
    requires Cursor(ts, pos)
    ensures Advances(ts, pos, r)
    decreases |ts| - pos, 18
  {
    var p1 := Consume(ts, pos, LEFT_PAREN, "Expect '(' after WHILE").next;
    var condition :- Expression(ts, p1);
    var p2 := Consume(ts, condition.next, RIGHT_PAREN, "Expected ')' closing WHILE condition").next;
    var body :- Statement(ts, p2);
    Ok(While(condition.value, body.value), body.next)
  }

  /** The initializer clause of a for statement: `;` (none), a var declaration, or an
      expression statement. */
  function ForInitializer(ts: seq<Token>, pos: nat): (r: Parsed<Option<Stmt>>)
    requires Cursor(ts, pos)
    ensures Advances(ts, pos, r)
    decreases |ts| - pos, 19
  {
    if MatchTypes(ts, pos, [SEMICOLON]) then Ok(None, Advanced(ts, pos))
    else if MatchTypes(ts, pos, [VAR]) then VarDeclaration(ts, Advanced(ts, pos)).Optional()
    else ExprStatement(ts, pos).Optional()
  }

  /** for_statement, after `for`: its clauses, then the body, desugared. */
  function ForStatement(ts: seq<Token>, pos: nat): (r: Parsed<Stmt>)
    requires Cursor(ts, pos)
    ensures Advances(ts, pos, r)
    decreases |ts| - pos, 20
  {
    var p1 := Consume(ts, pos, LEFT_PAREN, "Expect '(' after FOR").next;
    var init :- ForInitializer(ts, p1);
    var condition :- ForClause(ts, init.next, SEMICOLON);
    var p2 := Consume(ts, condition.next, SEMICOLON, "Expected ';' before increment in FOR").next;
    var increment :- ForClause(ts, p2, RIGHT_PAREN);
    var p3 := Consume(ts, increment.next, RIGHT_PAREN, "Expected final ')' in FOR").next;
    var body :- Statement(ts, p3);
    Ok(Desugared(init.value, condition.value, increment.value, body.value), body.next)
  }

  /** An optional clause of for_statement: an expression, unless the clause's terminator
      comes first. */
  function ForClause(ts: seq<Token>, pos: nat, terminator: TokenType): (r: Parsed<Option<Expr>>)
    requires Cursor(ts, pos)
    ensures Within(ts, pos, r)
    decreases |ts| - pos, 18
  {
    if !Check(ts, pos, terminator) then Expression(ts, pos).Optional() else Ok(None, pos)
  }

  /** The desugaring of `for (init; condition; increment) body`: the increment runs after
      the body, in a block; a missing condition is `true`; the initializer runs once before
      the loop, in a block. */
  function Desugared(init: Option<Stmt>, condition: Option<Expr>, increment: Option<Expr>, body: Stmt): Stmt {
    var body1 := if increment.Some? then Block([body, Stmt.Expression(increment.value)]) else body;
    var loop := While(condition.GetOr(Expr.Literal(Literal.Boolean(true))), body1);
    if init.Some? then Block([init.value, loop]) else loop
  }

  /** expr_statement. */
  function ExprStatement(ts: seq<Token>, pos: nat): (r: Parsed<Stmt>)
    requires Cursor(ts, pos)
    ensures Advances(ts, pos, r)
    decreases |ts| - pos, 18
  {
    var e :- Expression(ts, pos);
    var semi :- Consume(ts, e.next, SEMICOLON, "Expected ';' after expression");
    Ok(Stmt.Expression(e.value), semi.next)
  }

  // ---------------------------------------------------------------------------
  // Error recovery and the top level

  /** The token types synchronise stops before: those that begin a declaration. */
  predicate StartsDeclaration(t: TokenType) {
    match t
    case CLASS | FUN | VAR | FOR | IF | WHILE | PRINT | RETURN => true
    case _ => false
  }

  /** Where synchronise may stop: at EOF, just after a `;`, or before a token that begins a
      declaration. */
  predicate SyncPoint(ts: seq<Token>, p: nat)
    requires Cursor(ts, p)
  {
    IsAtEnd(ts, p) || (p >= 1 && ts[p - 1].tokenType == SEMICOLON) || StartsDeclaration(ts[p].tokenType)
  }

  /** synchronise: one token is discarded, then tokens up to the first point where it may
      stop. */
  function Synchronise(ts: seq<Token>, pos: nat): (p: nat)
    requires Cursor(ts, pos)
    ensures pos <= p < |ts|
    ensures !IsAtEnd(ts, pos) ==> pos < p
  {
    SyncLoop(ts, Advanced(ts, pos))
  }

  /** The loop of synchronise. */
  function SyncLoop(ts: seq<Token>, p: nat): (q: nat)
    requires Cursor(ts, p) && (p >= 1 || IsAtEnd(ts, p))
    ensures p <= q < |ts|
    decreases |ts| - p
  {
    if IsAtEnd(ts, p) then p
    else if ts[p - 1].tokenType == SEMICOLON then p
    else if StartsDeclaration(ts[p].tokenType) then p
    else SyncLoop(ts, Advanced(ts, p))
  }

  /** The loop of parse, with the statements parsed and the errors reported so far. A failed
      declaration is reported and the cursor synchronised. */
  function ParseFrom(ts: seq<Token>, pos: nat, statements: seq<Stmt>, errors: seq<ParseError>): (r: (seq<Stmt>, seq<ParseError>))
    requires Cursor(ts, pos)
    decreases |ts| - pos
  {
    if IsAtEnd(ts, pos) then (statements, errors)
    else
      match Declaration(ts, pos)
      case Ok(s, n) => ParseFrom(ts, n, statements + [s], errors)
      case Err(e, n) => ParseFrom(ts, Synchronise(ts, n), statements, errors + [e])
  }

  /** parse: the statements, and the errors reported along the way. */
  function Parse(ts: seq<Token>): (seq<Stmt>, seq<ParseError>)
    requires ValidTokens(ts)
  {
    ParseFrom(ts, 0, [], [])
  }

  /** parse_expr: one expression, or None when it fails. */
  function ParseExpr(ts: seq<Token>): Option<Expr>
    requires ValidTokens(ts)
  {
    match Expression(ts, 0)
    case Ok(e, _) => Some(e)
    case Err(_, _) => None
  }

  // ---------------------------------------------------------------------------
  // The loops, one iteration at a time

  /** One iteration of a level's loop, once its operator has matched. */
  lemma LevelLoopStep(ts: seq<Token>, pos: nat, l: Level, left: Expr)
    requires Cursor(ts, pos) && MatchTypes(ts, pos, Operators(l))
    ensures var right := Operand(ts, Advanced(ts, pos), l);
      LevelLoop(ts, pos, l, left) ==
        if right.Ok? then LevelLoop(ts, right.next, l, Combine(l, left, ts[pos], right.value))
        else Err(right.error, right.next)
  {
  }

  /** One iteration of call's loop, once a `(` has matched. */
  lemma CallLoopStep(ts: seq<Token>, pos: nat, callee: Expr)
    requires Cursor(ts, pos) && MatchTypes(ts, pos, [LEFT_PAREN])
    ensures var args := FinishCall(ts, Advanced(ts, pos));
      CallLoop(ts, pos, callee) ==
        if args.Ok? then CallLoop(ts, args.next, Expr.Call(callee, ts[args.next - 1], args.value))
        else Err(args.error, args.next)
  {
  }
}
