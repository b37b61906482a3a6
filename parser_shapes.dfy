/** The shapes of the trees the grammar builds, for every token list: each binary level
    nests its operators to the left, with operands of tighter levels on the right; unary
    operators and assignments nest to the right; if and while statements are built from the
    condition and statements they read. */
module ParserShapes {

  import opened Wrappers
  import opened Tokens
  import opened Syntax
  import opened ParserSpec
  import opened ParserProperties

  // ---------------------------------------------------------------------------
  // Operators and their levels

  /** The level whose loop matches an operator, if any. */
  function LevelOf(t: TokenType): Option<Level> {
    match t
    case OR => Some(OrLevel)
    case AND => Some(AndLevel)
    case BANG_EQUAL | EQUAL_EQUAL => Some(EqualityLevel)
    case GREATER | GREATER_EQUAL | LESS | LESS_EQUAL => Some(ComparisonLevel)
    case MINUS | PLUS => Some(TermLevel)
    case STAR | SLASH => Some(FactorLevel)
    case _ => None
  }

  /** Each operator is matched by exactly one level's loop. */
  lemma LevelOfOperators(l: Level, t: TokenType)
    ensures t in Operators(l) <==> LevelOf(t) == Some(l)
  {
  }

  /** `op` is an operator of a level tighter than `l`. */
  predicate TighterOperator(op: Token, l: Level) {
    LevelOf(op.tokenType).Some? && Rank(LevelOf(op.tokenType).value) < Rank(l)
  }

  /** `x` can be an operand of level `l`: no assignment and no Null, and a binary or logical
      node at its root carries an operator of a tighter level. In particular no node of `l`
      itself, or of a looser level, sits at its root. */
  predicate OperandOf(x: Expr, l: Level) {
    match x
    case Binary(_, op, _) => TighterOperator(op, l)
    case Logical(_, op, _) => TighterOperator(op, l)
    case Assign(_, _) => false
    case Null => false
    case _ => true
  }

  /** `r` is a node of level `l`: Logical for or and and, Binary for the others, with one of
      the level's operators. */
  predicate NodeOf(r: Expr, l: Level) {
    (if l == OrLevel || l == AndLevel then r.Logical? else r.Binary?) &&
    r.operator.tokenType in Operators(l)
  }

  /** `r` is `e` under zero or more nodes of level `l` nested to the left, each with an
      operand of the level as its right child. */
  predicate LeftNested(r: Expr, l: Level, e: Expr)
    decreases r
  {
    r == e || (NodeOf(r, l) && LeftNested(r.left, l, e) && OperandOf(r.right, l))
  }

  // ---------------------------------------------------------------------------
  // Unary and call

  /** call's loop yields its callee, or a call node around it. */
  lemma {:induction false} CallLoopShape(ts: seq<Token>, pos: nat, callee: Expr)
    requires Cursor(ts, pos)
    ensures var r := CallLoop(ts, pos, callee); r.Ok? ==> r.value == callee || r.value.Call?
    decreases |ts| - pos
  {
    if MatchTypes(ts, pos, [LEFT_PAREN]) {
      var args := FinishCall(ts, Advanced(ts, pos));
      if args.Ok? {
        CallLoopStep(ts, pos, callee);
        CallLoopShape(ts, args.next, Expr.Call(callee, ts[args.next - 1], args.value));
      }
    }
  }

  /** unary yields a unary node, a call, a grouping, a literal or a variable: never a binary,
      logical or assignment node. */
  lemma {:induction false} UnaryShape(ts: seq<Token>, pos: nat)
    requires Cursor(ts, pos)
    ensures var r := ParserSpec.Unary(ts, pos);
      r.Ok? ==> r.value.Unary? || r.value.Call? || r.value.Grouping? || r.value.Literal? || r.value.Variable?
  {
    if !MatchTypes(ts, pos, [BANG, MINUS]) {
      var p := Primary(ts, pos);
      if p.Ok? {
        CallLoopShape(ts, p.next, p.value);
      }
    }
  }

  /** The unary nodes for the prefix operators `ops` around `e`, the first outermost. */
  function Prefixed(ops: seq<Token>, e: Expr): (r: Expr)
    ensures |ops| > 0 ==> r.Unary? && r.operator == ops[0]
    decreases |ops|
  {
    if ops == [] then e else Expr.Unary(ops[0], Prefixed(ops[1..], e))
  }

  /** A `!` or `-` applies to the whole unary expression after it. */
  lemma {:induction false} UnaryPrefix(ts: seq<Token>, pos: nat, e: Expr, p: nat)
    requires Cursor(ts, pos + 1) && (ts[pos].tokenType == BANG || ts[pos].tokenType == MINUS)
    requires ParserSpec.Unary(ts, pos + 1) == Ok(e, p)
    ensures ParserSpec.Unary(ts, pos) == Ok(Expr.Unary(ts[pos], e), p)
  {
    assert MatchTypes(ts, pos, [BANG, MINUS]);
  }

  /** unary is right-recursive: a run of `n` prefix operators nests `n` unary nodes, the
      first operator outermost, around the unary expression after the run. */
  lemma {:induction false} UnaryRun(ts: seq<Token>, pos: nat, n: nat, e: Expr, p: nat)
    requires Cursor(ts, pos + n)
    requires forall i | pos <= i < pos + n :: ts[i].tokenType == BANG || ts[i].tokenType == MINUS
    requires ParserSpec.Unary(ts, pos + n) == Ok(e, p)
    ensures ParserSpec.Unary(ts, pos) == Ok(Prefixed(ts[pos..pos + n], e), p)
    decreases n
  {
    if n > 0 {
      UnaryRun(ts, pos + 1, n - 1, e, p);
      assert ts[pos + 1..pos + n] == ts[pos..pos + n][1..];
      UnaryPrefix(ts, pos, Prefixed(ts[pos + 1..pos + n], e), p);
    } else {
      assert ts[pos..pos] == [];
    }
  }

  // ---------------------------------------------------------------------------
  // The binary levels

  /** A tree left-nested at a level whose first operand fits that level is an operand of any
      looser level. */
  lemma {:induction false} NestedIsOperand(r: Expr, t: Level, first: Expr, l: Level)
    requires LeftNested(r, t, first) && OperandOf(first, t) && Rank(t) < Rank(l)
    ensures OperandOf(r, l)
  {
    if r != first {
      LevelOfOperators(t, r.operator.tokenType);
    }
  }

  /** Precedence: what a level reads as an operand has no operator of that level or a
      looser one at its root. */
  lemma {:induction false} OperandShape(ts: seq<Token>, pos: nat, l: Level)
    requires Cursor(ts, pos)
    ensures var r := Operand(ts, pos, l); r.Ok? ==> OperandOf(r.value, l)
    decreases Rank(l), 1, 0
  {
    match Tighter(l)
    case None =>
      UnaryShape(ts, pos);
    case Some(t) =>
      LevelExprShape(ts, pos, t);
      var r := LevelExpr(ts, pos, t);
      if r.Ok? {
        NestedIsOperand(r.value, t, Operand(ts, pos, t).value, l);
      }
  }

  /** A level's loop only adds nodes of the level on top of what it was given, each with an
      operand of the level on its right, so the operators of one level group to the left. */
  lemma {:induction false} LevelLoopNests(ts: seq<Token>, pos: nat, l: Level, e: Expr, base: Expr)
    requires Cursor(ts, pos) && LeftNested(e, l, base)
    ensures var r := LevelLoop(ts, pos, l, e); r.Ok? ==> LeftNested(r.value, l, base)
    decreases Rank(l), 2, |ts| - pos
  {
    if MatchTypes(ts, pos, Operators(l)) {
      var right := Operand(ts, Advanced(ts, pos), l);
      OperandShape(ts, Advanced(ts, pos), l);
      if right.Ok? {
        var c := Combine(l, e, ts[pos], right.value);
        assert LeftNested(c, l, base) by {
          assert NodeOf(c, l) && c.left == e && c.right == right.value;
        }
        LevelLoopStep(ts, pos, l, e);
        LevelLoopNests(ts, right.next, l, c, base);
      }
    }
  }

  /** Left associativity: in a left-nested tree the right child of a node of the level is
      never itself a node of that level. */
  lemma {:induction false} NoSameLevelOnTheRight(r: Expr, l: Level, e: Expr)
    requires LeftNested(r, l, e) && r != e
    ensures NodeOf(r, l) && !NodeOf(r.right, l)
  {
    if r.right.Binary? || r.right.Logical? {
      LevelOfOperators(l, r.right.operator.tokenType);
    }
  }

  /** Every binary level (or, and, equality, comparison, term, factor) yields its first
      operand under left-nested nodes of the level, and that operand, like every right
      child, binds tighter than the level. */
  lemma {:induction false} LevelExprShape(ts: seq<Token>, pos: nat, l: Level)
    requires Cursor(ts, pos)
    ensures var first, r := Operand(ts, pos, l), LevelExpr(ts, pos, l);
      r.Ok? ==> first.Ok? && OperandOf(first.value, l) && LeftNested(r.value, l, first.value)
    decreases Rank(l), 3, 0
  {
    var first := Operand(ts, pos, l);
    OperandShape(ts, pos, l);
    if first.Ok? {
      LevelLoopNests(ts, first.next, l, first.value, first.value);
    }
  }

  // ---------------------------------------------------------------------------
  // Assignment

  /** The assignments of the names `names` in turn, the first outermost, around `v`. */
  function Assigned(names: seq<Token>, v: Expr): (r: Expr)
    ensures |names| > 0 ==> r.Assign? && r.name == names[0]
    decreases |names|
  {
    if names == [] then v else Assign(names[0], Assigned(names[1..], v))
  }

  /** `x = …` assigns to x whatever the assignment after the `=` yields. */
  lemma {:induction false} AssignmentPrefix(ts: seq<Token>, pos: nat, v: Expr, p: nat)
    requires Cursor(ts, pos + 2) && ts[pos].tokenType == IDENTIFIER && ts[pos + 1].tokenType == EQUAL
    requires Assignment(ts, pos + 2) == Ok(v, p)
    ensures Assignment(ts, pos) == Ok(Assign(ts[pos], v), p)
  {
    UnaryAtom(ts, pos);
    UnaryClimbs(ts, pos, OrLevel, Variable(ts[pos]), pos + 1);
    assert MatchTypes(ts, pos + 1, [EQUAL]) && Advanced(ts, pos + 1) == pos + 2;
  }

  /** The tokens from `pos` on begin with `n` pairs `name =`. */
  predicate IsChain(ts: seq<Token>, pos: nat, n: nat)
    decreases n
  {
    n == 0 ||
    (pos + 1 < |ts| && ts[pos].tokenType == IDENTIFIER && ts[pos + 1].tokenType == EQUAL &&
     IsChain(ts, pos + 2, n - 1))
  }

  /** The names of an assignment chain `x1 = x2 = … = xn =` starting at `pos`. */
  function ChainNames(ts: seq<Token>, pos: nat, n: nat): (names: seq<Token>)
    requires pos + 2 * n <= |ts|
    ensures |names| == n
    decreases n
  {
    if n == 0 then [] else [ts[pos]] + ChainNames(ts, pos + 2, n - 1)
  }

  /** Assignment is right-associative: `x1 = x2 = … = xn = v` assigns v to xn first and the
      result to each name before it, x1 outermost. */
  lemma {:induction false} AssignmentChain(ts: seq<Token>, pos: nat, n: nat, v: Expr, p: nat)
    requires Cursor(ts, pos + 2 * n) && IsChain(ts, pos, n)
    requires Assignment(ts, pos + 2 * n) == Ok(v, p)
    ensures Assignment(ts, pos) == Ok(Assigned(ChainNames(ts, pos, n), v), p)
    decreases n
  {
    if n > 0 {
      AssignmentChain(ts, pos + 2, n - 1, v, p);
      AssignmentPrefix(ts, pos, Assigned(ChainNames(ts, pos + 2, n - 1), v), p);
      assert ChainNames(ts, pos, n)[1..] == ChainNames(ts, pos + 2, n - 1);
    }
  }

  // ---------------------------------------------------------------------------
  // If and while statements

  /** Where a consume of `t` whose result is discarded leaves the cursor: past the token when
      it is a `t`, else where it was. */
  function Skip(ts: seq<Token>, pos: nat, t: TokenType): (p: nat)
    requires Cursor(ts, pos) && t != EOF
    ensures p < |ts|
  {
    if ts[pos].tokenType == t then pos + 1 else pos
  }

  /** A discarded consume moves the cursor as Skip says, whatever its message. */
  lemma SkipIsDiscardedConsume(ts: seq<Token>, pos: nat, t: TokenType, message: string)
    requires Cursor(ts, pos) && t != EOF
    ensures Consume(ts, pos, t, message).next == Skip(ts, pos, t)
  {
  }

  /** while_statement from its parts: the condition after an optional `(`, then the body
      after an optional `)`. */
  lemma {:induction false} WhileStatementParts(ts: seq<Token>, pos: nat, cond: Expr, a: nat, body: Stmt, b: nat)
    requires Cursor(ts, pos)
    requires ParserSpec.Expression(ts, Skip(ts, pos, LEFT_PAREN)) == Ok(cond, a)
    requires Statement(ts, Skip(ts, a, RIGHT_PAREN)) == Ok(body, b)
    ensures WhileStatement(ts, pos) == Ok(While(cond, body), b)
  {
    SkipIsDiscardedConsume(ts, pos, LEFT_PAREN, "Expect '(' after WHILE");
    SkipIsDiscardedConsume(ts, a, RIGHT_PAREN, "Expected ')' closing WHILE condition");
  }

  /** A successful while_statement is the loop of the condition and the statement it read. */
  lemma {:induction false} WhileStatementRead(ts: seq<Token>, pos: nat)
    requires Cursor(ts, pos)
    ensures var r := WhileStatement(ts, pos); r.Ok? ==>
      var c := ParserSpec.Expression(ts, Skip(ts, pos, LEFT_PAREN));
      c.Ok? && r.value.While? && r.value.condition == c.value &&
      Statement(ts, Skip(ts, c.next, RIGHT_PAREN)) == Ok(r.value.body, r.next)
  {
    SkipIsDiscardedConsume(ts, pos, LEFT_PAREN, "Expect '(' after WHILE");
    var c := ParserSpec.Expression(ts, Skip(ts, pos, LEFT_PAREN));
    if c.Ok? {
      SkipIsDiscardedConsume(ts, c.next, RIGHT_PAREN, "Expected ')' closing WHILE condition");
    }
  }

  /** if_statement from its parts, without an `else`: the condition after an optional `(`,
      then the then-branch after an optional `)`, not followed by `else`. */
  lemma {:induction false} IfStatementParts(ts: seq<Token>, pos: nat, cond: Expr, a: nat, thenBranch: Stmt, b: nat)
    requires Cursor(ts, pos)
    requires ParserSpec.Expression(ts, Skip(ts, pos, LEFT_PAREN)) == Ok(cond, a)
    requires Statement(ts, Skip(ts, a, RIGHT_PAREN)) == Ok(thenBranch, b)
    requires ts[b].tokenType != ELSE
    ensures IfStatement(ts, pos) == Ok(If(cond, thenBranch, None), b)
  {
    SkipIsDiscardedConsume(ts, pos, LEFT_PAREN, "Expect '(' after IF");
    SkipIsDiscardedConsume(ts, a, RIGHT_PAREN, "Expected ')' closing IF condition");
    assert !MatchTypes(ts, b, [ELSE]);
  }

  /** if_statement from its parts, with an `else`: the else-branch is the statement after
      the `else` that follows the then-branch. */
  lemma {:induction false} IfElseParts(ts: seq<Token>, pos: nat, cond: Expr, a: nat, thenBranch: Stmt, b: nat,
      elseBranch: Stmt, c: nat)
    requires Cursor(ts, pos)
    requires ParserSpec.Expression(ts, Skip(ts, pos, LEFT_PAREN)) == Ok(cond, a)
    requires Statement(ts, Skip(ts, a, RIGHT_PAREN)) == Ok(thenBranch, b)
    requires ts[b].tokenType == ELSE && b + 1 < |ts| && Statement(ts, b + 1) == Ok(elseBranch, c)
    ensures IfStatement(ts, pos) == Ok(If(cond, thenBranch, Some(elseBranch)), c)
  {
    SkipIsDiscardedConsume(ts, pos, LEFT_PAREN, "Expect '(' after IF");
    SkipIsDiscardedConsume(ts, a, RIGHT_PAREN, "Expected ')' closing IF condition");
    assert MatchTypes(ts, b, [ELSE]) && Advanced(ts, b) == b + 1;
  }

  /** Once a then-branch is followed by `else`, if_statement succeeds exactly when the
      statement after the `else` does, and then ends where that statement ends. */
  lemma {:induction false} IfElseRead(ts: seq<Token>, pos: nat, cond: Expr, a: nat, thenBranch: Stmt, b: nat)
    requires Cursor(ts, pos)
    requires ParserSpec.Expression(ts, Skip(ts, pos, LEFT_PAREN)) == Ok(cond, a)
    requires Statement(ts, Skip(ts, a, RIGHT_PAREN)) == Ok(thenBranch, b)
    requires ts[b].tokenType == ELSE
    ensures b + 1 < |ts|
    ensures var r := IfStatement(ts, pos); var e := Statement(ts, b + 1);
      r.Ok? <==> e.Ok? && (e.Ok? ==> r == Ok(If(cond, thenBranch, Some(e.value)), e.next))
  {
    SkipIsDiscardedConsume(ts, pos, LEFT_PAREN, "Expect '(' after IF");
    SkipIsDiscardedConsume(ts, a, RIGHT_PAREN, "Expected ')' closing IF condition");
    assert MatchTypes(ts, b, [ELSE]) && Advanced(ts, b) == b + 1;
  }

  /** if_statement fails when its condition or its then-branch does. */
  lemma {:induction false} IfStatementNeedsParts(ts: seq<Token>, pos: nat)
    requires Cursor(ts, pos)
    ensures var c := ParserSpec.Expression(ts, Skip(ts, pos, LEFT_PAREN));
      IfStatement(ts, pos).Ok? ==> c.Ok? && Statement(ts, Skip(ts, c.next, RIGHT_PAREN)).Ok?
  {
    SkipIsDiscardedConsume(ts, pos, LEFT_PAREN, "Expect '(' after IF");
    var c := ParserSpec.Expression(ts, Skip(ts, pos, LEFT_PAREN));
    if c.Ok? {
      SkipIsDiscardedConsume(ts, c.next, RIGHT_PAREN, "Expected ')' closing IF condition");
    }
  }

  /** A successful if_statement is the If of the condition and then-branch it read, with an
      else-branch exactly when `else` follows the then-branch; IfElseRead says which. */
  lemma {:induction false} IfStatementRead(ts: seq<Token>, pos: nat)
    requires Cursor(ts, pos)
    ensures var r := IfStatement(ts, pos); r.Ok? ==>
      var c := ParserSpec.Expression(ts, Skip(ts, pos, LEFT_PAREN));
      c.Ok? && var t := Statement(ts, Skip(ts, c.next, RIGHT_PAREN));
      t.Ok? && r.value.If? && r.value.condition == c.value && r.value.thenBranch == t.value &&
      (r.value.elseBranch.Some? <==> ts[t.next].tokenType == ELSE) &&
      (r.value.elseBranch.None? ==> r.next == t.next)
  {
    IfStatementNeedsParts(ts, pos);
    var r := IfStatement(ts, pos);
    var c := ParserSpec.Expression(ts, Skip(ts, pos, LEFT_PAREN));
    if r.Ok? {
      var t := Statement(ts, Skip(ts, c.next, RIGHT_PAREN));
      if ts[t.next].tokenType == ELSE {
        IfElseRead(ts, pos, c.value, c.next, t.value, t.next);
      } else {
        IfStatementParts(ts, pos, c.value, c.next, t.value, t.next);
      }
    }
  }
}
