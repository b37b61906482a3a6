/** The tree-walking evaluator: value semantics, operator typing rules, and sequential
    execution of expression, print and var statements over a flat environment. */
module Interpreter {

  import opened Wrappers
  import opened Tokens
  import opened Syntax
  import opened Environments

  /** The double-precision operations the evaluator applies to numbers. They belong to the
      host's floating point, so the model takes them as given. */
  datatype Arith = Arith(
    add: (Number, Number) -> Number,
    sub: (Number, Number) -> Number,
    mul: (Number, Number) -> Number,
    div: (Number, Number) -> Number,
    neg: Number -> Number,
    gt: (Number, Number) -> bool,
    ge: (Number, Number) -> bool,
    lt: (Number, Number) -> bool,
    le: (Number, Number) -> bool,
    eq: (Number, Number) -> bool)

  /** A RuntimeError carries the offending token and a message. NotEvaluated stands for
      the expression and statement forms for which the evaluator has no code
      (logical, assignment, call; block, if, while, function declarations). */
  datatype EvalError = RuntimeError(token: Token, message: string) | NotEvaluated

  // ---------------------------------------------------------------------------
  // Values

  /** The kinds of value, used to say "same kind". */
  datatype Kind = StringKind | NumberKind | BooleanKind | NilKind

  function KindOf(v: Value): Kind {
    match v
    case String(_) => StringKind
    case Number(_) => NumberKind
    case Boolean(_) => BooleanKind
    case Nil => NilKind
  }

  /** is_equal: values of different kinds are never equal, nil equals nil, and values of one
      kind compare their payloads (numbers by the host's equality). */
  function IsEqual(arith: Arith, a: Value, b: Value): (r: bool)
    ensures KindOf(a) != KindOf(b) ==> !r
    ensures a.Nil? && b.Nil? ==> r
    ensures a.String? && b.String? ==> (r <==> a.s == b.s)
    ensures a.Boolean? && b.Boolean? ==> (r <==> a.b == b.b)
    ensures a.Number? && b.Number? ==> (r <==> arith.eq(a.n, b.n))
  {
    match (a, b)
    case (Number(x), Number(y)) => arith.eq(x, y)
    case (String(x), String(y)) => x == y
    case (Boolean(x), Boolean(y)) => x == y
    case (Nil, Nil) => true
    case _ => false
  }

  /** is_equal is symmetric when the host's number equality is. */
  lemma IsEqualSymmetric(arith: Arith, a: Value, b: Value)
    requires forall x, y :: arith.eq(x, y) == arith.eq(y, x)
    ensures IsEqual(arith, a, b) == IsEqual(arith, b, a)
  {
    if a.Number? && b.Number? {
      assert arith.eq(a.n, b.n) == arith.eq(b.n, a.n);
    }
  }

  /** Every value other than a number equals itself (a NaN does not, so numbers are excluded). */
  lemma IsEqualReflexive(arith: Arith, a: Value)
    requires !a.Number?
    ensures IsEqual(arith, a, a)
  { }

  /** For values other than numbers, is_equal is exactly structural equality. */
  lemma IsEqualStructural(arith: Arith, a: Value, b: Value)
    requires !a.Number? || !b.Number?
    ensures IsEqual(arith, a, b) <==> a == b
  { }

  /** is_truthy: only nil and false are falsey. */
  function IsTruthy(v: Value): (r: bool)
    ensures !r <==> (v.Nil? || v == Value.Boolean(false))
  {
    match v
    case Nil => false
    case Boolean(b) => b
    case _ => true
  }

  /** The number text with a trailing ".0" cut off, as `stringify` does for whole numbers. */
  function TrimPointZero(t: string): (s: string)
    ensures |t| >= 2 && t[|t| - 2..] == ".0" ==> s + ".0" == t
    ensures !(|t| >= 2 && t[|t| - 2..] == ".0") ==> s == t
  {
    if |t| >= 2 && t[|t| - 2..] == ".0" then t[..|t| - 2] else t
  }

  /** stringify: strings in double quotes, booleans and nil by name, numbers by the host's
      rendering without a trailing ".0". */
  function Stringify(numText: Number -> string, v: Value): (s: string)
    ensures v.String? ==> s == "\"" + v.s + "\""
    ensures v.Boolean? ==> s == (if v.b then "true" else "false")
    ensures v.Nil? ==> s == "nil"
    ensures v.Number? ==> s == TrimPointZero(numText(v.n))
  {
    match v
    case Number(n) => TrimPointZero(numText(n))
    case String(x) => "\"" + x + "\""
    case Boolean(b) => if b then "true" else "false"
    case Nil => "nil"
  }

  /** The quotes can be taken off again: the rendering of a string determines the string,
      and no boolean or nil renders like a string. */
  lemma StringifyUnquotes(numText: Number -> string, v: Value, w: Value)
    requires v.String?
    ensures var s := Stringify(numText, v); |s| >= 2 && s[0] == '"' && s[|s| - 1] == '"' && s[1..|s| - 1] == v.s
    ensures w.String? && Stringify(numText, w) == Stringify(numText, v) ==> w == v
    ensures w.Boolean? || w.Nil? ==> Stringify(numText, w) != Stringify(numText, v)
  {
    var s := Stringify(numText, v);
    assert s[1..|s| - 1] == v.s;
    if w.String? && Stringify(numText, w) == s {
      var t := Stringify(numText, w);
      assert t[1..|t| - 1] == w.s;
    }
    if w.Boolean? || w.Nil? {
      var t := Stringify(numText, w);
      assert t[0] != '"';
    }
  }

  // ---------------------------------------------------------------------------
  // Operators

  /** visit_unary once its operand is evaluated: `-` negates a number, `!` negates truthiness,
      anything else is an error at the operator. */
  function UnaryOp(arith: Arith, op: Token, v: Value): Result<Value, EvalError> {
    match op.tokenType
    case MINUS =>
      if v.Number? then Success(Value.Number(arith.neg(v.n)))
      else Failure(RuntimeError(op, "unary minus - value must be a number"))
    case BANG => Success(Value.Boolean(!IsTruthy(v)))
    case _ => Failure(RuntimeError(op, "Unexpected unary operator"))
  }

  /** `!` never fails; `-` fails exactly on a non-number, reporting the operator token. */
  lemma UnaryRules(arith: Arith, op: Token, v: Value)
    ensures op.tokenType == BANG ==> UnaryOp(arith, op, v) == Success(Value.Boolean(!IsTruthy(v)))
    ensures op.tokenType == MINUS ==>
      (UnaryOp(arith, op, v).Failure? <==> !v.Number?) &&
      (UnaryOp(arith, op, v).Failure? ==> UnaryOp(arith, op, v).error == RuntimeError(op, "unary minus - value must be a number"))
    ensures op.tokenType != BANG && op.tokenType != MINUS ==> UnaryOp(arith, op, v).Failure?
  { }

  /** The operators visit_binary applies to two numbers. */
  predicate IsNumberOperator(t: TokenType) {
    match t
    case GREATER | GREATER_EQUAL | LESS | LESS_EQUAL | MINUS | SLASH | STAR | PLUS => true
    case _ => false
  }

  /** visit_binary once both operands are evaluated. */
  function BinaryOp(arith: Arith, op: Token, l: Value, r: Value): Result<Value, EvalError> {
    match op.tokenType
    case EQUAL_EQUAL => Success(Value.Boolean(IsEqual(arith, l, r)))
    case BANG_EQUAL => Success(Value.Boolean(!IsEqual(arith, l, r)))
    case _ =>
      match (l, r)
      case (Number(a), Number(b)) =>
        (match op.tokenType
         case GREATER => Success(Value.Boolean(arith.gt(a, b)))
         case GREATER_EQUAL => Success(Value.Boolean(arith.ge(a, b)))
         case LESS => Success(Value.Boolean(arith.lt(a, b)))
         case LESS_EQUAL => Success(Value.Boolean(arith.le(a, b)))
         case MINUS => Success(Value.Number(arith.sub(a, b)))
         case SLASH => Success(Value.Number(arith.div(a, b)))
         case STAR => Success(Value.Number(arith.mul(a, b)))
         case PLUS => Success(Value.Number(arith.add(a, b)))
         case _ => Failure(RuntimeError(op, "Unexpected binary operator for numbers")))
      case (String(a), String(b)) =>
        if op.tokenType == PLUS then Success(Value.String(a + b))
        else Failure(RuntimeError(op, "Unexpected binary operator for strings"))
      case _ => Failure(RuntimeError(op, "no more valid operators etc."))
  }

  /** `==` and `!=` accept operands of every kind, and `!=` is the negation of `==`. */
  lemma EqualityNeverFails(arith: Arith, op: Token, l: Value, r: Value)
    requires op.tokenType == EQUAL_EQUAL || op.tokenType == BANG_EQUAL
    ensures BinaryOp(arith, op, l, r).Success? && BinaryOp(arith, op, l, r).value.Boolean?
    ensures BinaryOp(arith, op, l, r).value.b == (IsEqual(arith, l, r) <==> op.tokenType == EQUAL_EQUAL)
  { }

  /** On two strings `+` concatenates and every other operator except equality fails. */
  lemma StringOperands(arith: Arith, op: Token, a: string, b: string)
    requires op.tokenType != EQUAL_EQUAL && op.tokenType != BANG_EQUAL
    ensures op.tokenType == PLUS ==> BinaryOp(arith, op, Value.String(a), Value.String(b)) == Success(Value.String(a + b))
    ensures op.tokenType != PLUS ==>
      BinaryOp(arith, op, Value.String(a), Value.String(b)) == Failure(RuntimeError(op, "Unexpected binary operator for strings"))
  { }

  /** Operands of different kinds are an error at the operator for every operator but equality,
      and so are two operands of a kind without operators (booleans, nil). */
  lemma MixedOperandsFail(arith: Arith, op: Token, l: Value, r: Value)
    requires op.tokenType != EQUAL_EQUAL && op.tokenType != BANG_EQUAL
    requires KindOf(l) != KindOf(r) || l.Boolean? || l.Nil?
    ensures BinaryOp(arith, op, l, r) == Failure(RuntimeError(op, "no more valid operators etc."))
  { }

  /** Two numbers: exactly the eight arithmetic and comparison operators succeed, and every
      other non-equality operator is an error at the operator. */
  lemma NumberOperands(arith: Arith, op: Token, a: Number, b: Number)
    requires op.tokenType != EQUAL_EQUAL && op.tokenType != BANG_EQUAL
    ensures BinaryOp(arith, op, Value.Number(a), Value.Number(b)).Success? <==> IsNumberOperator(op.tokenType)
    ensures !IsNumberOperator(op.tokenType) ==>
      BinaryOp(arith, op, Value.Number(a), Value.Number(b)) == Failure(RuntimeError(op, "Unexpected binary operator for numbers"))
  { }

  /** The arithmetic operators on two numbers give the host's result. */
  lemma NumberArithmetic(arith: Arith, op: Token, a: Number, b: Number)
    ensures op.tokenType == PLUS ==> BinaryOp(arith, op, Value.Number(a), Value.Number(b)) == Success(Value.Number(arith.add(a, b)))
    ensures op.tokenType == MINUS ==> BinaryOp(arith, op, Value.Number(a), Value.Number(b)) == Success(Value.Number(arith.sub(a, b)))
    ensures op.tokenType == STAR ==> BinaryOp(arith, op, Value.Number(a), Value.Number(b)) == Success(Value.Number(arith.mul(a, b)))
    ensures op.tokenType == SLASH ==> BinaryOp(arith, op, Value.Number(a), Value.Number(b)) == Success(Value.Number(arith.div(a, b)))
  { }

  /** The comparison operators on two numbers give the host's comparison as a boolean. */
  lemma NumberComparisons(arith: Arith, op: Token, a: Number, b: Number)
    ensures op.tokenType == GREATER ==> BinaryOp(arith, op, Value.Number(a), Value.Number(b)) == Success(Value.Boolean(arith.gt(a, b)))
    ensures op.tokenType == GREATER_EQUAL ==> BinaryOp(arith, op, Value.Number(a), Value.Number(b)) == Success(Value.Boolean(arith.ge(a, b)))
    ensures op.tokenType == LESS ==> BinaryOp(arith, op, Value.Number(a), Value.Number(b)) == Success(Value.Boolean(arith.lt(a, b)))
    ensures op.tokenType == LESS_EQUAL ==> BinaryOp(arith, op, Value.Number(a), Value.Number(b)) == Success(Value.Boolean(arith.le(a, b)))
  { }

  // ---------------------------------------------------------------------------
  // Expressions

  /** visit_expr: evaluates an expression against the variable bindings. */
  function Evaluate(arith: Arith, values: map<string, Value>, e: Expr): Result<Value, EvalError> {
    match e
    case Binary(left, op, right) =>
      var l :- Evaluate(arith, values, left);
      var r :- Evaluate(arith, values, right);
      BinaryOp(arith, op, l, r)
    case Unary(op, right) =>
      var v :- Evaluate(arith, values, right);
      UnaryOp(arith, op, v)
    case Grouping(inner) => Evaluate(arith, values, inner)
    case Literal(l) => Success(Val(l))
    case Variable(name) =>
      if name.lexeme in values then Success(values[name.lexeme])
      else Failure(RuntimeError(name, "couldn't visit variable"))
    case Null => Success(Value.Nil)
    case _ => Failure(NotEvaluated)
  }

  /** The left operand is evaluated first: its error is the result even when the right operand
      also fails, the right operand's error comes next, and only then are the operators typed. */
  lemma BinaryEvaluationOrder(arith: Arith, values: map<string, Value>, left: Expr, op: Token, right: Expr)
    ensures Evaluate(arith, values, left).Failure? ==>
      Evaluate(arith, values, Binary(left, op, right)) == Failure(Evaluate(arith, values, left).error)
    ensures Evaluate(arith, values, left).Success? && Evaluate(arith, values, right).Failure? ==>
      Evaluate(arith, values, Binary(left, op, right)) == Failure(Evaluate(arith, values, right).error)
    ensures Evaluate(arith, values, left).Success? && Evaluate(arith, values, right).Success? ==>
      Evaluate(arith, values, Binary(left, op, right)) ==
      BinaryOp(arith, op, Evaluate(arith, values, left).value, Evaluate(arith, values, right).value)
  { }

  /** A name is looked up in the map; a name that is not bound is an error at its token. */
  lemma VariableLookup(arith: Arith, values: map<string, Value>, name: Token)
    ensures name.lexeme in values ==> Evaluate(arith, values, Variable(name)) == Success(values[name.lexeme])
    ensures name.lexeme !in values ==>
      Evaluate(arith, values, Variable(name)) == Failure(RuntimeError(name, "couldn't visit variable"))
  { }

  /** Expressions without variables do not depend on the bindings. */
  predicate Closed(e: Expr) {
    match e
    case Binary(l, _, r) => Closed(l) && Closed(r)
    case Unary(_, r) => Closed(r)
    case Grouping(inner) => Closed(inner)
    case Literal(_) => true
    case Null => true
    case _ => false
  }

  lemma {:induction false} ClosedIndependent(arith: Arith, v1: map<string, Value>, v2: map<string, Value>, e: Expr)
    requires Closed(e)
    ensures Evaluate(arith, v1, e) == Evaluate(arith, v2, e)
  {
    match e
    case Binary(l, _, r) =>
      ClosedIndependent(arith, v1, v2, l);
      ClosedIndependent(arith, v1, v2, r);
    case Unary(_, r) => ClosedIndependent(arith, v1, v2, r);
    case Grouping(inner) => ClosedIndependent(arith, v1, v2, inner);
    case Literal(_) =>
    case Null =>
  }

  /** Evaluating through a grouping, and evaluating a literal, agree with the literal's value. */
  lemma GroupingAndLiteral(arith: Arith, values: map<string, Value>, e: Expr, l: Literal)
    ensures Evaluate(arith, values, Grouping(e)) == Evaluate(arith, values, e)
    ensures Evaluate(arith, values, Expr.Literal(l)) == Success(Val(l))
    ensures Evaluate(arith, values, Null) == Success(Value.Nil)
  { }

  // ---------------------------------------------------------------------------
  // Statements

  /** What statements act on: the bindings and the lines printed so far. */
  datatype Machine = Machine(values: map<string, Value>, output: seq<string>)

  /** visit_statement on one statement. */
  function Exec(arith: Arith, numText: Number -> string, m: Machine, s: Stmt): Result<Machine, EvalError> {
    match s
    case Expression(e) =>
      var _ :- Evaluate(arith, m.values, e);
      Success(m)
    case Print(e) =>
      var v :- Evaluate(arith, m.values, e);
      Success(m.(output := m.output + [Stringify(numText, v)]))
    case Var(name, init) =>
      var v :- Evaluate(arith, m.values, init);
      Success(m.(values := Defined(m.values, name.lexeme, v)))
    case _ => Failure(NotEvaluated)
  }

  /** interpret_stmts: runs the statements in order; the first error stops the run, leaving the
      state the earlier statements produced. */
  function ExecAll(arith: Arith, numText: Number -> string, m: Machine, stmts: seq<Stmt>): (Machine, Option<EvalError>)
    decreases |stmts|
  {
    if stmts == [] then (m, None)
    else
      match Exec(arith, numText, m, stmts[0])
      case Failure(err) => (m, Some(err))
      case Success(m') => ExecAll(arith, numText, m', stmts[1..])
  }

  /** A statement either fails and changes nothing, or succeeds: an expression statement
      changes nothing, a print appends exactly one line, a var statement binds its name. */
  lemma ExecEffects(arith: Arith, numText: Number -> string, m: Machine, s: Stmt)
    ensures Exec(arith, numText, m, s).Success? ==> (s.Expression? || s.Print? || s.Var?)
    ensures s.Expression? && Exec(arith, numText, m, s).Success? ==> Exec(arith, numText, m, s).value == m
    ensures s.Print? && Exec(arith, numText, m, s).Success? ==>
      Exec(arith, numText, m, s).value.values == m.values &&
      Exec(arith, numText, m, s).value.output ==
        m.output + [Stringify(numText, Evaluate(arith, m.values, s.expr).value)]
    ensures s.Var? && Exec(arith, numText, m, s).Success? ==>
      Exec(arith, numText, m, s).value.output == m.output &&
      Exec(arith, numText, m, s).value.values ==
        Defined(m.values, s.name.lexeme, Evaluate(arith, m.values, s.initializer).value)
    ensures (s.Expression? || s.Print?) ==>
      (Exec(arith, numText, m, s).Failure? <==> Evaluate(arith, m.values, s.expr).Failure?)
  { }

  /** Running a + b runs a, and, if a got through, runs b from where a stopped. */
  lemma {:induction false} ExecAllAppend(arith: Arith, numText: Number -> string, m: Machine, a: seq<Stmt>, b: seq<Stmt>)
    ensures ExecAll(arith, numText, m, a).1.Some? ==> ExecAll(arith, numText, m, a + b) == ExecAll(arith, numText, m, a)
    ensures ExecAll(arith, numText, m, a).1.None? ==>
      ExecAll(arith, numText, m, a + b) == ExecAll(arith, numText, ExecAll(arith, numText, m, a).0, b)
    decreases |a|
  {
    if a == [] {
      assert a + b == b;
    } else {
      assert (a + b)[0] == a[0];
      assert (a + b)[1..] == a[1..] + b;
      match Exec(arith, numText, m, a[0])
      case Failure(_) =>
      case Success(m') => ExecAllAppend(arith, numText, m', a[1..], b);
    }
  }

  /** Output is only ever appended to: whatever the statements do, the lines printed before
      are still there, in order. */
  lemma {:induction false} OutputOnlyGrows(arith: Arith, numText: Number -> string, m: Machine, stmts: seq<Stmt>)
    ensures m.output <= ExecAll(arith, numText, m, stmts).0.output
    decreases |stmts|
  {
    if stmts != [] {
      match Exec(arith, numText, m, stmts[0])
      case Failure(_) =>
      case Success(m') =>
        ExecEffects(arith, numText, m, stmts[0]);
        OutputOnlyGrows(arith, numText, m', stmts[1..]);
    }
  }

  /** The bit patterns of the doubles 2.0, 3.0 and 6.0. */
  const Two: Number := 0x4000_0000_0000_0000
  const Three: Number := 0x4008_0000_0000_0000
  const Six: Number := 0x4018_0000_0000_0000

  /** `print 2*3; var x = 3; print x;` as the parser builds it. */
  const ScenarioX: Token := Token.New(IDENTIFIER, "x", Literal.Nil, 1)
  const ScenarioProgram: seq<Stmt> := [
    Stmt.Print(Binary(Expr.Literal(Literal.Number(Two)), Token.New(STAR, "*", Literal.Nil, 1), Expr.Literal(Literal.Number(Three)))),
    Var(ScenarioX, Expr.Literal(Literal.Number(Three))),
    Stmt.Print(Variable(ScenarioX))
  ]

  /** Run from an empty interpreter, the program prints "6" and then "3" and leaves x bound
      to 3, given that the host computes 2.0 * 3.0 as 6.0 and renders 6.0 and 3.0 as "6" and
      "3" once a trailing ".0" is trimmed: Rust's `f64` Display gives "6" and "3" directly,
      and a rendering with ".0" is trimmed to the same. */
  lemma ScenarioRuns(arith: Arith, numText: Number -> string)
    requires arith.mul(Two, Three) == Six
    requires TrimPointZero(numText(Six)) == "6" && TrimPointZero(numText(Three)) == "3"
    ensures ExecAll(arith, numText, Machine(map[], []), ScenarioProgram) ==
      (Machine(map["x" := Value.Number(Three)], ["6", "3"]), None)
  {
    var p := ScenarioProgram;
    var m0 := Machine(map[], []);
    var m1 := Machine(map[], ["6"]);
    var m2 := Machine(map["x" := Value.Number(Three)], ["6"]);
    var m3 := Machine(map["x" := Value.Number(Three)], ["6", "3"]);
    assert Stringify(numText, Value.Number(Six)) == "6";
    assert Stringify(numText, Value.Number(Three)) == "3";
    assert Evaluate(arith, m0.values, p[0].expr) == Success(Value.Number(Six)) by {
      NumberArithmetic(arith, p[0].expr.operator, Two, Three);
    }
    assert m0.output + ["6"] == m1.output;
    assert Exec(arith, numText, m0, p[0]) == Success(m1);
    assert Exec(arith, numText, m1, p[1]) == Success(m2);
    assert Evaluate(arith, m2.values, p[2].expr) == Success(Value.Number(Three));
    assert m2.output + ["3"] == m3.output;
    assert Exec(arith, numText, m2, p[2]) == Success(m3);
    assert ExecAll(arith, numText, m3, p[3..]) == (m3, None);
    assert ExecAll(arith, numText, m2, p[2..]) == (m3, None);
    assert ExecAll(arith, numText, m1, p[1..]) == (m3, None);
  }

  // ---------------------------------------------------------------------------
  // The interpreter object

  class Interp {
    const arith: Arith
    const numText: Number -> string
    const environment: Environment
    /** The lines print statements have written, in order. */
    var output: seq<string>

    function State(): Machine
      reads this, environment
    {
      Machine(environment.values, output)
    }

    /** Interp::new: an empty environment and nothing printed. */
    constructor (arith: Arith, numText: Number -> string)
      ensures this.arith == arith && this.numText == numText
      ensures State() == Machine(map[], [])
      ensures fresh(environment)
    {
      this.arith := arith;
      this.numText := numText;
      environment := new Environment();
      output := [];
    }

    /** visit_expr_statement: evaluates and discards the value. */
    method VisitExprStatement(e: Expr) returns (r: Result<(), EvalError>)
      ensures r.Failure? <==> Evaluate(arith, environment.values, e).Failure?
      ensures r.Failure? ==> r.error == Evaluate(arith, environment.values, e).error
    {
      var v := Evaluate(arith, environment.values, e);
      if v.Failure? {
        return Failure(v.error);
      }
      return Success(());
    }

    /** visit_print_statement: evaluates and writes the stringified value as one line. */
    method VisitPrintStatement(e: Expr) returns (r: Result<(), EvalError>)
      modifies this
      ensures Exec(arith, numText, old(State()), Stmt.Print(e)).Success? ==>
        r.Success? && State() == Exec(arith, numText, old(State()), Stmt.Print(e)).value
      ensures Exec(arith, numText, old(State()), Stmt.Print(e)).Failure? ==>
        r == Failure(Exec(arith, numText, old(State()), Stmt.Print(e)).error) && State() == old(State())
    {
      var v := Evaluate(arith, environment.values, e);
      if v.Failure? {
        return Failure(v.error);
      }
      output := output + [Stringify(numText, v.value)];
      return Success(());
    }

    /** visit_var_statement: evaluates the initializer, then inserts the name into the map. */
    method VisitVarStatement(name: Token, initializer: Expr) returns (r: Result<(), EvalError>)
      modifies environment
      ensures Exec(arith, numText, old(State()), Var(name, initializer)).Success? ==>
        r.Success? && State() == Exec(arith, numText, old(State()), Var(name, initializer)).value
      ensures Exec(arith, numText, old(State()), Var(name, initializer)).Failure? ==>
        r == Failure(Exec(arith, numText, old(State()), Var(name, initializer)).error) && State() == old(State())
    {
      var v := Evaluate(arith, environment.values, initializer);
      if v.Failure? {
        return Failure(v.error);
      }
      environment.values := environment.values[name.lexeme := v.value];
      return Success(());
    }

    /** visit_statement: dispatches to the statement visitors. */
    method VisitStatement(s: Stmt) returns (r: Result<(), EvalError>)
      modifies this, environment
      ensures Exec(arith, numText, old(State()), s).Success? ==>
        r.Success? && State() == Exec(arith, numText, old(State()), s).value
      ensures Exec(arith, numText, old(State()), s).Failure? ==>
        r == Failure(Exec(arith, numText, old(State()), s).error) && State() == old(State())
    {
      match s
      case Expression(e) => r := VisitExprStatement(e);
      case Print(e) => r := VisitPrintStatement(e);
      case Var(name, init) => r := VisitVarStatement(name, init);
      case _ => r := Failure(NotEvaluated);
    }

    /** interpret_stmts: each statement in turn, returning at the first error. */
    method InterpretStmts(stmts: seq<Stmt>) returns (r: Result<(), EvalError>)
      modifies this, environment
      ensures State() == ExecAll(arith, numText, old(State()), stmts).0
      ensures r.Failure? <==> ExecAll(arith, numText, old(State()), stmts).1.Some?
      ensures r.Failure? ==> r.error == ExecAll(arith, numText, old(State()), stmts).1.value
    {
      var i := 0;
      while i < |stmts|
        invariant 0 <= i <= |stmts|
        invariant ExecAll(arith, numText, old(State()), stmts) == ExecAll(arith, numText, State(), stmts[i..])
      {
        var res := VisitStatement(stmts[i]);
        if res.Failure? {
          return Failure(res.error);
        }
        assert stmts[i..][1..] == stmts[i + 1..];
        i := i + 1;
      }
      return Success(());
    }
  }
}
