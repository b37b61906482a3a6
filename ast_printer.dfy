/** The first s-expression printer, over the four expression forms its visitor knows:
    binary, unary, grouping and literal. */
module AstPrinter {

  import opened Tokens
  import opened Syntax

  /** The parts joined as `parenthesize` joins them: a space before each one. */
  function Spaced(parts: seq<string>): string {
    if parts == [] then "" else Spaced(parts[..|parts| - 1]) + " " + parts[|parts| - 1]
  }

  /** The text `parenthesize(name, parts)` produces: "(name p1 ... pn)". */
  function Parenthesized(name: string, parts: seq<string>): string {
    "(" + name + Spaced(parts) + ")"
  }

  /** Parenthesized with one and with two parts, written out. */
  lemma ParenthesizedShape(name: string, a: string, b: string)
    ensures Parenthesized(name, []) == "(" + name + ")"
    ensures Parenthesized(name, [a]) == "(" + name + " " + a + ")"
    ensures Parenthesized(name, [a, b]) == "(" + name + " " + a + " " + b + ")"
  {
    assert [a, b][..1] == [a];
    assert [a][..0] == [];
  }

  /** How a literal is rendered: strings verbatim without quotes, booleans and nil
      by name, numbers by the supplied rendering of a double (`f64::to_string`). */
  function LiteralText(numText: Number -> string, l: Literal): (s: string)
    ensures l.String? ==> s == l.s
    ensures l.Nil? ==> s == "nil"
    ensures l.Boolean? ==> s == (if l.b then "true" else "false")
  {
    match l
    case String(v) => v
    case Number(n) => numText(n)
    case Boolean(b) => if b then "true" else "false"
    case Nil => "nil"
  }

  /** The expressions of the four-variant tree this printer was written for. */
  predicate IsCore(e: Expr) {
    match e
    case Binary(l, _, r) => IsCore(l) && IsCore(r)
    case Unary(_, r) => IsCore(r)
    case Grouping(inner) => IsCore(inner)
    case Literal(_) => true
    case _ => false
  }

  /** visit_expr of the first printer. */
  function Print(numText: Number -> string, e: Expr): string
    requires IsCore(e)
  {
    match e
    case Binary(l, op, r) => Parenthesized(op.lexeme, [Print(numText, l), Print(numText, r)])
    case Unary(op, r) => Parenthesized(op.lexeme, [Print(numText, r)])
    case Grouping(inner) => Parenthesized("group", [Print(numText, inner)])
    case Literal(l) => LiteralText(numText, l)
  }

  /** Binary prints as (op left right), unary as (op operand), grouping as (group inner). */
  lemma PrintShapes(numText: Number -> string, e: Expr)
    requires IsCore(e)
    ensures e.Binary? ==>
      Print(numText, e) == "(" + e.operator.lexeme + " " + Print(numText, e.left) + " " + Print(numText, e.right) + ")"
    ensures e.Unary? ==> Print(numText, e) == "(" + e.operator.lexeme + " " + Print(numText, e.right) + ")"
    ensures e.Grouping? ==> Print(numText, e) == "(group " + Print(numText, e.inner) + ")"
  {
    match e
    case Binary(l, op, r) => ParenthesizedShape(op.lexeme, Print(numText, l), Print(numText, r));
    case Unary(op, r) => ParenthesizedShape(op.lexeme, Print(numText, r), "");
    case Grouping(inner) => ParenthesizedShape("group", Print(numText, inner), "");
    case Literal(_) =>
  }

  /** The bit patterns of the doubles 123.0 and 45.67. */
  const OneTwoThree: Number := 0x405e_c000_0000_0000
  const FortyFiveSixtySeven: Number := 0x4046_d5c2_8f5c_28f6

  /** The printers' example tree, `(-123) * (45.67)`, and its two operands. */
  const MinusOneTwoThree: Expr :=
    Unary(Token.New(MINUS, "-", Literal.Nil, 0), Expr.Literal(Literal.Number(OneTwoThree)))
  const GroupedFortyFiveSixtySeven: Expr := Grouping(Expr.Literal(Literal.Number(FortyFiveSixtySeven)))
  const ExampleTree: Expr := Binary(MinusOneTwoThree, Token.New(STAR, "*", Literal.Nil, 0), GroupedFortyFiveSixtySeven)

  lemma ExampleOperands(numText: Number -> string)
    requires numText(OneTwoThree) == "123" && numText(FortyFiveSixtySeven) == "45.67"
    ensures IsCore(ExampleTree)
    ensures Print(numText, MinusOneTwoThree) == "(- 123)"
    ensures Print(numText, GroupedFortyFiveSixtySeven) == "(group 45.67)"
  {
    ParenthesizedShape("-", "123", "");
    ParenthesizedShape("group", "45.67", "");
  }

  /** With `f64::to_string` rendering 123.0 as "123" and 45.67 as "45.67", the example tree
      prints as "(* (- 123) (group 45.67))". */
  lemma ExamplePrints(numText: Number -> string)
    requires numText(OneTwoThree) == "123" && numText(FortyFiveSixtySeven) == "45.67"
    ensures IsCore(ExampleTree)
    ensures Print(numText, ExampleTree) == "(* (- 123) (group 45.67))"
  {
    ExampleOperands(numText);
    ParenthesizedShape("*", "(- 123)", "(group 45.67)");
  }

  /** parenthesize: starts from "(name", appends " " and the printed expression for each
      expression in turn, and closes with ")". */
  method Parenthesize(numText: Number -> string, name: string, exprs: seq<Expr>) returns (s: string)
    requires forall i | 0 <= i < |exprs| :: IsCore(exprs[i])
    ensures s == Parenthesized(name, seq(|exprs|, i requires 0 <= i < |exprs| => Print(numText, exprs[i])))
  {
    ghost var parts := seq(|exprs|, i requires 0 <= i < |exprs| => Print(numText, exprs[i]));
    s := "(" + name;
    for i := 0 to |exprs|
      invariant s == "(" + name + Spaced(parts[..i])
    {
      assert parts[..i + 1][..i] == parts[..i];
      s := s + " " + Print(numText, exprs[i]);
    }
    assert parts[..|exprs|] == parts;
    s := s + ")";
  }
}
