/** The extended s-expression printer over the full expression tree the parser builds. */
module Printer {

  import opened Tokens
  import opened Syntax
  import AstPrinter

  /** visit_expr: every variant rendered in prefix form. */
  function Print(numText: Number -> string, e: Expr): string
    decreases e
  {
    match e
    case Assign(name, value) =>
      AstPrinter.Parenthesized("assign=", [VariableText(name), Print(numText, value)])
    case Logical(l, op, r) => AstPrinter.Parenthesized(op.lexeme, [Print(numText, l), Print(numText, r)])
    case Binary(l, op, r) => AstPrinter.Parenthesized(op.lexeme, [Print(numText, l), Print(numText, r)])
    case Unary(op, r) => AstPrinter.Parenthesized(op.lexeme, [Print(numText, r)])
    case Call(_, _, args) => AstPrinter.Parenthesized("func_call with args", PrintAll(numText, args))
    case Grouping(inner) => AstPrinter.Parenthesized("group", [Print(numText, inner)])
    case Literal(l) => AstPrinter.LiteralText(numText, l)
    case Variable(name) => VariableText(name)
    case Null => "null"
  }

  /** The printed form of each expression of a list, in order. */
  function PrintAll(numText: Number -> string, es: seq<Expr>): (ps: seq<string>)
    decreases es
    ensures |ps| == |es|
  {
    seq(|es|, i requires 0 <= i < |es| => Print(numText, es[i]))
  }

  /** visit_variable: "var:" followed by the name. */
  function VariableText(name: Token): string {
    "var:" + name.lexeme
  }

  /** Assign prints as (assign= var:name value). */
  lemma PrintAssignShape(numText: Number -> string, name: Token, value: Expr)
    ensures Print(numText, Assign(name, value)) == "(assign= var:" + name.lexeme + " " + Print(numText, value) + ")"
  {
    AstPrinter.ParenthesizedShape("assign=", VariableText(name), Print(numText, value));
  }

  /** Binary prints as (op left right), with the operator token's lexeme. */
  lemma PrintBinaryShape(numText: Number -> string, l: Expr, op: Token, r: Expr)
    ensures Print(numText, Binary(l, op, r)) == "(" + op.lexeme + " " + Print(numText, l) + " " + Print(numText, r) + ")"
  {
    var pl, pr := Print(numText, l), Print(numText, r);
    assert Print(numText, Binary(l, op, r)) == AstPrinter.Parenthesized(op.lexeme, [pl, pr]);
    AstPrinter.ParenthesizedShape(op.lexeme, pl, pr);
  }

  /** Logical prints as (op left right), exactly like binary. */
  lemma PrintLogicalShape(numText: Number -> string, l: Expr, op: Token, r: Expr)
    ensures Print(numText, Logical(l, op, r)) == "(" + op.lexeme + " " + Print(numText, l) + " " + Print(numText, r) + ")"
  {
    var pl, pr := Print(numText, l), Print(numText, r);
    assert Print(numText, Logical(l, op, r)) == AstPrinter.Parenthesized(op.lexeme, [pl, pr]);
    AstPrinter.ParenthesizedShape(op.lexeme, pl, pr);
  }

  /** Unary prints as (op operand) and grouping as (group inner). */
  lemma PrintUnaryShape(numText: Number -> string, op: Token, r: Expr)
    ensures Print(numText, Unary(op, r)) == "(" + op.lexeme + " " + Print(numText, r) + ")"
    ensures Print(numText, Grouping(r)) == "(group " + Print(numText, r) + ")"
  {
    AstPrinter.ParenthesizedShape(op.lexeme, Print(numText, r), "");
    AstPrinter.ParenthesizedShape("group", Print(numText, r), "");
  }

  /** A variable prints as var:name and the null expression as null. */
  lemma PrintLeafShapes(numText: Number -> string, name: Token)
    ensures Print(numText, Variable(name)) == "var:" + name.lexeme
    ensures Print(numText, Null) == "null"
  { }

  /** A call prints the same whatever its callee and parenthesis token are. */
  lemma PrintCallIgnoresCallee(numText: Number -> string, callee: Expr, paren: Token, args: seq<Expr>,
                               otherCallee: Expr, otherParen: Token)
    ensures Print(numText, Call(callee, paren, args)) == Print(numText, Call(otherCallee, otherParen, args))
  { }

  /** A call with one argument prints as (func_call with args a). */
  lemma PrintCallShape(numText: Number -> string, callee: Expr, paren: Token, args: seq<Expr>)
    requires |args| == 1
    ensures Print(numText, Call(callee, paren, args)) == "(func_call with args " + Print(numText, args[0]) + ")"
  {
    var pa := Print(numText, args[0]);
    var parts := PrintAll(numText, args);
    assert parts == [pa];
    assert Print(numText, Call(callee, paren, args)) == AstPrinter.Parenthesized("func_call with args", parts);
    AstPrinter.ParenthesizedShape("func_call with args", pa, "");
  }

  /** On the four forms the first printer knows, both printers produce the same text. */
  lemma {:induction false} AgreesWithFirstPrinter(numText: Number -> string, e: Expr)
    requires AstPrinter.IsCore(e)
    ensures Print(numText, e) == AstPrinter.Print(numText, e)
  {
    match e
    case Binary(l, _, r) =>
      AgreesWithFirstPrinter(numText, l);
      AgreesWithFirstPrinter(numText, r);
    case Unary(_, r) => AgreesWithFirstPrinter(numText, r);
    case Grouping(inner) => AgreesWithFirstPrinter(numText, inner);
    case Literal(_) =>
  }

  /** The extended printer renders the example tree as the first one does. */
  lemma ExamplePrints(numText: Number -> string)
    requires numText(AstPrinter.OneTwoThree) == "123" && numText(AstPrinter.FortyFiveSixtySeven) == "45.67"
    ensures Print(numText, AstPrinter.ExampleTree) == "(* (- 123) (group 45.67))"
  {
    AstPrinter.ExamplePrints(numText);
    AgreesWithFirstPrinter(numText, AstPrinter.ExampleTree);
  }

  /** parenthesize: "(name", then " " and the printed expression for each in turn, then ")". */
  method Parenthesize(numText: Number -> string, name: string, exprs: seq<Expr>) returns (s: string)
    ensures s == AstPrinter.Parenthesized(name, PrintAll(numText, exprs))
  {
    ghost var parts := PrintAll(numText, exprs);
    s := "(" + name;
    for i := 0 to |exprs|
      invariant s == "(" + name + AstPrinter.Spaced(parts[..i])
    {
      assert parts[..i + 1][..i] == parts[..i];
      s := s + " " + Print(numText, exprs[i]);
    }
    assert parts[..|exprs|] == parts;
    s := s + ")";
  }

  // ---------------------------------------------------------------------------
  // Balanced parentheses

  /** Opening minus closing parentheses in s. */
  function Depth(s: string): int {
    if s == [] then 0
    else Depth(s[..|s| - 1]) + (if s[|s| - 1] == '(' then 1 else if s[|s| - 1] == ')' then -1 else 0)
  }

  /** Every prefix opens at least as many parentheses as it closes, and the whole closes them all. */
  predicate Balanced(s: string) {
    Depth(s) == 0 && forall k | 0 <= k <= |s| :: Depth(s[..k]) >= 0
  }

  predicate ParenFree(s: string) {
    forall i | 0 <= i < |s| :: s[i] != '(' && s[i] != ')'
  }

  lemma {:induction false} DepthConcat(a: string, b: string)
    ensures Depth(a + b) == Depth(a) + Depth(b)
    decreases |b|
  {
    if b == [] {
      assert a + b == a;
    } else {
      var b' := b[..|b| - 1];
      assert (a + b)[..|a + b| - 1] == a + b';
      DepthConcat(a, b');
    }
  }

  lemma {:induction false} ParenFreeDepth(s: string)
    requires ParenFree(s)
    ensures Depth(s) == 0
    decreases |s|
  {
    if s != [] {
      ParenFreeDepth(s[..|s| - 1]);
    }
  }

  lemma ParenFreeBalanced(s: string)
    requires ParenFree(s)
    ensures Balanced(s)
  {
    ParenFreeDepth(s);
    forall k | 0 <= k <= |s| ensures Depth(s[..k]) >= 0 {
      ParenFreeDepth(s[..k]);
    }
  }

  lemma ConcatBalanced(a: string, b: string)
    requires Balanced(a) && Balanced(b)
    ensures Balanced(a + b)
  {
    DepthConcat(a, b);
    forall k | 0 <= k <= |a + b| ensures Depth((a + b)[..k]) >= 0 {
      if k <= |a| {
        assert (a + b)[..k] == a[..k];
      } else {
        assert (a + b)[..k] == a + b[..k - |a|];
        DepthConcat(a, b[..k - |a|]);
      }
    }
  }

  lemma WrapBalanced(s: string)
    requires Balanced(s)
    ensures Balanced("(" + s + ")")
  {
    var w := "(" + s + ")";
    DepthConcat("(", s);
    DepthConcat("(" + s, ")");
    forall k | 0 <= k <= |w| ensures Depth(w[..k]) >= 0 {
      if 1 <= k <= |s| + 1 {
        assert w[..k] == "(" + s[..k - 1];
        DepthConcat("(", s[..k - 1]);
      } else if k == |w| {
        assert w[..k] == w;
      }
    }
  }

  lemma {:induction false} SpacedBalanced(parts: seq<string>)
    requires forall i | 0 <= i < |parts| :: Balanced(parts[i])
    ensures Balanced(AstPrinter.Spaced(parts))
    decreases |parts|
  {
    if parts == [] {
      ParenFreeBalanced("");
    } else {
      SpacedBalanced(parts[..|parts| - 1]);
      ParenFreeBalanced(" ");
      ConcatBalanced(AstPrinter.Spaced(parts[..|parts| - 1]), " ");
      ConcatBalanced(AstPrinter.Spaced(parts[..|parts| - 1]) + " ", parts[|parts| - 1]);
    }
  }

  lemma ParenthesizedBalanced(name: string, parts: seq<string>)
    requires ParenFree(name)
    requires forall i | 0 <= i < |parts| :: Balanced(parts[i])
    ensures Balanced(AstPrinter.Parenthesized(name, parts))
  {
    ParenFreeBalanced(name);
    SpacedBalanced(parts);
    ConcatBalanced(name, AstPrinter.Spaced(parts));
    WrapBalanced(name + AstPrinter.Spaced(parts));
    assert "(" + name + AstPrinter.Spaced(parts) + ")" == "(" + (name + AstPrinter.Spaced(parts)) + ")";
  }

  /** No operator lexeme, name, string literal or rendered number in e has a parenthesis. */
  predicate LeavesParenFree(numText: Number -> string, e: Expr) {
    match e
    case Assign(name, value) => ParenFree(name.lexeme) && LeavesParenFree(numText, value)
    case Logical(l, op, r) => ParenFree(op.lexeme) && LeavesParenFree(numText, l) && LeavesParenFree(numText, r)
    case Binary(l, op, r) => ParenFree(op.lexeme) && LeavesParenFree(numText, l) && LeavesParenFree(numText, r)
    case Unary(op, r) => ParenFree(op.lexeme) && LeavesParenFree(numText, r)
    case Call(_, _, args) => forall i | 0 <= i < |args| :: LeavesParenFree(numText, args[i])
    case Grouping(inner) => LeavesParenFree(numText, inner)
    case Literal(l) => ParenFree(AstPrinter.LiteralText(numText, l))
    case Variable(name) => ParenFree(name.lexeme)
    case Null => true
  }

  /** Every opening parenthesis the printer writes is closed, and never before it is opened,
      whenever the texts it copies in carry no parentheses of their own. */
  lemma {:induction false} PrintBalanced(numText: Number -> string, e: Expr)
    requires LeavesParenFree(numText, e)
    ensures Balanced(Print(numText, e))
    decreases e
  {
    match e
    case Assign(name, value) =>
      PrintBalanced(numText, value);
      assert ParenFree(VariableText(name));
      ParenFreeBalanced(VariableText(name));
      ParenthesizedBalanced("assign=", [VariableText(name), Print(numText, value)]);
    case Logical(l, op, r) =>
      PrintBalanced(numText, l);
      PrintBalanced(numText, r);
      ParenthesizedBalanced(op.lexeme, [Print(numText, l), Print(numText, r)]);
    case Binary(l, op, r) =>
      PrintBalanced(numText, l);
      PrintBalanced(numText, r);
      ParenthesizedBalanced(op.lexeme, [Print(numText, l), Print(numText, r)]);
    case Unary(op, r) =>
      PrintBalanced(numText, r);
      ParenthesizedBalanced(op.lexeme, [Print(numText, r)]);
    case Call(_, _, args) =>
      forall i | 0 <= i < |args| ensures Balanced(PrintAll(numText, args)[i]) {
        PrintBalanced(numText, args[i]);
      }
      ParenthesizedBalanced("func_call with args", PrintAll(numText, args));
    case Grouping(inner) =>
      PrintBalanced(numText, inner);
      ParenthesizedBalanced("group", [Print(numText, inner)]);
    case Literal(l) => ParenFreeBalanced(AstPrinter.LiteralText(numText, l));
    case Variable(name) =>
      assert ParenFree(VariableText(name));
      ParenFreeBalanced(VariableText(name));
    case Null => ParenFreeBalanced("null");
  }
}
