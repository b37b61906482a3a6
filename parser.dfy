/** The parser object: a token list and a cursor that each grammar method moves. Every method
    is proved to return exactly the outcome, and leave the cursor exactly where, the
    corresponding ParserSpec function says. */
module Parsing {

  import opened Wrappers
  import opened Tokens
  import opened Syntax
  import opened ParserSpec

  /** A method's outcome and the cursor it leaves are those the specification gives. */
  predicate Yields<T(==)>(r: Result<T, ParseError>, cursor: nat, spec: Parsed<T>) {
    (r.Success? <==> spec.Ok?) && (r.Success? ==> r.value == spec.value) &&
    (r.Failure? ==> r.error == spec.error) && cursor == spec.next
  }

  class Parser {
    const tokens: seq<Token>
    var current: nat

    /** The cursor is on a token of a list that ends in EOF. */
    predicate Valid()
      reads this
    {
      Cursor(tokens, current)
    }


    /** Parser::new. */
    constructor (tokens: seq<Token>)
      requires ValidTokens(tokens)
      ensures this.tokens == tokens && current == 0
      ensures Valid()
    {
      this.tokens := tokens;
      current := 0;
    }

    /** parse: declarations until EOF; a failed one is recorded and the cursor synchronised. */
    method Parse() returns (statements: seq<Stmt>, errors: seq<ParseError>)
      requires Valid()
      modifies this
      ensures (statements, errors) == ParseFrom(tokens, old(current), [], [])
      ensures old(current) == 0 ==> (statements, errors) == ParserSpec.Parse(tokens)
    {
      statements := [];
      errors := [];
      while !IsAtEnd()
        invariant Valid()
        invariant ParseFrom(tokens, current, statements, errors) == ParseFrom(tokens, old(current), [], [])
        decreases |tokens| - current
      {
        ghost var p := current;
        var r := Declaration();
        match r {
          case Success(s) =>
            statements := statements + [s];
          case Failure(e) =>
            errors := errors + [e];
            Synchronise();
        }
      }
    }

    /** synchronise: discards tokens up to the next likely start of a declaration. */
    method Synchronise()
      requires Valid() && (current > 0 || !IsAtEnd())
      modifies this
      ensures current == ParserSpec.Synchronise(tokens, old(current))
    {
      var _ := Advance();
      while !IsAtEnd()
        invariant Valid() && current >= 1
        invariant SyncLoop(tokens, current) == ParserSpec.Synchronise(tokens, old(current))
        decreases |tokens| - current
      {
        if Previous().tokenType == SEMICOLON {
          return;
        }
        if StartsDeclaration(Peek().tokenType) {
          return;
        }
        var _ := Advance();
      }
    }

    /** declaration. */
    method Declaration() returns (r: Result<Stmt, ParseError>)
      requires Valid()
      modifies this
      ensures Yields(r, current, ParserSpec.Declaration(tokens, old(current)))
      decreases |tokens| - current, 23
    {
      var isVar := MatchTypes([VAR]);
      if isVar {
        r := VarDeclaration();
        return;
      }
      var isFun := MatchTypes([FUN]);
      if isFun {
        r := FuncDeclaration();
        return;
      }
      r := Statement();
    }

    /** var_declaration. */
    method VarDeclaration() returns (r: Result<Stmt, ParseError>)
      requires Valid()
      modifies this
      ensures Yields(r, current, ParserSpec.VarDeclaration(tokens, old(current)))
      decreases |tokens| - current, 23
    {
      var name :- Consume(IDENTIFIER, "expected IDENTIFIER in var declaration");
      var hasInitializer := MatchTypes([EQUAL]);
      if hasInitializer {
        var initializer :- Expression();
        var semicolon :- Consume(SEMICOLON, "Expected ';' after value");
        return Success(Var(name, initializer));
      }
      var semicolon :- Consume(SEMICOLON, "Expected ';' after value");
      return Success(Var(name, Null));
    }

    /** func_declaration. */
    method FuncDeclaration() returns (r: Result<Stmt, ParseError>)
      requires Valid()
      modifies this
      ensures Yields(r, current, ParserSpec.FuncDeclaration(tokens, old(current)))
      decreases |tokens| - current, 23
    {
      var name :- Consume(IDENTIFIER, "fun declaration lacking identifier");
      var open :- Consume(LEFT_PAREN, "expect '(' after func identifier decl");
      var parameters :- ParameterList();
      var close := Consume(RIGHT_PAREN, "Expected ')' after arguments");
      match close {
        case Failure(e) => return Failure(e);
        case Success(_) =>
      }
      var brace :- Consume(LEFT_BRACE, "Expected opening brace for func body");
      var body :- BlockStatement();
      if body.Block? {
        return Success(Func(name, parameters, body.statements));
      }
      return Failure(ParseError(name, "Expected block statement for function body"));
    }

    /** The parameter loop of func_declaration: identifiers up to `)`, at most 255. */
    method ParameterList() returns (r: Result<seq<Token>, ParseError>)
      requires Valid()
      modifies this
      ensures Yields(r, current, Parameters(tokens, old(current), tokens[old(current)], []))
    {
      var first := Peek();
      var parameters: seq<Token> := [];
      while !Check(RIGHT_PAREN)
        invariant Valid() && |parameters| <= 255
        invariant Parameters(tokens, current, first, parameters) == Parameters(tokens, old(current), first, [])
        decreases |tokens| - current
      {
        if |parameters| >= 255 {
          return Failure(ParseError(first, "too many arguments"));
        }
        var parameter :- Consume(IDENTIFIER, "expected IDENTIFIER arg, got something else");
        parameters := parameters + [parameter];
        if Check(COMMA) {
          var _ := Advance();
        }
      }
      return Success(parameters);
    }

    /** statement. */
    method Statement() returns (r: Result<Stmt, ParseError>)
      requires Valid()
      modifies this
      ensures Yields(r, current, ParserSpec.Statement(tokens, old(current)))
      decreases |tokens| - current, 22
    {
      var m := MatchTypes([PRINT]);
      if m {
        r := PrintStatement();
        return;
      }
      m := MatchTypes([LEFT_BRACE]);
      if m {
        r := BlockStatement();
        return;
      }
      m := MatchTypes([IF]);
      if m {
        r := IfStatement();
        return;
      }
      m := MatchTypes([WHILE]);
      if m {
        r := WhileStatement();
        return;
      }
      m := MatchTypes([FOR]);
      if m {
        r := ForStatement();
        return;
      }
      r := ExprStatement();
    }

    /** print_statement. */
    method PrintStatement() returns (r: Result<Stmt, ParseError>)
      requires Valid()
      modifies this
      ensures Yields(r, current, ParserSpec.PrintStatement(tokens, old(current)))
      decreases |tokens| - current, 18
    {
      var e :- Expression();
      var semicolon :- Consume(SEMICOLON, "Expected ';' after value");
      return Success(Stmt.Print(e));
    }

    /** block_statement. */
    method BlockStatement() returns (r: Result<Stmt, ParseError>)
      requires Valid()
      modifies this
      ensures Yields(r, current, ParserSpec.BlockStatement(tokens, old(current)))
      decreases |tokens| - current, 25
    {
      var statements: seq<Stmt> := [];
      while !Check(RIGHT_BRACE) && !IsAtEnd()
        invariant Valid()
        invariant BlockLoop(tokens, current, statements) == ParserSpec.BlockStatement(tokens, old(current))
        decreases |tokens| - current
      {
        var d :- Declaration();
        statements := statements + [d];
      }
      var close :- Consume(RIGHT_BRACE, "Expected '}' after block");
      return Success(Block(statements));
    }

    /** if_statement; the outcomes of consuming the parentheses are discarded. */
    method IfStatement() returns (r: Result<Stmt, ParseError>)
      requires Valid()
      modifies this
      ensures Yields(r, current, ParserSpec.IfStatement(tokens, old(current)))
      decreases |tokens| - current, 18
    {
      var _ := Consume(LEFT_PAREN, "Expect '(' after IF");
      var condition :- Expression();
      var _ := Consume(RIGHT_PAREN, "Expected ')' closing IF condition");
      var thenBranch :- Statement();
      var hasElse := MatchTypes([ELSE]);
      if hasElse {
        var elseBranch :- Statement();
        return Success(If(condition, thenBranch, Some(elseBranch)));
      }
      return Success(If(condition, thenBranch, None));
    }

    /** while_statement; the outcomes of consuming the parentheses are discarded. */
    method WhileStatement() returns (r: Result<Stmt, ParseError>)
      requires Valid()
      modifies this
      ensures Yields(r, current, ParserSpec.WhileStatement(tokens, old(current)))
      decreases |tokens| - current, 18
    {
      var _ := Consume(LEFT_PAREN, "Expect '(' after WHILE");
      var condition :- Expression();
      var _ := Consume(RIGHT_PAREN, "Expected ')' closing WHILE condition");
      var body :- Statement();
      return Success(While(condition, body));
    }

    /** for_statement: parses the clauses and the body, then builds the desugared loop. */
    method ForStatement() returns (r: Result<Stmt, ParseError>)
      requires Valid()
      modifies this
      ensures Yields(r, current, ParserSpec.ForStatement(tokens, old(current)))
      decreases |tokens| - current, 20
    {
      var _ := Consume(LEFT_PAREN, "Expect '(' after FOR");
      var initializer :- ForInitializer();
      var condition: Option<Expr> := None;
      if !Check(SEMICOLON) {
        var e :- Expression();
        condition := Some(e);
      }
      var _ := Consume(SEMICOLON, "Expected ';' before increment in FOR");
      var increment: Option<Expr> := None;
      if !Check(RIGHT_PAREN) {
        var e :- Expression();
        increment := Some(e);
      }
      var _ := Consume(RIGHT_PAREN, "Expected final ')' in FOR");
      var body :- Statement();
      if increment.Some? {
        body := Block([body, Stmt.Expression(increment.value)]);
      }
      body := While(condition.GetOr(Expr.Literal(Literal.Boolean(true))), body);
      if initializer.Some? {
        body := Block([initializer.value, body]);
      }
      return Success(body);
    }

    /** The initializer clause of for_statement. */
    method ForInitializer() returns (r: Result<Option<Stmt>, ParseError>)
      requires Valid()
      modifies this
      ensures Yields(r, current, ParserSpec.ForInitializer(tokens, old(current)))
      decreases |tokens| - current, 19
    {
      var none := MatchTypes([SEMICOLON]);
      if none {
        return Success(None);
      }
      var isVar := MatchTypes([VAR]);
      if isVar {
        var d :- VarDeclaration();
        return Success(Some(d));
      }
      var e :- ExprStatement();
      return Success(Some(e));
    }

    /** expr_statement. */
    method ExprStatement() returns (r: Result<Stmt, ParseError>)
      requires Valid()
      modifies this
      ensures Yields(r, current, ParserSpec.ExprStatement(tokens, old(current)))
      decreases |tokens| - current, 18
    {
      var e :- Expression();
      var semicolon :- Consume(SEMICOLON, "Expected ';' after expression");
      return Success(Stmt.Expression(e));
    }

    /** parse_expr: one expression, with the error dropped. */
    method ParseExpr() returns (e: Option<Expr>)
      requires Valid()
      modifies this
      ensures e.Some? <==> ParserSpec.Expression(tokens, old(current)).Ok?
      ensures e.Some? ==> e.value == ParserSpec.Expression(tokens, old(current)).value
      ensures current == ParserSpec.Expression(tokens, old(current)).next
      ensures old(current) == 0 ==> e == ParserSpec.ParseExpr(tokens)
    {
      var r := Expression();
      match r {
        case Success(x) => e := Some(x);
        case Failure(_) => e := None;
      }
    }

    /** expression. */
    method Expression() returns (r: Result<Expr, ParseError>)
      requires Valid()
      modifies this
      ensures Yields(r, current, ParserSpec.Expression(tokens, old(current)))
      decreases |tokens| - current, 17
    {
      r := Assignment();
    }

    /** assignment. */
    method Assignment() returns (r: Result<Expr, ParseError>)
      requires Valid()
      modifies this
      ensures Yields(r, current, ParserSpec.Assignment(tokens, old(current)))
      decreases |tokens| - current, 16
    {
      var e :- Or();
      var isAssignment := MatchTypes([EQUAL]);
      if isAssignment {
        var equals := Previous();
        if e.Variable? {
          var value :- Assignment();
          return Success(Assign(e.name, value));
        }
        return Failure(ParseError(equals, "trailing equal sign in non assignment expression??"));
      }
      return Success(e);
    }

    /** or: a and expression, then, while OR follows, another
        one combined into a Logical node with what was parsed so far. */
    method Or() returns (r: Result<Expr, ParseError>)
      requires Valid()
      modifies this
      ensures Yields(r, current, LevelExpr(tokens, old(current), OrLevel))
      decreases |tokens| - current, 15
    {
      var e :- And();
      while true
        invariant Valid()
        invariant LevelLoop(tokens, current, OrLevel, e) == LevelExpr(tokens, old(current), OrLevel)
        decreases |tokens| - current
      {
        ghost var before := current;
        var matched := MatchTypes([OR]);
        if !matched {
          break;
        }
        LevelLoopStep(tokens, before, OrLevel, e);
        var operator := Previous();
        var right :- And();
        e := Logical(e, operator, right);
      }
      return Success(e);
    }

    /** and: a equality expression, then, while AND follows, another
        one combined into a Logical node with what was parsed so far. */
    method And() returns (r: Result<Expr, ParseError>)
      requires Valid()
      modifies this
      ensures Yields(r, current, LevelExpr(tokens, old(current), AndLevel))
      decreases |tokens| - current, 13
    {
      var e :- Equality();
      while true
        invariant Valid()
        invariant LevelLoop(tokens, current, AndLevel, e) == LevelExpr(tokens, old(current), AndLevel)
        decreases |tokens| - current
      {
        ghost var before := current;
        var matched := MatchTypes([AND]);
        if !matched {
          break;
        }
        LevelLoopStep(tokens, before, AndLevel, e);
        var operator := Previous();
        var right :- Equality();
        e := Logical(e, operator, right);
      }
      return Success(e);
    }

    /** equality: a comparison expression, then, while BANG_EQUAL or EQUAL_EQUAL follows, another
        one combined into a Binary node with what was parsed so far. */
    method Equality() returns (r: Result<Expr, ParseError>)
      requires Valid()
      modifies this
      ensures Yields(r, current, LevelExpr(tokens, old(current), EqualityLevel))
      decreases |tokens| - current, 11
    {
      var e :- Comparison();
      while true
        invariant Valid()
        invariant LevelLoop(tokens, current, EqualityLevel, e) == LevelExpr(tokens, old(current), EqualityLevel)
        decreases |tokens| - current
      {
        ghost var before := current;
        var matched := MatchTypes([BANG_EQUAL, EQUAL_EQUAL]);
        if !matched {
          break;
        }
        LevelLoopStep(tokens, before, EqualityLevel, e);
        var operator := Previous();
        var right :- Comparison();
        e := Binary(e, operator, right);
      }
      return Success(e);
    }

    /** comparison: a term expression, then, while GREATER or GREATER_EQUAL or LESS or LESS_EQUAL follows, another
        one combined into a Binary node with what was parsed so far. */
    method Comparison() returns (r: Result<Expr, ParseError>)
      requires Valid()
      modifies this
      ensures Yields(r, current, LevelExpr(tokens, old(current), ComparisonLevel))
      decreases |tokens| - current, 9
    {
      var e :- Term();
      while true
        invariant Valid()
        invariant LevelLoop(tokens, current, ComparisonLevel, e) == LevelExpr(tokens, old(current), ComparisonLevel)
        decreases |tokens| - current
      {
        ghost var before := current;
        var matched := MatchTypes([GREATER, GREATER_EQUAL, LESS, LESS_EQUAL]);
        if !matched {
          break;
        }
        LevelLoopStep(tokens, before, ComparisonLevel, e);
        var operator := Previous();
        var right :- Term();
        e := Binary(e, operator, right);
      }
      return Success(e);
    }

    /** term: a factor expression, then, while MINUS or PLUS follows, another
        one combined into a Binary node with what was parsed so far. */
    method Term() returns (r: Result<Expr, ParseError>)
      requires Valid()
      modifies this
      ensures Yields(r, current, LevelExpr(tokens, old(current), TermLevel))
      decreases |tokens| - current, 7
    {
      var e :- Factor();
      while true
        invariant Valid()
        invariant LevelLoop(tokens, current, TermLevel, e) == LevelExpr(tokens, old(current), TermLevel)
        decreases |tokens| - current
      {
        ghost var before := current;
        var matched := MatchTypes([MINUS, PLUS]);
        if !matched {
          break;
        }
        LevelLoopStep(tokens, before, TermLevel, e);
        var operator := Previous();
        var right :- Factor();
        e := Binary(e, operator, right);
      }
      return Success(e);
    }

    /** factor: a unary expression, then, while STAR or SLASH follows, another
        one combined into a Binary node with what was parsed so far. */
    method Factor() returns (r: Result<Expr, ParseError>)
      requires Valid()
      modifies this
      ensures Yields(r, current, LevelExpr(tokens, old(current), FactorLevel))
      decreases |tokens| - current, 5
    {
      var e :- Unary();
      while true
        invariant Valid()
        invariant LevelLoop(tokens, current, FactorLevel, e) == LevelExpr(tokens, old(current), FactorLevel)
        decreases |tokens| - current
      {
        ghost var before := current;
        var matched := MatchTypes([STAR, SLASH]);
        if !matched {
          break;
        }
        LevelLoopStep(tokens, before, FactorLevel, e);
        var operator := Previous();
        var right :- Unary();
        e := Binary(e, operator, right);
      }
      return Success(e);
    }

    /** unary. */
    method Unary() returns (r: Result<Expr, ParseError>)
      requires Valid()
      modifies this
      ensures Yields(r, current, ParserSpec.Unary(tokens, old(current)))
      decreases |tokens| - current, 3
    {
      var isOperator := MatchTypes([BANG, MINUS]);
      if isOperator {
        var operator := Previous();
        var right :- Unary();
        return Success(Expr.Unary(operator, right));
      }
      r := Call();
    }

    /** call. */
    method Call() returns (r: Result<Expr, ParseError>)
      requires Valid()
      modifies this
      ensures Yields(r, current, ParserSpec.Call(tokens, old(current)))
      decreases |tokens| - current, 2
    {
      ghost var spec := ParserSpec.Call(tokens, current);
      var callee :- Primary();
      while true
        invariant Valid()
        invariant CallLoop(tokens, current, callee) == spec
        decreases |tokens| - current
      {
        ghost var before := current;
        var open := MatchTypes([LEFT_PAREN]);
        if !open {
          break;
        }
        CallLoopStep(tokens, before, callee);
        var arguments :- FinishCall();
        var paren := Previous();
        callee := Expr.Call(callee, paren, arguments);
      }
      return Success(callee);
    }

    /** finish_call. */
    method FinishCall() returns (r: Result<seq<Expr>, ParseError>)
      requires Valid()
      modifies this
      ensures Yields(r, current, ParserSpec.FinishCall(tokens, old(current)))
      decreases |tokens| - current, 19
    {
      var first := Peek();
      var arguments: seq<Expr> := [];
      while !Check(RIGHT_PAREN)
        invariant Valid() && |arguments| <= 255
        invariant Arguments(tokens, current, first, arguments) == ParserSpec.FinishCall(tokens, old(current))
        decreases |tokens| - current
      {
        if |arguments| >= 255 {
          return Failure(ParseError(first, "too many arguments"));
        }
        var argument :- Expression();
        arguments := arguments + [argument];
        if Check(COMMA) {
          var _ := Advance();
        }
      }
      var close := Consume(RIGHT_PAREN, "Expected ')' after arguments");
      match close {
        case Failure(e) => return Failure(e);
        case Success(_) =>
      }
      return Success(arguments);
    }

    /** primary. */
    method Primary() returns (r: Result<Expr, ParseError>)
      requires Valid()
      modifies this
      ensures Yields(r, current, ParserSpec.Primary(tokens, old(current)))
      decreases |tokens| - current, 1
    {
      var t := Peek();
      match t.tokenType {
        case FALSE => r := Success(Expr.Literal(Literal.Boolean(false)));
        case TRUE => r := Success(Expr.Literal(Literal.Boolean(true)));
        case NIL => r := Success(Expr.Literal(Literal.Nil));
        case NUMBER | STRING => r := Success(Expr.Literal(t.literal));
        case LEFT_PAREN =>
          var _ := Advance();
          var inner :- Expression();
          var close :- Consume(RIGHT_PAREN, "Expect ')' after expression.");
          return Success(Grouping(inner));
        case IDENTIFIER => r := Success(Variable(t));
        case _ => return Failure(ParseError(t, "primary unable to match"));
      }
      var _ := Advance();
    }

    /** consume. */
    method Consume(t: TokenType, message: string) returns (r: Result<Token, ParseError>)
      requires Valid()
      modifies this
      ensures Yields(r, current, ParserSpec.Consume(tokens, old(current), t, message))
    {
      if Check(t) {
        var token := Advance();
        return Success(token);
      }
      return Failure(ParseError(Peek(), message));
    }

    /** match_types: tries the types in order and consumes the token on the first match. */
    method MatchTypes(types: seq<TokenType>) returns (b: bool)
      requires Valid()
      modifies this
      ensures b == ParserSpec.MatchTypes(tokens, old(current), types)
      ensures current == if b then Advanced(tokens, old(current)) else old(current)
    {
      for i := 0 to |types|
        invariant current == old(current)
        invariant forall j | 0 <= j < i :: !Check(types[j])
      {
        if Check(types[i]) {
          var _ := Advance();
          return true;
        }
      }
      return false;
    }

    /** check. */
    predicate Check(t: TokenType)
      requires Valid()
      reads this
    {
      ParserSpec.Check(tokens, current, t)
    }

    /** advance: moves on one token unless at EOF, and returns the token before the cursor. */
    method Advance() returns (t: Token)
      requires Valid() && (current > 0 || !IsAtEnd())
      modifies this
      ensures current == Advanced(tokens, old(current))
      ensures t == tokens[current - 1]
    {
      if !IsAtEnd() {
        current := current + 1;
      }
      t := Previous();
    }

    /** is_at_end. */
    predicate IsAtEnd()
      requires Valid()
      reads this
    {
      ParserSpec.IsAtEnd(tokens, current)
    }

    /** peek. */
    function Peek(): Token
      requires Valid()
      reads this
    {
      tokens[current]
    }

    /** previous. */
    function Previous(): Token
      requires Valid() && current > 0
      reads this
    {
      tokens[current - 1]
    }
  }
}
