/** The token model: token kinds, the reserved-keyword table, literals and runtime values. */
module Tokens {

  import opened Wrappers

  /** The token kinds, named exactly as the interpreter names them. */
  datatype TokenType =
    // Single-character tokens.
    | LEFT_PAREN | RIGHT_PAREN | LEFT_BRACE | RIGHT_BRACE
    | COMMA | DOT | MINUS | PLUS | SEMICOLON | SLASH | STAR
    // One or two character tokens.
    | BANG | BANG_EQUAL
    | EQUAL | EQUAL_EQUAL
    | GREATER | GREATER_EQUAL
    | LESS | LESS_EQUAL
    // Literals.
    | IDENTIFIER | STRING | NUMBER
    // Keywords.
    | AND | CLASS | ELSE | FALSE | FUN | FOR | IF | NIL | OR
    | PRINT | RETURN | SUPER | THIS | TRUE | VAR | WHILE
    | EOF

  /** The reserved-keyword table: the word-to-kind lookup of the interpreter's
      constant hash map, with None for a word that is not in the table. */
  function ReservedKeyword(w: string): Option<TokenType> {
    match w
    case "and" => Some(AND)
    case "class" => Some(CLASS)
    case "else" => Some(ELSE)
    case "false" => Some(FALSE)
    case "for" => Some(FOR)
    case "fun" => Some(FUN)
    case "if" => Some(IF)
    case "nil" => Some(NIL)
    case "or" => Some(OR)
    case "print" => Some(PRINT)
    case "return" => Some(RETURN)
    case "super" => Some(SUPER)
    case "this" => Some(THIS)
    case "true" => Some(TRUE)
    case "var" => Some(VAR)
    case "while" => Some(WHILE)
    case _ => None
  }

  /** The reserved words: exactly the sixteen words of the table. */
  const KeywordWords: set<string> :=
    {"and", "class", "else", "false", "for", "fun", "if", "nil", "or",
     "print", "return", "super", "this", "true", "var", "while"}

  /** A word is in the table exactly when it is one of the sixteen reserved words. */
  lemma KeywordTableDomain(w: string)
    ensures ReservedKeyword(w).Some? <==> w in KeywordWords
  {
  }

  /** Each reserved word maps to the token kind of the same name. */
  lemma KeywordKindsNamedAfterWords()
    ensures ReservedKeyword("and") == Some(AND)
    ensures ReservedKeyword("class") == Some(CLASS)
    ensures ReservedKeyword("else") == Some(ELSE)
    ensures ReservedKeyword("false") == Some(FALSE)
    ensures ReservedKeyword("for") == Some(FOR)
    ensures ReservedKeyword("fun") == Some(FUN)
    ensures ReservedKeyword("if") == Some(IF)
    ensures ReservedKeyword("nil") == Some(NIL)
    ensures ReservedKeyword("or") == Some(OR)
    ensures ReservedKeyword("print") == Some(PRINT)
    ensures ReservedKeyword("return") == Some(RETURN)
    ensures ReservedKeyword("super") == Some(SUPER)
    ensures ReservedKeyword("this") == Some(THIS)
    ensures ReservedKeyword("true") == Some(TRUE)
    ensures ReservedKeyword("var") == Some(VAR)
    ensures ReservedKeyword("while") == Some(WHILE)
  {
  }

  /** Distinct reserved words give distinct kinds, and no word maps to IDENTIFIER or EOF. */
  lemma KeywordTableInjective(w1: string, w2: string)
    requires ReservedKeyword(w1).Some? && ReservedKeyword(w2).Some?
    ensures ReservedKeyword(w1) == ReservedKeyword(w2) <==> w1 == w2
    ensures ReservedKeyword(w1).value != IDENTIFIER && ReservedKeyword(w1).value != EOF
  {
  }

  /** A floating-point number, kept as the bit pattern of an IEEE-754 double.
      The model never interprets the bits itself: arithmetic, comparison,
      equality and formatting are supplied from outside (see Interpreter.Arith). */
  type Number = bv64

  /** A literal carried by a token (and by a literal expression). */
  datatype Literal =
    | String(s: string)
    | Number(n: Number)
    | Boolean(b: bool)
    | Nil

  /** A value produced by evaluation. */
  datatype Value =
    | String(s: string)
    | Number(n: Number)
    | Boolean(b: bool)
    | Nil

  /** The value a literal stands for. */
  function Val(l: Literal): (v: Value)
    ensures l.String? <==> v.String?
    ensures l.Number? <==> v.Number?
    ensures l.Boolean? <==> v.Boolean?
    ensures l.Nil? <==> v.Nil?
    ensures l.String? ==> v.s == l.s
    ensures l.Number? ==> v.n == l.n
    ensures l.Boolean? ==> v.b == l.b
  {
    match l
    case String(s) => Value.String(s)
    case Number(n) => Value.Number(n)
    case Boolean(b) => Value.Boolean(b)
    case Nil => Value.Nil
  }

  /** The literal that denotes a value: the inverse of Val. */
  function LiteralOf(v: Value): Literal {
    match v
    case String(s) => Literal.String(s)
    case Number(n) => Literal.Number(n)
    case Boolean(b) => Literal.Boolean(b)
    case Nil => Literal.Nil
  }

  /** Val keeps the variant and the payload: it is a bijection with inverse LiteralOf. */
  lemma ValRoundTrip(l: Literal, v: Value)
    ensures LiteralOf(Val(l)) == l
    ensures Val(LiteralOf(v)) == v
  {
  }

  /** A scanned token. */
  datatype Token = Token(tokenType: TokenType, lexeme: string, literal: Literal, line: nat) {

    /** The constructor of the source: it stores its arguments unchanged. */
    static function New(tokenType: TokenType, lexeme: string, literal: Literal, line: nat): (t: Token)
      ensures t.tokenType == tokenType && t.lexeme == lexeme
      ensures t.literal == literal && t.line == line
    {
      Token(tokenType, lexeme, literal, line)
    }
  }
}
