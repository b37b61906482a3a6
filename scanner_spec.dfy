/** The scanner as functions of the source text and a cursor state. `None` stands for the
    program stopping on an out-of-range string slice. */
module ScannerSpec {

  import opened Wrappers
  import opened Tokens

  /** A reported scan error: the line and the message (the error is printed and scanning
      goes on). */
  datatype ScanError = ScanError(line: nat, message: string)

  /** How a string literal is finished: as the code is written, or with the closing quote
      consumed and an unterminated literal abandoned after its error. */
  datatype StringRule = AsWritten | Corrected

  /** The scanner's fields: the start of the current lexeme, the cursor, the line counter,
      the tokens emitted and the errors reported so far. */
  datatype ScanState = ScanState(start: nat, current: nat, line: nat, tokens: seq<Token>, errors: seq<ScanError>)

  /** Scanner::new: cursor at 0, line 1, nothing emitted. */
  const Initial := ScanState(0, 0, 1, [], [])

  /** `chars().nth(i)`. */
  function CharAt(src: string, i: nat): (c: Option<char>)
    ensures c.Some? <==> i < |src|
    ensures c.Some? ==> c.value == src[i]
  {
    if i < |src| then Some(src[i]) else None
  }

  /** isAtEnd: the cursor is beyond, not at, the end of the text. */
  predicate AtEnd(src: string, current: nat) {
    current > |src|
  }

  /** advance's move of the cursor, one character on. */
  function Advanced(st: ScanState): (r: ScanState)
    ensures r.current == st.current + 1
    ensures r == st.(current := r.current)
  {
    st.(current := st.current + 1)
  }

  /** peek: the character under the cursor, or '\0' once there is none. */
  function PeekAt(src: string, current: nat): (c: char)
    ensures current < |src| ==> c == src[current]
    ensures current >= |src| ==> c == '\0'
  {
    if AtEnd(src, current) then '\0' else CharAt(src, current).GetOr('\0')
  }

  /** match2's test: the character under the cursor is the expected one. */
  predicate Matches(src: string, current: nat, expected: char) {
    !AtEnd(src, current) && CharAt(src, current) == Some(expected)
  }

  /** add_token2: emits the lexeme `source[start..current]` on the current line; the slice
      stops the program when it is out of range. */
  function AddToken(src: string, st: ScanState, kind: TokenType, literal: Literal): (r: Option<ScanState>)
    ensures r.Some? <==> st.start <= st.current <= |src|
    ensures r.Some? ==> r.value == st.(tokens := st.tokens + [Token(kind, src[st.start..st.current], literal, st.line)])
  {
    if st.start <= st.current <= |src| then
      Some(st.(tokens := st.tokens + [Token.New(kind, src[st.start..st.current], literal, st.line)]))
    else None
  }

  /** The number of newlines in s. */
  function Newlines(s: string): nat {
    if s == [] then 0 else Newlines(s[..|s| - 1]) + (if s[|s| - 1] == '\n' then 1 else 0)
  }

  /** The comment loop of scanToken: advances until the advance that returns a newline (the
      line counter goes up once) or returns nothing. Result: the new cursor and line. */
  function CommentEnd(src: string, current: nat, line: nat): (r: (nat, nat))
    ensures current < r.0
    ensures current <= |src| ==> r.0 <= |src| + 1
    ensures r.0 <= |src| + 1 ==> current <= r.0 - 1 <= |src|
    ensures r.0 - 1 < |src| ==> src[r.0 - 1] == '\n' && r.1 == line + 1
    ensures r.0 - 1 >= |src| ==> r.1 == line
    ensures forall k | current <= k < r.0 - 1 && k < |src| :: src[k] != '\n'
    decreases |src| - current
  {
    if current >= |src| then (current + 1, line)
    else if src[current] == '\n' then (current + 1, line + 1)
    else CommentEnd(src, current + 1, line)
  }

  /** The loop of string(): advances while the peeked character is not a quote and the cursor
      is not at the end, counting newlines. Result: the new cursor and line. */
  function StringEnd(src: string, current: nat, line: nat): (r: (nat, nat))
    requires current <= |src| + 1
    ensures current <= r.0 <= |src| + 1
    ensures r.0 < |src| ==> src[r.0] == '"'
    ensures r.0 != |src|
    ensures r.1 >= line
    decreases |src| + 1 - current
  {
    if PeekAt(src, current) == '"' || AtEnd(src, current) then (current, line)
    else StringEnd(src, current + 1, if PeekAt(src, current) == '\n' then line + 1 else line)
  }

  /** The string loop passes no quote, and counts exactly the newlines it passes. */
  lemma {:induction false} StringEndPasses(src: string, current: nat, line: nat)
    requires current <= |src| + 1
    ensures var r := StringEnd(src, current, line);
      (forall k | current <= k < r.0 && k < |src| :: src[k] != '"') &&
      r.1 == line + Newlines(src[min(current, |src|)..min(r.0, |src|)])
    decreases |src| + 1 - current
  {
    if PeekAt(src, current) == '"' || AtEnd(src, current) {
    } else {
      var line' := if PeekAt(src, current) == '\n' then line + 1 else line;
      StringEndPasses(src, current + 1, line');
      if current < |src| {
        NewlinesShift(src, current, min(StringEnd(src, current + 1, line').0, |src|));
      }
    }
  }

  function min(a: int, b: int): int {
    if a <= b then a else b
  }

  /** Counting newlines of src[i..j] one character at a time from the front. */
  lemma {:induction false} NewlinesShift(src: string, i: nat, j: nat)
    requires i < j <= |src|
    ensures Newlines(src[i..j]) == (if src[i] == '\n' then 1 else 0) + Newlines(src[i + 1..j])
    decreases j - i
  {
    if j == i + 1 {
      assert src[i..j][..0] == [];
      assert src[i + 1..j] == [];
    } else {
      NewlinesShift(src, i, j - 1);
      assert src[i..j][..|src[i..j]| - 1] == src[i..j - 1];
      assert src[i + 1..j][..|src[i + 1..j]| - 1] == src[i + 1..j - 1];
    }
  }

  /** string(), entered with the cursor just past the opening quote. As written, the closing
      quote stays under the cursor and the contents are sliced as `source[start+1..current-1]`;
      an unterminated literal is reported and then still sliced. Corrected, the closing quote
      is consumed before slicing, and an unterminated literal is abandoned after its error. */
  function StringLit(src: string, rule: StringRule, st: ScanState): (r: Option<ScanState>)
    requires st.start < st.current <= |src| + 1
    ensures r.Some? ==> st.current <= r.value.current <= |src| + 1 && r.value.start == st.start
    ensures r.Some? ==> r.value.line >= st.line
  {
    var (cur, line) := StringEnd(src, st.current, st.line);
    var st1 := st.(current := cur, line := line);
    if AtEnd(src, cur) then
      var st2 := st1.(errors := st1.errors + [ScanError(line, "Unterminated string.")]);
      match rule
      case AsWritten => StringToken(src, st2)
      case Corrected => Some(st2)
    else
      match rule
      case AsWritten => StringToken(src, st1)
      case Corrected => StringToken(src, Advanced(st1))
  }


  /** The STRING token of a literal whose closing quote is just before the cursor: the contents
      are `source[start+1..current-1]`, a slice that stops the program when out of range. */
  function StringToken(src: string, st: ScanState): (r: Option<ScanState>)
    ensures r.Some? <==> st.start + 1 < st.current <= |src|
    ensures r.Some? ==> r.value == st.(tokens := st.tokens + [Token(STRING, src[st.start..st.current], Literal.String(src[st.start + 1..st.current - 1]), st.line)])
  {
    if st.start + 1 <= st.current - 1 <= |src| then AddToken(src, st, STRING, Literal.String(src[st.start + 1..st.current - 1]))
    else None
  }

  /** A two-character operator when the next character is '=', otherwise the one-character one. */
  function EqualOr(src: string, st: ScanState, two: TokenType, one: TokenType): Option<ScanState> {
    if Matches(src, st.current, '=') then AddToken(src, Advanced(st), two, Literal.Nil)
    else AddToken(src, st, one, Literal.Nil)
  }

  /** scanToken: consumes one character (or finds none) and acts on it. */
  function ScanToken(src: string, rule: StringRule, st: ScanState): (r: Option<ScanState>)
    requires st.start <= st.current <= |src|
    ensures r.Some? ==> st.current < r.value.current <= |src| + 1
    ensures r.Some? ==> r.value.start == st.start && r.value.line >= st.line
  {
    var c := CharAt(src, st.current);
    var st := Advanced(st);
    match c
    case None => Some(st)
    case Some(c) =>
      match c
      case '(' => AddToken(src, st, LEFT_PAREN, Literal.Nil)
      case ')' => AddToken(src, st, RIGHT_PAREN, Literal.Nil)
      case '{' => AddToken(src, st, LEFT_BRACE, Literal.Nil)
      case '}' => AddToken(src, st, RIGHT_BRACE, Literal.Nil)
      case ',' => AddToken(src, st, COMMA, Literal.Nil)
      case '.' => AddToken(src, st, DOT, Literal.Nil)
      case '-' => AddToken(src, st, MINUS, Literal.Nil)
      case '+' => AddToken(src, st, PLUS, Literal.Nil)
      case ';' => AddToken(src, st, SEMICOLON, Literal.Nil)
      case '*' => AddToken(src, st, STAR, Literal.Nil)
      case '!' => EqualOr(src, st, BANG_EQUAL, BANG)
      case '=' => EqualOr(src, st, EQUAL_EQUAL, EQUAL)
      case '<' => EqualOr(src, st, LESS_EQUAL, LESS)
      case '>' => EqualOr(src, st, GREATER_EQUAL, GREATER)
      case '/' =>
        if Matches(src, st.current, '/') then
          var (cur, line) := CommentEnd(src, st.current + 1, st.line);
          Some(st.(current := cur, line := line))
        else AddToken(src, st, SLASH, Literal.Nil)
      case ' ' | '\r' | '\t' => Some(st)
      case '\n' => Some(st.(line := st.line + 1))
      case '"' => StringLit(src, rule, st)
      case _ => Some(st.(errors := st.errors + [ScanError(st.line, UnexpectedCharacter(c))]))
  }

  /** The message for a character no rule accepts. */
  function UnexpectedCharacter(c: char): string {
    "Unexpected character '" + [c] + "'."
  }

  /** The loop of scanTokens: while not at the end, start a lexeme at the cursor and scan it. */
  function ScanFrom(src: string, rule: StringRule, st: ScanState): (r: Option<ScanState>)
    requires st.current <= |src| + 1
    ensures r.Some? ==> AtEnd(src, r.value.current) && r.value.line >= st.line
    decreases |src| + 1 - st.current
  {
    if AtEnd(src, st.current) then Some(st)
    else
      match ScanToken(src, rule, st.(start := st.current))
      case None => None
      case Some(st') => ScanFrom(src, rule, st')
  }

  /** The EOF token scanTokens appends. */
  function EofToken(line: nat): Token {
    Token.New(EOF, "", Literal.Nil, line)
  }

  /** scanTokens on a fresh scanner: the final state, with the EOF token appended. */
  function Scan(src: string, rule: StringRule): Option<ScanState> {
    match ScanFrom(src, rule, Initial)
    case None => None
    case Some(st) => Some(st.(tokens := st.tokens + [EofToken(st.line)]))
  }

  /** The token list scanTokens returns, or None when it stops on a slice. */
  function ScanTokens(src: string, rule: StringRule): Option<seq<Token>> {
    match Scan(src, rule)
    case None => None
    case Some(st) => Some(st.tokens)
  }
}
