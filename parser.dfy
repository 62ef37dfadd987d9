/**
 * The cursor-based recursive-descent parser for the one-function language
 * `int <id> ( void ) { return <int> ; }`, with its own small syntax tree.
 */
module Parser {
  import opened Wrappers
  import opened Common
  import opened Lexer

  datatype Expression = Constant(value: int)
  datatype Statement = Return(expression: Expression)
  datatype Function = Function(name: string, body: Statement)
  datatype Program = Program(func: Function)

  /** The `{:?}` rendering of a token type (identifiers hold only word characters, so need no escaping). */
  function DebugTokenType(t: TokenType): string {
    match t
    case OpenParen => "OpenParen"
    case CloseParen => "CloseParen"
    case OpenBrace => "OpenBrace"
    case CloseBrace => "CloseBrace"
    case Semicolon => "Semicolon"
    case Minus => "Minus"
    case Tilde => "Tilde"
    case Decrement => "Decrement"
    case Plus => "Plus"
    case Asterisk => "Asterisk"
    case Slash => "Slash"
    case Percent => "Percent"
    case QuestionMark => "QuestionMark"
    case Colon => "Colon"
    case Not => "Not"
    case And => "And"
    case Or => "Or"
    case Equal => "Equal"
    case NotEqual => "NotEqual"
    case Less => "Less"
    case LessEqual => "LessEqual"
    case Greater => "Greater"
    case GreaterEqual => "GreaterEqual"
    case Assign => "Assign"
    case Comma => "Comma"
    case KeywordInt => "KeywordInt"
    case KeywordVoid => "KeywordVoid"
    case KeywordReturn => "KeywordReturn"
    case KeywordIf => "KeywordIf"
    case KeywordElse => "KeywordElse"
    case KeywordDo => "KeywordDo"
    case KeywordWhile => "KeywordWhile"
    case KeywordFor => "KeywordFor"
    case KeywordBreak => "KeywordBreak"
    case KeywordContinue => "KeywordContinue"
    case Identifier(name) => "Identifier(\"" + name + "\")"
    case IntegerConstant(value) => "IntegerConstant(" + IntToString(value) + ")"
  }

  /**
   * An "Expected ..." message naming the `{:?}` of the peeked token type and
   * its line, or `None` and line 0 at the end.
   */
  function ExpectedMsg(what: string, ts: seq<Token>, p: nat): string {
    if p < |ts| then
      "Expected " + what + ", but found Some(" + DebugTokenType(ts[p].tokenType) + ") on line " + NatToString(ts[p].line)
    else
      "Expected " + what + ", but found None on line 0"
  }

  /** The message of a failed `expect_token`. */
  function ExpectedTokenMsg(ts: seq<Token>, p: nat, expected: TokenType): string {
    if p < |ts| then
      "Expected token " + DebugTokenType(expected) + ", but found " +
      DebugTokenType(ts[p].tokenType) + " on line " + NatToString(ts[p].line)
    else
      "Expected token " + DebugTokenType(expected) + ", but found end of input."
  }

  // Reference definitions: each takes the token slice and a position and
  // gives the result together with the position the parser is left at.

  /** `expect_token`: advances exactly when the current token has the expected type. */
  function ExpectTokenAt(ts: seq<Token>, p: nat, expected: TokenType): (r: (Result<Token>, nat))
    requires p <= |ts|
    ensures r.0.Ok? <==> p < |ts| && ts[p].tokenType == expected
    ensures r.0.Ok? ==> r.0.value == ts[p] && r.1 == p + 1
    ensures r.0.Err? ==> r.1 == p
  {
    if p < |ts| && ts[p].tokenType == expected then
      (Ok(ts[p]), p + 1)
    else
      (Err(ExpectedTokenMsg(ts, p, expected)), p)
  }

  /** `expect_identifier`: the identifier's text and one step forward, or an error and no move. */
  function ExpectIdentifierAt(ts: seq<Token>, p: nat): (r: (Result<string>, nat))
    requires p <= |ts|
    ensures r.0.Ok? <==> p < |ts| && ts[p].tokenType.Identifier?
    ensures r.0.Ok? ==> r.0.value == ts[p].tokenType.name && r.1 == p + 1
    ensures r.0.Err? ==> r.1 == p
  {
    if p < |ts| && ts[p].tokenType.Identifier? then
      (Ok(ts[p].tokenType.name), p + 1)
    else
      (Err(ExpectedMsg("an identifier", ts, p)), p)
  }

  /** `expect_integer_constant`: the constant's value and one step forward, or an error and no move. */
  function ExpectIntegerConstantAt(ts: seq<Token>, p: nat): (r: (Result<int>, nat))
    requires p <= |ts|
    ensures r.0.Ok? <==> p < |ts| && ts[p].tokenType.IntegerConstant?
    ensures r.0.Ok? ==> r.0.value == ts[p].tokenType.value && r.1 == p + 1
    ensures r.0.Err? ==> r.1 == p
  {
    if p < |ts| && ts[p].tokenType.IntegerConstant? then
      (Ok(ts[p].tokenType.value), p + 1)
    else
      (Err(ExpectedMsg("an integer constant", ts, p)), p)
  }

  function ParseExpressionAt(ts: seq<Token>, p: nat): (r: (Result<Expression>, nat))
    requires p <= |ts|
    ensures r.1 <= |ts|
  {
    var (v, q) := ExpectIntegerConstantAt(ts, p);
    if v.Err? then (Err(v.msg), q) else (Ok(Constant(v.value)), q)
  }

  function ParseStatementAt(ts: seq<Token>, p: nat): (r: (Result<Statement>, nat))
    requires p <= |ts|
    ensures r.1 <= |ts|
  {
    var (k, p1) := ExpectTokenAt(ts, p, KeywordReturn);
    if k.Err? then (Err(k.msg), p1) else
    var (e, p2) := ParseExpressionAt(ts, p1);
    if e.Err? then (Err(e.msg), p2) else
    var (s, p3) := ExpectTokenAt(ts, p2, Semicolon);
    if s.Err? then (Err(s.msg), p3) else
    (Ok(Return(e.value)), p3)
  }

  function ParseFunctionAt(ts: seq<Token>, p: nat): (r: (Result<Function>, nat))
    requires p <= |ts|
    ensures r.1 <= |ts|
  {
    var (t1, p1) := ExpectTokenAt(ts, p, KeywordInt);
    if t1.Err? then (Err(t1.msg), p1) else
    var (name, p2) := ExpectIdentifierAt(ts, p1);
    if name.Err? then (Err(name.msg), p2) else
    var (t3, p3) := ExpectTokenAt(ts, p2, OpenParen);
    if t3.Err? then (Err(t3.msg), p3) else
    var (t4, p4) := ExpectTokenAt(ts, p3, KeywordVoid);
    if t4.Err? then (Err(t4.msg), p4) else
    var (t5, p5) := ExpectTokenAt(ts, p4, CloseParen);
    if t5.Err? then (Err(t5.msg), p5) else
    var (t6, p6) := ExpectTokenAt(ts, p5, OpenBrace);
    if t6.Err? then (Err(t6.msg), p6) else
    var (body, p7) := ParseStatementAt(ts, p6);
    if body.Err? then (Err(body.msg), p7) else
    var (t8, p8) := ExpectTokenAt(ts, p7, CloseBrace);
    if t8.Err? then (Err(t8.msg), p8) else
    (Ok(Function(name.value, body.value)), p8)
  }

  function ParseAt(ts: seq<Token>, p: nat): (r: (Result<Program>, nat))
    requires p <= |ts|
  {
    var (f, q) := ParseFunctionAt(ts, p);
    if f.Err? then (Err(f.msg), q)
    else if q < |ts| then
      (Err("Unexpected token " + DebugTokenType(ts[q].tokenType) + " on line " + NatToString(ts[q].line)), q)
    else
      (Ok(Program(f.value)), q)
  }

  /** The ten token types of `int Id ( void ) { return Int ; }`, in order. */
  predicate IsReturnProgram(ts: seq<Token>) {
    |ts| == 10 &&
    ts[0].tokenType == KeywordInt &&
    ts[1].tokenType.Identifier? &&
    ts[2].tokenType == OpenParen &&
    ts[3].tokenType == KeywordVoid &&
    ts[4].tokenType == CloseParen &&
    ts[5].tokenType == OpenBrace &&
    ts[6].tokenType == KeywordReturn &&
    ts[7].tokenType.IntegerConstant? &&
    ts[8].tokenType == Semicolon &&
    ts[9].tokenType == CloseBrace
  }

  /** `parse_function` succeeds exactly on a prefix of that shape and then stands right after it. */
  lemma ParseFunctionShape(ts: seq<Token>)
    ensures ParseFunctionAt(ts, 0).0.Ok? <==> |ts| >= 10 && IsReturnProgram(ts[..10])
    ensures ParseFunctionAt(ts, 0).0.Ok? ==>
      ParseFunctionAt(ts, 0) ==
        (Ok(Function(ts[1].tokenType.name, Return(Constant(ts[7].tokenType.value)))), 10)
  {
  }

  /**
   * `parse` accepts exactly the ten-token program, returns its name and
   * constant and leaves the cursor at the end of the slice.
   */
  lemma ParseAcceptsExactly(ts: seq<Token>)
    ensures ParseAt(ts, 0).0.Ok? <==> IsReturnProgram(ts)
    ensures ParseAt(ts, 0).0.Ok? ==>
      ParseAt(ts, 0).0.value == Program(Function(ts[1].tokenType.name, Return(Constant(ts[7].tokenType.value)))) &&
      ParseAt(ts, 0).1 == |ts|
  {
    ParseFunctionShape(ts);
    if IsReturnProgram(ts) {
      assert ts[..10] == ts;
    }
  }

  /** Tokens left after a well-formed function are reported, naming the first one. */
  lemma TrailingTokensRejected(ts: seq<Token>)
    requires |ts| > 10 && IsReturnProgram(ts[..10])
    ensures ParseAt(ts, 0) ==
      (Err("Unexpected token " + DebugTokenType(ts[10].tokenType) + " on line " + NatToString(ts[10].line)), 10)
  {
    ParseFunctionShape(ts);
  }

  class Parser {
    const tokens: seq<Token>
    var position: nat

    ghost predicate Valid()
      reads this
    {
      position <= |tokens|
    }

    constructor(tokens: seq<Token>)
      ensures Valid() && this.tokens == tokens && position == 0
    {
      this.tokens := tokens;
      position := 0;
    }

    /** The current token, if the cursor is not past the end. */
    function Peek(): (t: Option<Token>)
      reads this
      ensures t.Some? <==> position < |tokens|
      ensures t.Some? ==> t.value == tokens[position]
    {
      if position < |tokens| then Some(tokens[position]) else None
    }

    /** Returns the current token and advances past it; at the end, returns nothing and stays. */
    method Consume() returns (t: Option<Token>)
      requires Valid()
      modifies this`position
      ensures Valid()
      ensures t == old(Peek())
      ensures position == if old(position) < |tokens| then old(position) + 1 else old(position)
    {
      t := Peek();
      if t.Some? {
        position := position + 1;
      }
    }

    method ExpectToken(expected: TokenType) returns (r: Result<Token>)
      requires Valid()
      modifies this`position
      ensures Valid() && (r, position) == ExpectTokenAt(tokens, old(position), expected)
    {
      var found := Peek();
      if found.Some? && found.value.tokenType == expected {
        var t := Consume();
        r := Ok(t.value);
      } else {
        r := Err(ExpectedTokenMsg(tokens, position, expected));
      }
    }

    method ExpectIdentifier() returns (r: Result<string>)
      requires Valid()
      modifies this`position
      ensures Valid() && (r, position) == ExpectIdentifierAt(tokens, old(position))
    {
      var found := Peek();
      if found.Some? && found.value.tokenType.Identifier? {
        var name := found.value.tokenType.name;
        var _ := Consume();
        return Ok(name);
      }
      r := Err(ExpectedMsg("an identifier", tokens, position));
    }

    method ExpectIntegerConstant() returns (r: Result<int>)
      requires Valid()
      modifies this`position
      ensures Valid() && (r, position) == ExpectIntegerConstantAt(tokens, old(position))
    {
      var found := Peek();
      if found.Some? && found.value.tokenType.IntegerConstant? {
        var value := found.value.tokenType.value;
        var _ := Consume();
        return Ok(value);
      }
      r := Err(ExpectedMsg("an integer constant", tokens, position));
    }

    method ParseExpression() returns (r: Result<Expression>)
      requires Valid()
      modifies this`position
      ensures Valid() && (r, position) == ParseExpressionAt(tokens, old(position))
    {
      var value :- ExpectIntegerConstant();
      r := Ok(Constant(value));
    }

    method ParseStatement() returns (r: Result<Statement>)
      requires Valid()
      modifies this`position
      ensures Valid() && (r, position) == ParseStatementAt(tokens, old(position))
    {
      var _ :- ExpectToken(KeywordReturn);
      var expression :- ParseExpression();
      var _ :- ExpectToken(Semicolon);
      r := Ok(Return(expression));
    }

    method ParseFunction() returns (r: Result<Function>)
      requires Valid()
      modifies this`position
      ensures Valid() && (r, position) == ParseFunctionAt(tokens, old(position))
    {
      var _ :- ExpectToken(KeywordInt);
      var name :- ExpectIdentifier();
      var _ :- ExpectToken(OpenParen);
      var _ :- ExpectToken(KeywordVoid);
      var _ :- ExpectToken(CloseParen);
      var _ :- ExpectToken(OpenBrace);
      var body :- ParseStatement();
      var _ :- ExpectToken(CloseBrace);
      r := Ok(Function(name, body));
    }

    method Parse() returns (r: Result<Program>)
      requires Valid()
      modifies this`position
      ensures Valid() && (r, position) == ParseAt(tokens, old(position))
    {
      var f :- ParseFunction();
      if position < |tokens| {
        var token := tokens[position];
        return Err("Unexpected token " + DebugTokenType(token.tokenType) + " on line " + NatToString(token.line));
      }
      r := Ok(Program(f));
    }
  }
}
