/**
  The expression grammar as pure functions over the remaining tokens, one
  function per precedence level, lowest binding first:
    equality (level 0), comparison (1), addition (2), multiplication (3),
    unary, primary.
  Each binary level parses an operand at the next tighter level and then
  folds further operators of its own level to the left. The `Parser` class
  is proved to compute exactly these functions.
*/
module Grammar {
  import opened Wrappers
  import opened Tokens
  import opened Ast

  datatype ParseError = ParseError(token: Token, message: string)

  /** A parsed expression and the tokens that follow it. */
  datatype Parsed = Parsed(expr: Expr, rest: seq<Token>)

  /** The tokens the parser works on: never empty, ending with the end marker. */
  predicate WellEnded(ts: seq<Token>) {
    |ts| >= 1 && ts[|ts| - 1].kind == Eof
  }

  /** The operators folded at a binary level. */
  function LevelOps(level: nat): set<TokenType>
    requires level < 4
  {
    if level == 0 then {BangEqual, EqualEqual}
    else if level == 1 then {Greater, GreaterEqual, Less, LessEqual}
    else if level == 2 then {Minus, Plus}
    else {Slash, Star}
  }

  /** The next token has one of `kinds`; never true at the end marker. */
  predicate Check(ts: seq<Token>, kinds: set<TokenType>)
    requires |ts| >= 1
  {
    ts[0].kind != Eof && ts[0].kind in kinds
  }

  /** A successful parse consumes at least one token and leaves the end marker in place. */
  predicate Progress(r: Result<Parsed, ParseError>, ts: seq<Token>) {
    r.Ok? ==> |r.value.rest| < |ts| && WellEnded(r.value.rest)
  }

  /** An error carries one of the parser's two messages. */
  predicate KnownMessage(r: Result<Parsed, ParseError>) {
    r.Err? ==> r.error.message in {"Expect ')' after expression.", "Expected expression."}
  }

  /**
    The precedence shape of a tree parsed at `level` (0-3 binary levels,
    4 unary, 5 primary): a binary node of level k carries a level-k operator,
    a left operand of level k and a right operand of level k + 1; a level
    also admits any tree of a tighter level.
  */
  predicate Shaped(e: Expr, level: nat)
    requires level <= 5
    decreases e, 5 - level
  {
    if level == 5 then
      e.Literal? || (e.Grouping? && Shaped(e.expression, 0))
    else if level == 4 then
      (e.Unary? && e.operator.kind in {Bang, Minus} && Shaped(e.right, 4)) || Shaped(e, 5)
    else
      (e.Binary? && e.operator.kind in LevelOps(level)
       && Shaped(e.left, level) && Shaped(e.right, level + 1))
      || Shaped(e, level + 1)
  }

  function ParseExpression(ts: seq<Token>): (r: Result<Parsed, ParseError>)
    requires WellEnded(ts)
    ensures Progress(r, ts) && KnownMessage(r)
    ensures r.Ok? ==> Shaped(r.value.expr, 0)
    decreases |ts|, 11
  {
    ParseBinary(0, ts)
  }

  /** One binary level: an operand of the next level, then the left fold. */
  function ParseBinary(level: nat, ts: seq<Token>): (r: Result<Parsed, ParseError>)
    requires level < 4 && WellEnded(ts)
    ensures Progress(r, ts) && KnownMessage(r)
    ensures r.Ok? ==> Shaped(r.value.expr, level)
    decreases |ts|, 10 - 2 * level
  {
    var first := ParseOperand(level, ts);
    if first.Err? then Err(first.error) else BinaryTail(level, first.value.expr, first.value.rest)
  }

  /** An operand of a binary level: the next tighter level. */
  function ParseOperand(level: nat, ts: seq<Token>): (r: Result<Parsed, ParseError>)
    requires level < 4 && WellEnded(ts)
    ensures Progress(r, ts) && KnownMessage(r)
    ensures r.Ok? ==> Shaped(r.value.expr, level + 1)
    decreases |ts|, 9 - 2 * level
  {
    if level == 3 then ParseUnary(ts) else ParseBinary(level + 1, ts)
  }

  /** While the next token is an operator of `level`, fold it and the next operand into `acc`. */
  function BinaryTail(level: nat, acc: Expr, ts: seq<Token>): (r: Result<Parsed, ParseError>)
    requires level < 4 && WellEnded(ts)
    ensures r.Ok? ==> |r.value.rest| <= |ts| && WellEnded(r.value.rest)
    ensures KnownMessage(r)
    ensures r.Ok? && Shaped(acc, level) ==> Shaped(r.value.expr, level)
    decreases |ts|, 0
  {
    if !Check(ts, LevelOps(level)) then Ok(Parsed(acc, ts))
    else
      var operator := ts[0];
      var operand := ParseOperand(level, ts[1..]);
      if operand.Err? then Err(operand.error)
      else BinaryTail(level, Binary(acc, operator, operand.value.expr), operand.value.rest)
  }

  /** Prefix '!' and '-' nest to the right; otherwise a primary. */
  function ParseUnary(ts: seq<Token>): (r: Result<Parsed, ParseError>)
    requires WellEnded(ts)
    ensures Progress(r, ts) && KnownMessage(r)
    ensures r.Ok? ==> Shaped(r.value.expr, 4)
    decreases |ts|, 2
  {
    if Check(ts, {Bang, Minus}) then
      var operator := ts[0];
      match ParseUnary(ts[1..])
      case Err(e) => Err(e)
      case Ok(p) => Ok(Parsed(Unary(operator, p.expr), p.rest))
    else ParsePrimary(ts)
  }

  /** Literals, and a parenthesised expression. */
  function ParsePrimary(ts: seq<Token>): (r: Result<Parsed, ParseError>)
    requires WellEnded(ts)
    ensures Progress(r, ts) && KnownMessage(r)
    ensures r.Ok? ==> Shaped(r.value.expr, 5)
    decreases |ts|, 1
  {
    if Check(ts, {False}) then Ok(Parsed(Literal(Value.Bool(false)), ts[1..]))
    else if Check(ts, {True}) then Ok(Parsed(Literal(Value.Bool(true)), ts[1..]))
    else if Check(ts, {TokenType.Nil}) then Ok(Parsed(Literal(Value.Nil), ts[1..]))
    else if Check(ts, {TokenType.Number, TokenType.Str}) then Ok(Parsed(Literal(ts[0].literal), ts[1..]))
    else if Check(ts, {LeftParen}) then
      match ParseExpression(ts[1..])
      case Err(e) => Err(e)
      case Ok(p) =>
        if Check(p.rest, {RightParen}) then Ok(Parsed(Grouping(p.expr), p.rest[1..]))
        else Err(ParseError(p.rest[0], "Expect ')' after expression."))
    else Err(ParseError(ts[0], "Expected expression."))
  }

  /** The literal primaries and the failing one, case by case. */
  lemma PrimaryCases(ts: seq<Token>)
    requires WellEnded(ts)
    ensures Check(ts, {False}) ==> ParsePrimary(ts) == Ok(Parsed(Literal(Value.Bool(false)), ts[1..]))
    ensures Check(ts, {True}) ==> ParsePrimary(ts) == Ok(Parsed(Literal(Value.Bool(true)), ts[1..]))
    ensures Check(ts, {TokenType.Nil}) ==> ParsePrimary(ts) == Ok(Parsed(Literal(Value.Nil), ts[1..]))
    ensures Check(ts, {TokenType.Number, TokenType.Str}) ==>
              ParsePrimary(ts) == Ok(Parsed(Literal(ts[0].literal), ts[1..]))
    ensures !Check(ts, {False, True, TokenType.Nil, TokenType.Number, TokenType.Str, LeftParen}) ==>
              ParsePrimary(ts) == Err(ParseError(ts[0], "Expected expression."))
  {
  }

  /** A primary that opens with '(' is a parenthesized expression. */
  lemma PrimaryGrouping(ts: seq<Token>)
    requires WellEnded(ts) && Check(ts, {LeftParen})
    ensures var inner := ParseExpression(ts[1..]);
            ParsePrimary(ts)
            == match inner
               case Err(e) => Err(e)
               case Ok(p) =>
                 if Check(p.rest, {RightParen}) then Ok(Parsed(Grouping(p.expr), p.rest[1..]))
                 else Err(ParseError(p.rest[0], "Expect ')' after expression."))
  {
  }

  /** A closed parenthesized expression is a grouping, and parsing resumes after the ')'. */
  lemma PrimaryGroupingClosed(ts: seq<Token>, p: Parsed)
    requires WellEnded(ts) && Check(ts, {LeftParen})
    requires ParseExpression(ts[1..]) == Ok(p) && |p.rest| >= 1 && Check(p.rest, {RightParen})
    ensures ParsePrimary(ts) == Ok(Parsed(Grouping(p.expr), p.rest[1..]))
  {
    PrimaryGrouping(ts);
  }

  /** The first expression of the tokens; whatever follows it is ignored. */
  function Parse(ts: seq<Token>): (r: Result<Expr, ParseError>)
    requires WellEnded(ts)
    ensures r.Ok? ==> Shaped(r.value, 0)
  {
    match ParseExpression(ts)
    case Err(e) => Err(e)
    case Ok(p) => Ok(p.expr)
  }
}
