/**
  Precedence and associativity, stated once for all trees: writing a
  well-shaped tree out as tokens and parsing them gives the same tree back.
*/
module GrammarProperties {
  import opened Wrappers
  import opened Tokens
  import opened Ast
  import opened Grammar

  /** The token a literal is written as; `show` spells a number. */
  function LiteralToken(v: Value, show: real -> string): (t: Token)
    ensures t.kind in {TokenType.Number, TokenType.Str, True, False, TokenType.Nil}
  {
    match v
    case Number(n) => Token(TokenType.Number, show(n), v, 1)
    case Str(s) => Token(TokenType.Str, "\"" + s + "\"", v, 1)
    case Bool(b) =>
      if b then Token(True, "true", Value.Str("true"), 1) else Token(False, "false", Value.Str("false"), 1)
    case Nil => Token(TokenType.Nil, "nil", Value.Str("nil"), 1)
  }

  /** A tree written out as tokens, with parentheses exactly around groupings. */
  function Flatten(e: Expr, show: real -> string): (ts: seq<Token>)
    ensures |ts| >= 1
  {
    match e
    case Binary(left, operator, right) => Flatten(left, show) + [operator] + Flatten(right, show)
    case Grouping(inner) =>
      [Token(LeftParen, "(", Value.Nil, 1)] + Flatten(inner, show) + [Token(RightParen, ")", Value.Nil, 1)]
    case Literal(v) => [LiteralToken(v, show)]
    case Unary(operator, right) => [operator] + Flatten(right, show)
  }

  /** The next token is no operator of a level tighter than `level`. */
  predicate StopsAbove(level: nat, ts: seq<Token>)
    requires |ts| >= 1
  {
    forall k :: level < k < 4 ==> !Check(ts, LevelOps(k))
  }

  lemma LiteralRoundTrip(v: Value, rest: seq<Token>, show: real -> string)
    requires WellEnded(rest)
    ensures WellEnded([LiteralToken(v, show)] + rest)
    ensures ParsePrimary([LiteralToken(v, show)] + rest) == Ok(Parsed(Literal(v), rest))
  {
    var ts := [LiteralToken(v, show)] + rest;
    assert ts[1..] == rest;
  }

  lemma {:induction false} GroupingRoundTrip(inner: Expr, rest: seq<Token>, show: real -> string)
    requires Shaped(inner, 0) && WellEnded(rest)
    ensures WellEnded(Flatten(Grouping(inner), show) + rest)
    ensures ParsePrimary(Flatten(Grouping(inner), show) + rest) == Ok(Parsed(Grouping(inner), rest))
    decreases Grouping(inner), 0
  {
    var close := [Token(RightParen, ")", Value.Nil, 1)] + rest;
    GroupingTokens(inner, rest, show);
    ExpressionBeforeClose(inner, rest, show);
    PrimaryGroupingClosed(Flatten(Grouping(inner), show) + rest, Parsed(inner, close));
  }

  /** The inner expression of a grouping is read whole, up to the ')'. */
  lemma {:induction false} ExpressionBeforeClose(inner: Expr, rest: seq<Token>, show: real -> string)
    requires Shaped(inner, 0) && WellEnded(rest)
    ensures var close := [Token(RightParen, ")", Value.Nil, 1)] + rest;
            WellEnded(Flatten(inner, show) + close)
            && ParseExpression(Flatten(inner, show) + close) == Ok(Parsed(inner, close))
    decreases inner, 11
  {
    var close := [Token(RightParen, ")", Value.Nil, 1)] + rest;
    BinaryRoundTrip(0, inner, close, show);
    assert BinaryTail(0, inner, close) == Ok(Parsed(inner, close));
  }

  /** The tokens of a grouping: '(' first, then the inner tokens, then ')' and what follows. */
  lemma GroupingTokens(inner: Expr, rest: seq<Token>, show: real -> string)
    requires WellEnded(rest)
    ensures var ts := Flatten(Grouping(inner), show) + rest;
            var close := [Token(RightParen, ")", Value.Nil, 1)] + rest;
            && WellEnded(close) && close[1..] == rest && Check(close, {RightParen})
            && WellEnded(ts) && Check(ts, {LeftParen}) && ts[1..] == Flatten(inner, show) + close
  {
    var close := [Token(RightParen, ")", Value.Nil, 1)] + rest;
    var ts := [Token(LeftParen, "(", Value.Nil, 1)] + (Flatten(inner, show) + close);
    assert Flatten(Grouping(inner), show) + rest == ts;
    assert ts[1..] == Flatten(inner, show) + close;
  }

  lemma {:induction false} PrimaryRoundTrip(e: Expr, rest: seq<Token>, show: real -> string)
    requires Shaped(e, 5) && WellEnded(rest)
    ensures WellEnded(Flatten(e, show) + rest)
    ensures ParsePrimary(Flatten(e, show) + rest) == Ok(Parsed(e, rest))
    decreases e, 1
  {
    if e.Literal? {
      LiteralRoundTrip(e.value, rest, show);
    } else {
      GroupingRoundTrip(e.expression, rest, show);
    }
  }

  lemma {:induction false} UnaryRoundTrip(e: Expr, rest: seq<Token>, show: real -> string)
    requires Shaped(e, 4) && WellEnded(rest)
    ensures WellEnded(Flatten(e, show) + rest)
    ensures ParseUnary(Flatten(e, show) + rest) == Ok(Parsed(e, rest))
    decreases e, 2
  {
    if e.Unary? && e.operator.kind in {Bang, Minus} && Shaped(e.right, 4) {
      var fr := Flatten(e.right, show);
      var ts := [e.operator] + (fr + rest);
      assert Flatten(e, show) + rest == ts;
      assert ts[1..] == fr + rest;
      UnaryRoundTrip(e.right, rest, show);
    } else {
      PrimaryRoundTrip(e, rest, show);
      assert !Check(Flatten(e, show) + rest, {Bang, Minus});
    }
  }

  /** An operand of `level` followed by a token that no tighter level folds is read whole. */
  lemma {:induction false} OperandRoundTrip(level: nat, e: Expr, rest: seq<Token>, show: real -> string)
    requires level < 4 && Shaped(e, level + 1) && WellEnded(rest) && StopsAbove(level, rest)
    ensures WellEnded(Flatten(e, show) + rest)
    ensures ParseOperand(level, Flatten(e, show) + rest) == Ok(Parsed(e, rest))
    decreases e, 9 - 2 * level
  {
    if level == 3 {
      UnaryRoundTrip(e, rest, show);
    } else {
      BinaryRoundTrip(level + 1, e, rest, show);
      assert !Check(rest, LevelOps(level + 1));
    }
  }

  /** One step of the left fold: an operator of `level` and a whole operand. */
  lemma TailFold(level: nat, acc: Expr, op: Token, ts: seq<Token>, r: Expr, rest: seq<Token>)
    requires level < 4 && Shaped(acc, level) && op.kind in LevelOps(level) && WellEnded(ts)
    requires ParseOperand(level, ts) == Ok(Parsed(r, rest))
    ensures WellEnded([op] + ts) && WellEnded(rest) && Shaped(Binary(acc, op, r), level)
    ensures BinaryTail(level, acc, [op] + ts) == BinaryTail(level, Binary(acc, op, r), rest)
  {
    var ts' := [op] + ts;
    assert ts'[1..] == ts;
    assert ts'[0] == op && Check(ts', LevelOps(level));
  }

  /**
    Parsing a binary level over a tree of that level followed by `rest`
    reads the whole tree and then continues the left fold on `rest`.
  */
  lemma {:induction false} BinaryRoundTrip(level: nat, e: Expr, rest: seq<Token>, show: real -> string)
    requires level < 4 && Shaped(e, level) && WellEnded(rest) && StopsAbove(level, rest)
    ensures WellEnded(Flatten(e, show) + rest)
    ensures ParseBinary(level, Flatten(e, show) + rest) == BinaryTail(level, e, rest)
    decreases e, 10 - 2 * level
  {
    if e.Binary? && e.operator.kind in LevelOps(level) && Shaped(e.left, level) && Shaped(e.right, level + 1) {
      var l, op, r := e.left, e.operator, e.right;
      var fl, fr := Flatten(l, show), Flatten(r, show);
      var rest1 := [op] + fr + rest;
      assert Flatten(e, show) + rest == fl + rest1;
      assert StopsAbove(level, rest1);
      OperandRoundTrip(level, r, rest, show);
      TailFold(level, l, op, fr + rest, r, rest);
      assert rest1 == [op] + (fr + rest);
      BinaryRoundTrip(level, l, rest1, show);
    } else {
      OperandRoundTrip(level, e, rest, show);
    }
  }

  /**
    Every tree of precedence shape, written out as tokens and ended by the
    end marker, parses back to itself: operators of one level associate to
    the left, tighter levels nest below looser ones, and unary operators
    nest to the right.
  */
  lemma ParseRoundTrip(e: Expr, show: real -> string, line: nat)
    requires Shaped(e, 0)
    ensures WellEnded(Flatten(e, show) + [Token(Eof, "", Value.Nil, line)])
    ensures Parse(Flatten(e, show) + [Token(Eof, "", Value.Nil, line)]) == Ok(e)
  {
    BinaryRoundTrip(0, e, [Token(Eof, "", Value.Nil, line)], show);
  }

  /**
    Parsing stops after the first expression: whatever follows a tree of
    precedence shape, unless it continues a binary operator chain, is left
    unread and does not change the result.
  */
  lemma ParseIgnoresRest(e: Expr, rest: seq<Token>, show: real -> string)
    requires Shaped(e, 0) && WellEnded(rest)
    requires forall k :: 0 <= k < 4 ==> !Check(rest, LevelOps(k))
    ensures WellEnded(Flatten(e, show) + rest)
    ensures Parse(Flatten(e, show) + rest) == Ok(e)
  {
    BinaryRoundTrip(0, e, rest, show);
  }
}
