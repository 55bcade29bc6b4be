/**
  The parser: a cursor over the token sequence, one method per precedence
  level. Each method is proved to return what the matching function of
  module Grammar returns on the tokens from the cursor on, and to leave the
  cursor just after what that function consumed.
*/
module Parsers {
  import opened Wrappers
  import opened Tokens
  import opened Ast
  import opened Grammar

  /** A method's result agrees with a grammar function's, `rest` being the tokens left. */
  predicate Agrees(r: Result<Expr, ParseError>, rest: seq<Token>, spec: Result<Parsed, ParseError>) {
    match r
    case Ok(e) => spec == Ok(Parsed(e, rest))
    case Err(x) => spec == Err(x)
  }

  class Parser {
    const tokens: seq<Token>
    var current: nat

    /** The cursor never passes the end marker that closes the tokens. */
    ghost predicate Valid()
      reads this
    {
      WellEnded(tokens) && current < |tokens|
    }

    constructor (tokens: seq<Token>)
      requires WellEnded(tokens)
      ensures this.tokens == tokens && current == 0 && Valid()
    {
      this.tokens := tokens;
      current := 0;
    }

    /** The tokens from the cursor on. */
    ghost function Remaining(): (ts: seq<Token>)
      reads this
      requires Valid()
      ensures WellEnded(ts)
    {
      tokens[current..]
    }

    /** Parses one expression; the tokens after it are left unread. */
    method Parse() returns (r: Result<Expr, ParseError>)
      requires Valid()
      modifies this
      ensures Valid()
      ensures r == Grammar.Parse(old(Remaining()))
    {
      r := Expression();
    }

    method Expression() returns (r: Result<Expr, ParseError>)
      requires Valid()
      modifies this
      ensures Valid() && old(current) <= current
      ensures Agrees(r, Remaining(), ParseExpression(old(Remaining())))
      decreases |tokens| - current, 11
    {
      r := Equality();
    }

    method Equality() returns (r: Result<Expr, ParseError>)
      requires Valid()
      modifies this
      ensures Valid() && old(current) <= current
      ensures Agrees(r, Remaining(), ParseBinary(0, old(Remaining())))
      decreases |tokens| - current, 10
    {
      ghost var start := Remaining();
      var first := Comparison();
      if first.Err? {
        return Err(first.error);
      }
      var expr := first.value;

      while true
        invariant Valid() && old(current) <= current
        invariant ParseBinary(0, start) == BinaryTail(0, expr, Remaining())
        decreases |tokens| - current
      {
        var matched := Match([BangEqual, EqualEqual]);
        if !matched {
          break;
        }
        var operator := Previous();
        var right := Comparison();
        if right.Err? {
          return Err(right.error);
        }
        expr := Binary(expr, operator, right.value);
      }

      return Ok(expr);
    }

    method Comparison() returns (r: Result<Expr, ParseError>)
      requires Valid()
      modifies this
      ensures Valid() && old(current) <= current
      ensures Agrees(r, Remaining(), ParseBinary(1, old(Remaining())))
      decreases |tokens| - current, 8
    {
      ghost var start := Remaining();
      var first := Addition();
      if first.Err? {
        return Err(first.error);
      }
      var expr := first.value;

      while true
        invariant Valid() && old(current) <= current
        invariant ParseBinary(1, start) == BinaryTail(1, expr, Remaining())
        decreases |tokens| - current
      {
        var matched := Match([Greater, GreaterEqual, Less, LessEqual]);
        if !matched {
          break;
        }
        var operator := Previous();
        var right := Addition();
        if right.Err? {
          return Err(right.error);
        }
        expr := Binary(expr, operator, right.value);
      }

      return Ok(expr);
    }

    method Addition() returns (r: Result<Expr, ParseError>)
      requires Valid()
      modifies this
      ensures Valid() && old(current) <= current
      ensures Agrees(r, Remaining(), ParseBinary(2, old(Remaining())))
      decreases |tokens| - current, 6
    {
      ghost var start := Remaining();
      var first := Multiplication();
      if first.Err? {
        return Err(first.error);
      }
      var expr := first.value;

      while true
        invariant Valid() && old(current) <= current
        invariant ParseBinary(2, start) == BinaryTail(2, expr, Remaining())
        decreases |tokens| - current
      {
        var matched := Match([Minus, Plus]);
        if !matched {
          break;
        }
        var operator := Previous();
        var right := Multiplication();
        if right.Err? {
          return Err(right.error);
        }
        expr := Binary(expr, operator, right.value);
      }

      return Ok(expr);
    }

    method Multiplication() returns (r: Result<Expr, ParseError>)
      requires Valid()
      modifies this
      ensures Valid() && old(current) <= current
      ensures Agrees(r, Remaining(), ParseBinary(3, old(Remaining())))
      decreases |tokens| - current, 4
    {
      ghost var start := Remaining();
      var first := Unary();
      if first.Err? {
        return Err(first.error);
      }
      var expr := first.value;

      while true
        invariant Valid() && old(current) <= current
        invariant ParseBinary(3, start) == BinaryTail(3, expr, Remaining())
        decreases |tokens| - current
      {
        var matched := Match([Slash, Star]);
        if !matched {
          break;
        }
        var operator := Previous();
        var right := Unary();
        if right.Err? {
          return Err(right.error);
        }
        expr := Binary(expr, operator, right.value);
      }

      return Ok(expr);
    }

    method Unary() returns (r: Result<Expr, ParseError>)
      requires Valid()
      modifies this
      ensures Valid() && old(current) <= current
      ensures Agrees(r, Remaining(), ParseUnary(old(Remaining())))
      decreases |tokens| - current, 2
    {
      var matched := Match([Bang, Minus]);
      if matched {
        var operator := Previous();
        var right := Unary();
        if right.Err? {
          return Err(right.error);
        }
        return Ok(Expr.Unary(operator, right.value));
      }

      r := Primary();
    }

    method Primary() returns (r: Result<Expr, ParseError>)
      requires Valid()
      modifies this
      ensures Valid() && old(current) <= current
      ensures Agrees(r, Remaining(), ParsePrimary(old(Remaining())))
      decreases |tokens| - current, 1
    {
      ghost var ts := Remaining();
      Grammar.PrimaryCases(ts);
      var matched := Match([False]);
      if matched {
        return Ok(Literal(Value.Bool(false)));
      }
      matched := Match([True]);
      if matched {
        return Ok(Literal(Value.Bool(true)));
      }
      matched := Match([TokenType.Nil]);
      if matched {
        return Ok(Literal(Value.Nil));
      }

      matched := Match([TokenType.Number, TokenType.Str]);
      if matched {
        var token := Previous();
        return Ok(Literal(token.literal));
      }

      matched := Match([LeftParen]);
      if matched {
        Grammar.PrimaryGrouping(ts);
        ghost var inside := ParseExpression(ts[1..]);
        var expr := Expression();
        if expr.Err? {
          assert inside == Err(expr.error);
          return Err(expr.error);
        }
        ghost var inner := Remaining();
        assert inside == Ok(Parsed(expr.value, inner));
        var closing := Consume(RightParen, "Expect ')' after expression.");
        if closing.Err? {
          assert ParsePrimary(ts) == Err(ParseError(inner[0], "Expect ')' after expression."));
          return Err(closing.error);
        }
        assert ParsePrimary(ts) == Ok(Parsed(Grouping(expr.value), inner[1..]));
        return Ok(Grouping(expr.value));
      }

      var token := Peek();
      return Err(ParseError(token, "Expected expression."));
    }

    /** Consumes a token of `kind`, or reports `message` at the current token. */
    method Consume(kind: TokenType, message: string) returns (r: Result<Token, ParseError>)
      requires Valid()
      modifies this`current
      ensures Valid()
      ensures Grammar.Check(old(Remaining()), {kind}) ==>
                r == Ok(tokens[old(current)]) && current == old(current) + 1
                && Remaining() == old(Remaining())[1..]
      ensures !Grammar.Check(old(Remaining()), {kind}) ==>
                r == Err(ParseError(tokens[old(current)], message)) && current == old(current)
    {
      if Check(kind) {
        var token := Advance();
        return Ok(token);
      }
      var token := Peek();
      return Err(ParseError(token, message));
    }

    /** Consumes the current token when its kind is one of `kinds`; at most one token. */
    method Match(kinds: seq<TokenType>) returns (matched: bool)
      requires Valid()
      modifies this`current
      ensures Valid()
      ensures matched <==> tokens[old(current)].kind != Eof && tokens[old(current)].kind in kinds
      ensures current == if matched then old(current) + 1 else old(current)
      ensures matched ==> Remaining() == old(Remaining())[1..]
    {
      for i := 0 to |kinds|
        invariant current == old(current)
        invariant forall j :: 0 <= j < i ==> !Check(kinds[j])
      {
        if Check(kinds[i]) {
          var _ := Advance();
          return true;
        }
      }
      return false;
    }

    /** The current token has `kind`; never true at the end marker. */
    function Check(kind: TokenType): (b: bool)
      reads this
      requires Valid()
      ensures b <==> Grammar.Check(Remaining(), {kind})
    {
      if IsAtEnd() then false else Peek().kind == kind
    }

    /** Moves past the current token unless it is the end marker; returns the token passed. */
    method Advance() returns (token: Token)
      requires Valid() && (current >= 1 || !IsAtEnd())
      modifies this`current
      ensures Valid()
      ensures current == if old(IsAtEnd()) then old(current) else old(current) + 1
      ensures current >= 1 && token == tokens[current - 1]
    {
      if !IsAtEnd() {
        current := current + 1;
      }
      token := Previous();
    }

    function IsAtEnd(): (b: bool)
      reads this
      requires Valid()
      ensures b <==> tokens[current].kind == Eof
    {
      Peek().kind == Eof
    }

    function Peek(): (t: Token)
      reads this
      requires Valid()
      ensures t == Remaining()[0]
    {
      tokens[current]
    }

    function Previous(): (t: Token)
      reads this
      requires Valid() && current >= 1
      ensures t == tokens[current - 1]
    {
      tokens[current - 1]
    }
  }
}
