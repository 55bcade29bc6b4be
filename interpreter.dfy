/**
  Evaluation of expression trees. Every node yields a value or a runtime
  error that names the operator token it arose at. A binary node evaluates
  its right operand before its left one, and the first error met stops the
  evaluation.

  Numbers are exact reals. Division by zero, which the source leaves to
  IEEE floating point, yields the placeholder 0.0 here.
*/
module Interpreter {
  import opened Wrappers
  import opened Tokens
  import opened Ast

  /** A runtime error: its message and the operator token it is reported at. */
  datatype RuntimeError = RuntimeError(message: string, token: Token)

  /** `nil` and `false` are falsy; every other value is truthy. */
  function IsTruthy(v: Value): (b: bool)
    ensures b <==> v != Value.Nil && v != Bool(false)
  {
    match v
    case Nil => false
    case Bool(b) => b
    case _ => true
  }

  // ---------------------------------------------------------------------
  // String ordering
  // ---------------------------------------------------------------------

  /** Lexicographic order on strings, character by character; a proper prefix comes first. */
  function StrLess(a: string, b: string): bool
    decreases |a|
  {
    if b == [] then false
    else if a == [] then true
    else if a[0] != b[0] then a[0] < b[0]
    else StrLess(a[1..], b[1..])
  }

  function StrLessEq(a: string, b: string): bool {
    StrLess(a, b) || a == b
  }

  lemma {:induction false} StrLessIrreflexive(a: string)
    ensures !StrLess(a, a)
    decreases |a|
  {
    if a != [] {
      StrLessIrreflexive(a[1..]);
    }
  }

  lemma {:induction false} StrLessTransitive(a: string, b: string, c: string)
    requires StrLess(a, b) && StrLess(b, c)
    ensures StrLess(a, c)
    decreases |a|
  {
    if a != [] && a[0] == b[0] && b[0] == c[0] {
      StrLessTransitive(a[1..], b[1..], c[1..]);
    }
  }

  /** Of two different strings exactly one comes first. */
  lemma {:induction false} StrLessTrichotomy(a: string, b: string)
    ensures a == b || StrLess(a, b) || StrLess(b, a)
    ensures !(StrLess(a, b) && StrLess(b, a))
    decreases |a|
  {
    if a != [] && b != [] && a[0] == b[0] {
      StrLessTrichotomy(a[1..], b[1..]);
      if a[1..] == b[1..] {
        assert a == [a[0]] + a[1..] && b == [b[0]] + b[1..];
      }
    }
  }

  /** So "at most" is the negation of "after". */
  lemma StrLessEqIsNotGreater(a: string, b: string)
    ensures StrLessEq(a, b) <==> !StrLess(b, a)
  {
    StrLessTrichotomy(a, b);
    if a == b {
      StrLessIrreflexive(a);
    }
  }

  // ---------------------------------------------------------------------
  // Operators
  // ---------------------------------------------------------------------

  /** Real division; a zero divisor yields the placeholder 0.0. */
  function Divide(a: real, b: real): (q: real)
    ensures b != 0.0 ==> q * b == a
    ensures b == 0.0 ==> q == 0.0
  {
    if b == 0.0 then 0.0 else a / b
  }

  /** The operators defined on two numbers. */
  const NumberOperators: set<TokenType> :=
    {Minus, Plus, Slash, Star, Greater, GreaterEqual, Less, LessEqual, EqualEqual, BangEqual}

  /** The operators defined on two strings. */
  const StringOperators: set<TokenType> :=
    {Plus, Greater, GreaterEqual, Less, LessEqual, EqualEqual, BangEqual}

  /** The operators defined on two booleans. */
  const BoolOperators: set<TokenType> := {EqualEqual, BangEqual}

  function NumberOp(op: Token, ln: real, rn: real): (r: Result<Value, RuntimeError>)
    ensures r.Ok? <==> op.kind in NumberOperators
    ensures r.Err? ==> r.error == RuntimeError("Invalid operator for number type.", op)
  {
    match op.kind
    case Minus => Ok(Value.Number(ln - rn))
    case Plus => Ok(Value.Number(ln + rn))
    case Slash => Ok(Value.Number(Divide(ln, rn)))
    case Star => Ok(Value.Number(ln * rn))
    case Greater => Ok(Bool(ln > rn))
    case GreaterEqual => Ok(Bool(ln >= rn))
    case Less => Ok(Bool(ln < rn))
    case LessEqual => Ok(Bool(ln <= rn))
    case EqualEqual => Ok(Bool(ln == rn))
    case BangEqual => Ok(Bool(ln != rn))
    case _ => Err(RuntimeError("Invalid operator for number type.", op))
  }

  function StringOp(op: Token, ls: string, rs: string): (r: Result<Value, RuntimeError>)
    ensures r.Ok? <==> op.kind in StringOperators
    ensures r.Err? ==> r.error == RuntimeError("Invalid operator for string type.", op)
  {
    match op.kind
    case Plus => Ok(Value.Str(ls + rs))
    case Greater => Ok(Bool(StrLess(rs, ls)))
    case GreaterEqual => Ok(Bool(StrLessEq(rs, ls)))
    case Less => Ok(Bool(StrLess(ls, rs)))
    case LessEqual => Ok(Bool(StrLessEq(ls, rs)))
    case EqualEqual => Ok(Bool(ls == rs))
    case BangEqual => Ok(Bool(ls != rs))
    case _ => Err(RuntimeError("Invalid operator for string type.", op))
  }

  function BoolOp(op: Token, lb: bool, rb: bool): (r: Result<Value, RuntimeError>)
    ensures r.Ok? <==> op.kind in BoolOperators
    ensures r.Err? ==> r.error == RuntimeError("Invalid operator for boolean type.", op)
  {
    match op.kind
    case EqualEqual => Ok(Bool(lb == rb))
    case BangEqual => Ok(Bool(lb != rb))
    case _ => Err(RuntimeError("Invalid operator for boolean type.", op))
  }

  /**
    A binary operator applied to two operand values. Both operands must be
    numbers, both strings, or both booleans, and the operator must be one
    defined for that kind; any other pair, `nil` included, is an invalid
    expression.
  */
  function BinaryOp(op: Token, left: Value, right: Value): (r: Result<Value, RuntimeError>)
    ensures r.Ok? <==>
              || (left.Number? && right.Number? && op.kind in NumberOperators)
              || (left.Str? && right.Str? && op.kind in StringOperators)
              || (left.Bool? && right.Bool? && op.kind in BoolOperators)
    ensures r.Err? ==> r.error.token == op
    ensures !((left.Number? && right.Number?) || (left.Str? && right.Str?) || (left.Bool? && right.Bool?))
            ==> r == Err(RuntimeError("Invalid expression.", op))
  {
    if left.Number? && right.Number? then NumberOp(op, left.n, right.n)
    else if left.Str? && right.Str? then StringOp(op, left.s, right.s)
    else if left.Bool? && right.Bool? then BoolOp(op, left.b, right.b)
    else Err(RuntimeError("Invalid expression.", op))
  }

  /**
    A unary operator applied to its operand's value: '!' negates truthiness,
    '-' negates a number and rejects anything else, and any other operator
    yields `nil`.
  */
  function UnaryOp(op: Token, right: Value): (r: Result<Value, RuntimeError>)
    ensures op.kind == Bang ==> r == Ok(Bool(!IsTruthy(right)))
    ensures op.kind == Minus ==>
              if right.Number? then r == Ok(Value.Number(-right.n))
              else r == Err(RuntimeError("Operand must be a number.", op))
    ensures op.kind != Bang && op.kind != Minus ==> r == Ok(Value.Nil)
  {
    match op.kind
    case Bang => Ok(Bool(!IsTruthy(right)))
    case Minus =>
      if right.Number? then Ok(Value.Number(-right.n))
      else Err(RuntimeError("Operand must be a number.", op))
    case _ => Ok(Value.Nil)
  }

  // ---------------------------------------------------------------------
  // Evaluation
  // ---------------------------------------------------------------------

  /** The value of an expression tree, or the first runtime error met. */
  function Evaluate(e: Expr): Result<Value, RuntimeError>
    decreases Size(e), 1
  {
    match e
    case Binary(left, operator, right) => VisitBinary(left, operator, right)
    case Grouping(expression) => VisitGrouping(expression)
    case Literal(value) => VisitLiteral(value)
    case Unary(operator, right) => VisitUnary(operator, right)
  }

  /** The right operand first, then the left one, then the operator. */
  function VisitBinary(left: Expr, operator: Token, right: Expr): Result<Value, RuntimeError>
    decreases Size(left) + Size(right) + 1, 0
  {
    var r := Evaluate(right);
    if r.Err? then Err(r.error)
    else
      var l := Evaluate(left);
      if l.Err? then Err(l.error)
      else BinaryOp(operator, l.value, r.value)
  }

  function VisitGrouping(expression: Expr): Result<Value, RuntimeError>
    decreases Size(expression) + 1, 0
  {
    Evaluate(expression)
  }

  function VisitLiteral(value: Value): Result<Value, RuntimeError> {
    Ok(value)
  }

  function VisitUnary(operator: Token, right: Expr): Result<Value, RuntimeError>
    decreases Size(right) + 1, 0
  {
    var r := Evaluate(right);
    if r.Err? then Err(r.error) else UnaryOp(operator, r.value)
  }

  /** The interpreter as a visitor: the four visit operations above. */
  function AsVisitor(): Visitor<Result<Value, RuntimeError>> {
    Ast.Visitor(VisitBinary, VisitGrouping, VisitLiteral, VisitUnary)
  }

  /** What `interpret` hands on: the value it prints, or the error it reports. */
  datatype Outcome = Printed(value: Value) | Reported(token: Token, message: string)

  function Interpret(e: Expr): (o: Outcome)
    ensures o.Printed? <==> Evaluate(e).Ok?
    ensures o.Printed? ==> o.value == Evaluate(e).value
    ensures o.Reported? ==> o.token == Evaluate(e).error.token && o.message == Evaluate(e).error.message
  {
    var r := Evaluate(e);
    if r.Ok? then Printed(r.value) else Reported(r.error.token, r.error.message)
  }
}
