/** What evaluation guarantees: visitor agreement, error order and origin, and the meaning of the operators. */
module InterpreterProperties {
  import opened Wrappers
  import opened Tokens
  import opened Ast
  import opened Interpreter

  /** Evaluating is accepting the interpreter's visitor. */
  lemma EvaluateIsAccept(e: Expr)
    ensures Evaluate(e) == Accept(e, AsVisitor())
  {
  }

  /**
    A binary node reports its right operand's error even when the left one
    fails too, and the left operand's error only when the right one succeeds.
  */
  lemma RightOperandFirst(left: Expr, op: Token, right: Expr)
    ensures Evaluate(right).Err? ==> Evaluate(Binary(left, op, right)) == Err(Evaluate(right).error)
    ensures Evaluate(right).Ok? && Evaluate(left).Err? ==>
              Evaluate(Binary(left, op, right)) == Err(Evaluate(left).error)
    ensures Evaluate(right).Ok? && Evaluate(left).Ok? ==>
              Evaluate(Binary(left, op, right)) == BinaryOp(op, Evaluate(left).value, Evaluate(right).value)
  {
  }

  /** A grouping has its inner expression's outcome; a literal, its own value. */
  lemma GroupingAndLiteral(e: Expr, v: Value)
    ensures Evaluate(Grouping(e)) == Evaluate(e)
    ensures Evaluate(Literal(v)) == Ok(v)
  {
  }

  /** The operator tokens of a tree, left to right. */
  function Operators(e: Expr): (ops: seq<Token>)
    ensures e.Binary? ==> e.operator in ops
    ensures e.Unary? ==> e.operator in ops
    ensures e.Literal? ==> ops == []
  {
    match e
    case Binary(left, operator, right) => Operators(left) + [operator] + Operators(right)
    case Grouping(expression) => Operators(expression)
    case Literal(_) => []
    case Unary(operator, right) => [operator] + Operators(right)
  }

  /** Every runtime error is reported at an operator token of the tree evaluated. */
  lemma {:induction false} ErrorAtOperator(e: Expr)
    ensures Evaluate(e).Err? ==> Evaluate(e).error.token in Operators(e)
  {
    match e
    case Binary(left, operator, right) =>
      ErrorAtOperator(left);
      ErrorAtOperator(right);
    case Grouping(expression) =>
      ErrorAtOperator(expression);
    case Literal(_) =>
    case Unary(operator, right) =>
      ErrorAtOperator(right);
  }

  /** A tree with no operator always has a value. */
  lemma {:induction false} NoOperatorNoError(e: Expr)
    requires Operators(e) == []
    ensures Evaluate(e).Ok?
  {
    ErrorAtOperator(e);
  }

  // ---------------------------------------------------------------------
  // A reference semantics for arithmetic
  // ---------------------------------------------------------------------

  /** Number literals combined by '+', '-', '*', '/', unary '-' and grouping. */
  predicate Arithmetic(e: Expr) {
    match e
    case Binary(left, operator, right) =>
      operator.kind in {Plus, Minus, Star, Slash} && Arithmetic(left) && Arithmetic(right)
    case Grouping(expression) => Arithmetic(expression)
    case Literal(value) => value.Number?
    case Unary(operator, right) => operator.kind == Minus && Arithmetic(right)
  }

  /** The four arithmetic operators on reals, division by zero giving 0.0. */
  function ArithOp(kind: TokenType, a: real, b: real): real {
    if kind == Plus then a + b
    else if kind == Minus then a - b
    else if kind == Star then a * b
    else Divide(a, b)
  }

  /** The value of an arithmetic tree, by structural recursion with no error handling. */
  function Arith(e: Expr): real
    requires Arithmetic(e)
  {
    match e
    case Binary(left, operator, right) => ArithOp(operator.kind, Arith(left), Arith(right))
    case Grouping(expression) => Arith(expression)
    case Literal(value) => value.n
    case Unary(_, right) => -Arith(right)
  }

  lemma ArithOpIsNumberOp(op: Token, a: real, b: real)
    requires op.kind in {Plus, Minus, Star, Slash}
    ensures NumberOp(op, a, b) == Ok(Value.Number(ArithOp(op.kind, a, b)))
  {
  }

  /** An arithmetic tree never fails, and evaluates to its reference value. */
  lemma {:induction false} ArithmeticEvaluates(e: Expr)
    requires Arithmetic(e)
    ensures Evaluate(e) == Ok(Value.Number(Arith(e)))
  {
    match e
    case Binary(left, operator, right) =>
      ArithmeticEvaluates(left);
      ArithmeticEvaluates(right);
      ArithOpIsNumberOp(operator, Arith(left), Arith(right));
    case Grouping(expression) =>
      ArithmeticEvaluates(expression);
    case Literal(_) =>
    case Unary(_, right) =>
      ArithmeticEvaluates(right);
  }

  // ---------------------------------------------------------------------
  // The operators
  // ---------------------------------------------------------------------

  /** '!' applied twice gives the operand's truthiness as a boolean. */
  lemma DoubleNegation(bang1: Token, bang2: Token, e: Expr)
    requires bang1.kind == Bang && bang2.kind == Bang
    ensures Evaluate(e).Ok? ==> Evaluate(Unary(bang1, Unary(bang2, e))) == Ok(Bool(IsTruthy(Evaluate(e).value)))
    ensures Evaluate(e).Err? ==> Evaluate(Unary(bang1, Unary(bang2, e))) == Evaluate(e)
  {
  }

  /** On two strings '+' concatenates, left operand first. */
  lemma StringConcatenation(plus: Token, a: string, b: string)
    requires plus.kind == Plus
    ensures BinaryOp(plus, Value.Str(a), Value.Str(b)) == Ok(Value.Str(a + b))
  {
  }

  /** The four orderings on two numbers are those of the reals. */
  lemma NumberComparisons(op: Token, a: real, b: real)
    ensures op.kind == Less ==> BinaryOp(op, Value.Number(a), Value.Number(b)) == Ok(Bool(a < b))
    ensures op.kind == LessEqual ==> BinaryOp(op, Value.Number(a), Value.Number(b)) == Ok(Bool(a <= b))
    ensures op.kind == Greater ==> BinaryOp(op, Value.Number(a), Value.Number(b)) == Ok(Bool(a > b))
    ensures op.kind == GreaterEqual ==> BinaryOp(op, Value.Number(a), Value.Number(b)) == Ok(Bool(a >= b))
  {
  }

  /**
    The four orderings on two strings are lexicographic: '<' asks whether the
    left string sorts first, '>' whether the right one does, and the "-equal"
    forms also hold on equal strings.
  */
  lemma StringComparisons(op: Token, a: string, b: string)
    ensures op.kind == Less ==> BinaryOp(op, Value.Str(a), Value.Str(b)) == Ok(Bool(StrLess(a, b)))
    ensures op.kind == LessEqual ==> BinaryOp(op, Value.Str(a), Value.Str(b)) == Ok(Bool(StrLess(a, b) || a == b))
    ensures op.kind == Greater ==> BinaryOp(op, Value.Str(a), Value.Str(b)) == Ok(Bool(StrLess(b, a)))
    ensures op.kind == GreaterEqual ==> BinaryOp(op, Value.Str(a), Value.Str(b)) == Ok(Bool(StrLess(b, a) || a == b))
  {
  }

  /** Values of one kind that the comparison operators are defined on. */
  predicate Comparable(a: Value, b: Value) {
    (a.Number? && b.Number?) || (a.Str? && b.Str?)
  }

  /** '<' and '>=' give opposite answers on two numbers or two strings; so do '>' and '<='. */
  lemma ComparisonsComplement(lt: Token, ge: Token, gt: Token, le: Token, a: Value, b: Value)
    requires lt.kind == Less && ge.kind == GreaterEqual && gt.kind == Greater && le.kind == LessEqual
    requires Comparable(a, b)
    ensures BinaryOp(lt, a, b).Ok? && BinaryOp(ge, a, b).Ok?
    ensures BinaryOp(ge, a, b).value == Bool(!BinaryOp(lt, a, b).value.b)
    ensures BinaryOp(gt, a, b).Ok? && BinaryOp(le, a, b).Ok?
    ensures BinaryOp(le, a, b).value == Bool(!BinaryOp(gt, a, b).value.b)
  {
    if a.Str? {
      StrLessEqIsNotGreater(b.s, a.s);
      StrLessEqIsNotGreater(a.s, b.s);
    }
  }

  /** '>' is '<' with the operands swapped. */
  lemma GreaterIsSwappedLess(gt: Token, lt: Token, a: Value, b: Value)
    requires gt.kind == Greater && lt.kind == Less
    requires Comparable(a, b)
    ensures BinaryOp(gt, a, b).Ok? && BinaryOp(gt, a, b) == BinaryOp(lt, b, a)
  {
  }

  /** '<' on two strings is a strict order: never both ways, and one way between different strings. */
  lemma StringLessIsStrict(lt: Token, a: string, b: string)
    requires lt.kind == Less
    ensures BinaryOp(lt, Value.Str(a), Value.Str(a)) == Ok(Bool(false))
    ensures a != b ==> BinaryOp(lt, Value.Str(a), Value.Str(b)) != BinaryOp(lt, Value.Str(b), Value.Str(a))
  {
    StrLessIrreflexive(a);
    StrLessTrichotomy(a, b);
  }

  /**
    '==' and '!=' are defined on the same pairs, two values of one kind other
    than nil, and give opposite answers there.
  */
  lemma EqualityNegation(eq: Token, ne: Token, a: Value, b: Value)
    requires eq.kind == EqualEqual && ne.kind == BangEqual
    ensures BinaryOp(eq, a, b).Ok? <==> BinaryOp(ne, a, b).Ok?
    ensures BinaryOp(eq, a, b).Ok? ==>
              BinaryOp(eq, a, b).value.Bool? && BinaryOp(ne, a, b).value == Bool(!BinaryOp(eq, a, b).value.b)
    ensures BinaryOp(eq, a, b).Ok? ==> (BinaryOp(eq, a, b).value.b <==> a == b)
  {
  }

  /** Every value but nil equals itself; comparing nil with anything is an invalid expression. */
  lemma EqualityOnNil(eq: Token, a: Value, b: Value)
    requires eq.kind == EqualEqual
    ensures a != Value.Nil ==> BinaryOp(eq, a, a) == Ok(Bool(true))
    ensures a == Value.Nil || b == Value.Nil ==> BinaryOp(eq, a, b) == Err(RuntimeError("Invalid expression.", eq))
  {
  }
}
