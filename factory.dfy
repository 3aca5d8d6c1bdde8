/** `ProgramFactory`: the constructors the parser calls. Most pass their
    parts through; the ones whose Java code casts an operand to
    `ArithmeticExpression` or `BooleanExpression`, and the field reads whose
    `OnEntityExpression` constructor checks its operand, turn a failed check
    into an IllegalArgumentException. Source locations are kept by action
    statements only. */
module Factory {
  import opened Values
  import opened Syntax
  import opened Queries
  import opened ProgramState
  import opened Expressions

  /** The expression classes that extend `ArithmeticExpression`: literals,
      variables, parameters, calls, field reads, `+`, `*`, unary minus and
      square root. */
  predicate IsArithmetic(e: Expr)
  {
    match e
    case Literal(_) => true
    case Variable(_) => true
    case Parameter(_) => true
    case Call(_, _) => true
    case FieldOf(_, _) => true
    case Arith(op, _, _) => op != LessThan
    case Unary(_, _) => true
    case _ => false
  }

  /** The expression classes that extend `BooleanExpression`: `<`, `==`
      and `!`. */
  predicate IsBoolean(e: Expr)
  {
    (e.Arith? && e.op == LessThan) || e.EqualsTo? || e.Not?
  }

  /** What `OnEntityExpression` accepts as its operand: an entity
      expression other than `null`, or a variable. */
  predicate IsEntityOperand(e: Expr)
  {
    (e.Entity? && e.query != NullQuery) || e.Variable?
  }

  function CreateWhile(id: nat, condition: Expr, body: Stmt): (r: Res<Stmt>)
    ensures r.Ok? <==> IsBoolean(condition)
    ensures r.Ok? ==> r.value == While(id, condition, body)
    ensures r.Raise? ==> r.signal == Thrown(IllegalArgument)
  {
    if IsBoolean(condition) then Ok(While(id, condition, body)) else Raise(Thrown(IllegalArgument))
  }

  function CreateIf(condition: Expr, ifBody: Stmt, elseBody: Option<Stmt>): (r: Res<Stmt>)
    ensures r.Ok? <==> IsBoolean(condition)
    ensures r.Ok? ==> r.value == IfElse(condition, ifBody, elseBody)
    ensures r.Raise? ==> r.signal == Thrown(IllegalArgument)
  {
    if IsBoolean(condition) then Ok(IfElse(condition, ifBody, elseBody)) else Raise(Thrown(IllegalArgument))
  }

  /** `createChangeSignExpression` and `createSqrtExpression`. */
  function CreateUnary(op: UnaryOp, operand: Expr): (r: Res<Expr>)
    ensures r.Ok? <==> IsArithmetic(operand)
    ensures r.Ok? ==> r.value == Unary(op, operand) && IsArithmetic(r.value)
    ensures r.Ok? && WellFormedExpr(operand) ==> WellFormedExpr(r.value)
    ensures r.Raise? ==> r.signal == Thrown(IllegalArgument)
  {
    if IsArithmetic(operand) then Ok(Unary(op, operand)) else Raise(Thrown(IllegalArgument))
  }

  /** `createAdditionExpression`, `createMultiplicationExpression` and
      `createLessThanExpression`. */
  function CreateBinary(op: ArithOp, left: Expr, right: Expr): (r: Res<Expr>)
    ensures r.Ok? <==> IsArithmetic(left) && IsArithmetic(right)
    ensures r.Ok? ==> r.value == Arith(op, left, right)
    ensures r.Ok? && WellFormedExpr(left) && WellFormedExpr(right) ==> WellFormedExpr(r.value)
    ensures r.Ok? ==> (op == LessThan <==> IsBoolean(r.value)) && (op != LessThan <==> IsArithmetic(r.value))
    ensures r.Raise? ==> r.signal == Thrown(IllegalArgument)
  {
    if IsArithmetic(left) && IsArithmetic(right) then Ok(Arith(op, left, right))
    else Raise(Thrown(IllegalArgument))
  }

  function CreateNot(operand: Expr): (r: Res<Expr>)
    ensures r.Ok? <==> IsBoolean(operand)
    ensures r.Ok? ==> r.value == Not(operand) && IsBoolean(r.value)
    ensures r.Ok? && WellFormedExpr(operand) ==> WellFormedExpr(r.value)
    ensures r.Raise? ==> r.signal == Thrown(IllegalArgument)
  {
    if IsBoolean(operand) then Ok(Not(operand)) else Raise(Thrown(IllegalArgument))
  }

  /** `createEqualityExpression`: any two operands. */
  function CreateEquality(left: Expr, right: Expr): (r: Expr)
    ensures IsBoolean(r) && r.EqualsTo? && r.left == left && r.right == right
    ensures WellFormedExpr(left) && WellFormedExpr(right) ==> WellFormedExpr(r)
  {
    EqualsTo(left, right)
  }

  /** `createGetXExpression` and the other field reads. */
  function CreateFieldRead(field: Field, operand: Expr): (r: Res<Expr>)
    ensures r.Ok? <==> IsEntityOperand(operand)
    ensures r.Ok? ==> r.value == FieldOf(field, operand) && IsArithmetic(r.value)
    ensures r.Ok? && WellFormedExpr(operand) ==> WellFormedExpr(r.value)
    ensures r.Raise? ==> r.signal == Thrown(IllegalArgument)
  {
    if IsEntityOperand(operand) then Ok(FieldOf(field, operand)) else Raise(Thrown(IllegalArgument))
  }

  /** What the factory can build: every check of the constructors holds
      in every node. */
  predicate WellFormedExpr(e: Expr)
    decreases ExprSize(e), 1
  {
    match e
    case Arith(_, l, r) => IsArithmetic(l) && IsArithmetic(r) && WellFormedExpr(l) && WellFormedExpr(r)
    case EqualsTo(l, r) => WellFormedExpr(l) && WellFormedExpr(r)
    case Unary(_, x) => IsArithmetic(x) && WellFormedExpr(x)
    case Not(x) => IsBoolean(x) && WellFormedExpr(x)
    case Call(_, actuals) => WellFormedExprs(actuals)
    case FieldOf(_, x) => IsEntityOperand(x) && WellFormedExpr(x)
    case _ => true
  }

  predicate WellFormedExprs(es: seq<Expr>)
    decreases ExprsSize(es), 2
  {
    es == [] || (WellFormedExpr(es[0]) && WellFormedExprs(es[1..]))
  }

  /** A boolean-class expression never yields a non-boolean: the condition
      of a while or if built by the factory cannot fail the `(boolean)`
      cast. */
  lemma BooleanYieldsBool(e: Expr, sc: Scope, env: Env, st: State, steps: nat)
    requires IsBoolean(e)
    ensures var (v, _) := EvalExpr(e, sc, env, st, steps);
            v.Ok? ==> v.value.Bool? && CastBoolean(v.value).Ok?
  {
    var (v, _) := EvalExpr(e, sc, env, st, steps);
    if e.Arith? && v.Ok? {
      var slots := BinarySlots(e.left, e.right, sc.args);
      assert slots.Ok?;
    }
  }
}
