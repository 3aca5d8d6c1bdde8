/** The abstract syntax of ship programs: the `MyExpression` and
    `MyStatement` class hierarchies as closed datatypes, plus the structural
    queries the interpreter asks of them (`containsStatement`, the
    function-body check, the action locations). */
module Syntax {
  import opened Values

  datatype ArithOp = Add | Mul | LessThan
  datatype UnaryOp = Negate | SquareRoot

  /** The entity queries: `self`, `any`, `null`, and the nearest ship,
      asteroid, planetoid, planet (minor planet) and a bullet of this ship. */
  datatype Query = SelfQuery | AnyQuery | NullQuery | ShipQuery | AsteroidQuery
                 | PlanetoidQuery | PlanetQuery | BulletQuery

  /** Field reads on an entity operand (`getx`, `gety`, `getvx`, `getvy`, `getradius`). */
  datatype Field = X | Y | VX | VY | Radius

  datatype Expr =
    | Literal(value: real)                        // DoubleLiteralExpression
    | Variable(name: string)                      // VariableExpression
    | Parameter(name: string)                     // ParameterExpression, name "$n"
    | Arith(op: ArithOp, left: Expr, right: Expr) // Addition, Multiplication, LessThan
    | EqualsTo(left: Expr, right: Expr)           // EqualsToExpression
    | Unary(uop: UnaryOp, operand: Expr)          // Negation, SquareRoot
    | Not(operand: Expr)                          // LogicalNegationExpression
    | Call(callee: string, args: seq<Expr>)     // FunctionExpression
    | Entity(query: Query)                        // the EntityExpression subclasses
    | FieldOf(field: Field, operand: Expr)        // the OnEntityExpression subclasses
    | Direction                                   // DirectionExpression

  datatype ActionKind = Turn(angle: Expr) | Fire | ThrustOn | ThrustOff | Skip

  datatype Stmt =
    | Assign(variable: string, value: Expr)
    | Sequence(statements: seq<Stmt>)
    | IfElse(condition: Expr, ifBody: Stmt, elseBody: Option<Stmt>)
      /** `id` stands for the identity of the WhileStatement object, which
          owns a `broken` flag; distinct loops of a program carry distinct
          ids. */
    | While(id: nat, condition: Expr, body: Stmt)
    | Break
    | Return(value: Expr)
    | Print(value: Expr)
    | Action(kind: ActionKind, location: Location)

  /** A function definition (`MyFunction` without its mutable local map). */
  datatype Function = Function(name: string, body: Stmt)

  // Sizes, used only to show that evaluation terminates.

  function ExprSize(e: Expr): (n: nat)
    ensures n >= 1
  {
    match e
    case Arith(_, l, r) => 1 + ExprSize(l) + ExprSize(r)
    case EqualsTo(l, r) => 1 + ExprSize(l) + ExprSize(r)
    case Unary(_, x) => 1 + ExprSize(x)
    case Not(x) => 1 + ExprSize(x)
    case Call(_, args) => 1 + ExprsSize(args)
    case FieldOf(_, x) => 1 + ExprSize(x)
    case _ => 1
  }

  function ExprsSize(es: seq<Expr>): nat
  {
    if es == [] then 0 else ExprSize(es[0]) + ExprsSize(es[1..])
  }

  function StmtSize(s: Stmt): (n: nat)
    ensures n >= 1
  {
    match s
    case Assign(_, e) => 1 + ExprSize(e)
    case Sequence(ss) => 1 + StmtsSize(ss)
    case IfElse(c, t, None) => 1 + ExprSize(c) + StmtSize(t)
    case IfElse(c, t, Some(e)) => 1 + ExprSize(c) + StmtSize(t) + StmtSize(e)
    case While(_, c, b) => 1 + ExprSize(c) + StmtSize(b)
    case Return(e) => 1 + ExprSize(e)
    case Print(e) => 1 + ExprSize(e)
    case Action(Turn(a), _) => 1 + ExprSize(a)
    case _ => 1
  }

  function StmtsSize(ss: seq<Stmt>): nat
  {
    if ss == [] then 0 else StmtSize(ss[0]) + StmtsSize(ss[1..])
  }

  /** `getClass().getSimpleName()` of the statement's class. */
  function ClassName(s: Stmt): string
  {
    match s
    case Assign(_, _) => "AssignmentStatement"
    case Sequence(_) => "SequenceStatement"
    case IfElse(_, _, _) => "IfElseStatement"
    case While(_, _, _) => "WhileStatement"
    case Break => "BreakStatement"
    case Return(_) => "ReturnStatement"
    case Print(_) => "PrintStatement"
    case Action(Turn(_), _) => "TurnAction"
    case Action(Fire, _) => "FireAction"
    case Action(ThrustOn, _) => "ThrustOnAction"
    case Action(ThrustOff, _) => "ThrustOffAction"
    case Action(Skip, _) => "SkipAction"
  }

  /** `containsStatement(name)`: a sequence asks its children, an if/else
      asks its two bodies, and every other statement (including a while,
      which does not override the default) compares only its own class
      name. */
  function ContainsStatement(s: Stmt, name: string): bool
    decreases StmtSize(s), 1
  {
    match s
    case Sequence(ss) => ContainsAny(ss, name)
    case IfElse(_, t, e) => ContainsStatement(t, name) || (e.Some? && ContainsStatement(e.value, name))
    case _ => ClassName(s) == name
  }

  function ContainsAny(ss: seq<Stmt>, name: string): bool
    decreases StmtsSize(ss), 2
  {
    ss != [] && (ContainsStatement(ss[0], name) || ContainsAny(ss[1..], name))
  }

  /** A sequence contains a statement of class `name` iff one of its
      children does. */
  lemma {:induction false} ContainsAnyIff(ss: seq<Stmt>, name: string)
    ensures ContainsAny(ss, name) <==> exists i :: 0 <= i < |ss| && ContainsStatement(ss[i], name)
    decreases |ss|
  {
    if ss != [] {
      ContainsAnyIff(ss[1..], name);
      assert forall i :: 0 < i < |ss| ==> ss[1..][i - 1] == ss[i];
      if ContainsAny(ss[1..], name) {
        var i :| 0 <= i < |ss[1..]| && ContainsStatement(ss[1..][i], name);
        assert ContainsStatement(ss[i + 1], name);
      }
    }
  }

  /** `SequenceStatement.containsStatement`: a loop over all the children
      that raises a flag for every child containing a statement of class
      `name`. */
  method SequenceContainsStatement(ss: seq<Stmt>, name: string) returns (contains: bool)
    ensures contains <==> exists i :: 0 <= i < |ss| && ContainsStatement(ss[i], name)
    ensures contains == ContainsStatement(Sequence(ss), name)
  {
    ContainsAnyIff(ss, name);
    contains := false;
    for i := 0 to |ss|
      invariant contains <==> exists j :: 0 <= j < i && ContainsStatement(ss[j], name)
    {
      if ContainsStatement(ss[i], name) {
        contains := true;
      }
    }
  }

  /** `isValidFunctionBody`: the body contains a return statement and is a
      return, sequence, if/else or while statement. */
  function IsValidFunctionBody(body: Stmt): (ok: bool)
    ensures ok <==> ContainsStatement(body, "ReturnStatement") && (body.Return? || body.Sequence? || body.IfElse?)
    ensures body.Return? ==> ok
    ensures body.While? ==> !ok
  {
    ContainsStatement(body, "ReturnStatement")
      && (body.Return? || body.Sequence? || body.IfElse? || body.While?)
  }

  /** The source locations of the action statements in `s`. */
  function ActionLocations(s: Stmt): set<Location>
    decreases StmtSize(s), 1
  {
    match s
    case Sequence(ss) => ActionLocationsOf(ss)
    case IfElse(_, t, None) => ActionLocations(t)
    case IfElse(_, t, Some(e)) => ActionLocations(t) + ActionLocations(e)
    case While(_, _, b) => ActionLocations(b)
    case Action(_, loc) => {loc}
    case _ => {}
  }

  function ActionLocationsOf(ss: seq<Stmt>): set<Location>
    decreases StmtsSize(ss), 2
  {
    if ss == [] then {} else ActionLocations(ss[0]) + ActionLocationsOf(ss[1..])
  }

  /** Whether `e` contains a function call: the only way an expression can
      change interpreter state or raise a break. */
  function HasCall(e: Expr): bool
    decreases ExprSize(e)
  {
    match e
    case Call(_, _) => true
    case Arith(_, l, r) => HasCall(l) || HasCall(r)
    case EqualsTo(l, r) => HasCall(l) || HasCall(r)
    case Unary(_, x) => HasCall(x)
    case Not(x) => HasCall(x)
    case FieldOf(_, x) => HasCall(x)
    case _ => false
  }

  /** Whether some expression of `s` (a condition, a value, an angle)
      contains a function call. */
  function StmtHasCall(s: Stmt): bool
    decreases StmtSize(s), 1
  {
    match s
    case Assign(_, e) => HasCall(e)
    case Sequence(ss) => AnyHasCall(ss)
    case IfElse(c, t, e) => HasCall(c) || StmtHasCall(t) || (e.Some? && StmtHasCall(e.value))
    case While(_, c, b) => HasCall(c) || StmtHasCall(b)
    case Return(e) => HasCall(e)
    case Print(e) => HasCall(e)
    case Action(Turn(a), _) => HasCall(a)
    case _ => false
  }

  function AnyHasCall(ss: seq<Stmt>): bool
    decreases StmtsSize(ss), 2
  {
    ss != [] && (StmtHasCall(ss[0]) || AnyHasCall(ss[1..]))
  }

  /** No expression of the list contains a function call. */
  predicate NoCalls(es: seq<Expr>)
  {
    forall i :: 0 <= i < |es| ==> !HasCall(es[i])
  }

  lemma {:induction false} StmtsSizeSplit(ss: seq<Stmt>, i: nat)
    requires i < |ss|
    ensures StmtSize(ss[i]) <= StmtsSize(ss)
    ensures StmtsSize(ss) == StmtsSize(ss[..i]) + StmtSize(ss[i]) + StmtsSize(ss[i+1..])
  {
    if i == 0 {
      assert ss[..0] == [];
      assert ss[1..] == ss[i+1..];
    } else {
      StmtsSizeSplit(ss[1..], i - 1);
      assert ss[1..][..i-1] == ss[1..i];
      assert ss[1..][i-1+1..] == ss[i+1..];
      assert ss[..i][1..] == ss[1..i];
      assert ss[..i] != [] && ss[..i][0] == ss[0];
    }
  }
}
