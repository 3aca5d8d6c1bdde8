/** Properties of the interpreter that relate several evaluations or that
    follow one evaluation through its parts: operators on numbers, the
    error paths of the operand checks, assignments, prints, loops and
    breaks, the resume walk, and calls. */
module Properties {
  import opened Values
  import opened Syntax
  import opened Queries
  import opened Parameters
  import opened ProgramState
  import opened Expressions
  import opened Statements

  /** An operand that is neither a parameter nor contains a call. */
  predicate PlainOperand(x: Expr)
  {
    !x.Parameter? && !HasCall(x)
  }

  /** A plain operand that evaluates to a number is resolved to that
      number (checked by one evaluation, read by a second), and the state is
      unchanged. */
  lemma SolvePlainNumber(x: Expr, sc: Scope, env: Env, st: State, steps: nat, a: real)
    requires PlainOperand(x) && EvalExpr(x, sc, env, st, steps).0 == Ok(Num(a))
    ensures SolveOperand(x, None, sc, env, st, steps) == (Ok(a), st)
  {
    assert CanHaveAsArithmeticOperand(x, sc, env, st, steps) == (Ok(true), st);
  }

  /** A plain operand that evaluates to anything other than a number makes
      the operand check fail with an IllegalArgumentException. */
  lemma SolvePlainNonNumber(x: Expr, sc: Scope, env: Env, st: State, steps: nat, v: Value)
    requires PlainOperand(x) && EvalExpr(x, sc, env, st, steps).0 == Ok(v) && !v.Num?
    ensures SolveOperand(x, None, sc, env, st, steps) == (Raise(Thrown(IllegalArgument)), st)
  {
    assert CanHaveAsArithmeticOperand(x, sc, env, st, steps) == (Ok(false), st);
  }

  /** `+`, `*` and `<` on two plain numeric operands give the sum, the
      product and the strict comparison, and change nothing. */
  lemma ArithOnNumbers(op: ArithOp, l: Expr, r: Expr, sc: Scope, env: Env, st: State, steps: nat, a: real, b: real)
    requires PlainOperand(l) && EvalExpr(l, sc, env, st, steps).0 == Ok(Num(a))
    requires PlainOperand(r) && EvalExpr(r, sc, env, st, steps).0 == Ok(Num(b))
    ensures EvalExpr(Arith(op, l, r), sc, env, st, steps)
            == (Ok(if op == Add then Num(a + b) else if op == Mul then Num(a * b) else Bool(a < b)), st)
  {
    assert BinarySlots(l, r, sc.args) == Ok((None, None));
    SolvePlainNumber(l, sc, env, st, steps, a);
    SolvePlainNumber(r, sc, env, st, steps, b);
  }

  /** A binary operator whose left operand is plain and not a number fails
      with an IllegalArgumentException before the right operand is
      resolved. */
  lemma ArithLeftNonNumber(op: ArithOp, l: Expr, r: Expr, sc: Scope, env: Env, st: State, steps: nat, v: Value)
    requires PlainOperand(l) && EvalExpr(l, sc, env, st, steps).0 == Ok(v) && !v.Num?
    requires !r.Parameter?
    ensures EvalExpr(Arith(op, l, r), sc, env, st, steps) == (Raise(Thrown(IllegalArgument)), st)
  {
    assert BinarySlots(l, r, sc.args) == Ok((None, None));
    SolvePlainNonNumber(l, sc, env, st, steps, v);
  }

  /** A parameter operand of `+`, `*` or `<` is read from the actual
      arguments without being evaluated as an expression. */
  lemma ArithParameterOperands(op: ArithOp, n: nat, m: nat, args: seq<real>, f: Option<string>, env: Env, st: State, steps: nat)
    requires 1 <= n <= |args| && 1 <= m <= |args| && m <= IntMax && n <= IntMax
    ensures var l := Parameter("$" + DecimalString(n));
            var r := Parameter("$" + DecimalString(m));
            EvalExpr(Arith(op, l, r), Scope(Some(args), f), env, st, steps) == (Ok(ApplyArith(op, args[n - 1], args[m - 1])), st)
  {
    ParameterReadsArgument(n, args);
    ParameterReadsArgument(m, args);
  }

  /** At top level there is no argument list, so a well-formed parameter
      name fails with a NullPointerException. */
  lemma ParameterAtTopLevel(n: nat, env: Env, st: State, steps: nat)
    requires n <= IntMax
    ensures EvalExpr(Parameter("$" + DecimalString(n)), TopScope, env, st, steps) == (Raise(Thrown(NullPointer)), st)
  {
    ParameterNumberRoundTrip(n);
  }

  /** The square root of a plain numeric operand: the oracle's value for a
      non-negative number (zero included), an IllegalArgumentException for
      a negative one; unary minus negates. */
  lemma UnaryOnNumber(op: UnaryOp, x: Expr, sc: Scope, env: Env, st: State, steps: nat, a: real)
    requires PlainOperand(x) && EvalExpr(x, sc, env, st, steps).0 == Ok(Num(a))
    ensures op == Negate ==> EvalExpr(Unary(op, x), sc, env, st, steps) == (Ok(Num(-a)), st)
    ensures op == SquareRoot && a >= 0.0 ==> EvalExpr(Unary(op, x), sc, env, st, steps) == (Ok(Num(env.sqrt(a))), st)
    ensures op == SquareRoot && a < 0.0 ==> EvalExpr(Unary(op, x), sc, env, st, steps) == (Raise(Thrown(IllegalArgument)), st)
  {
    assert ParameterSlot(x, sc.args) == Ok(None);
    SolvePlainNumber(x, sc, env, st, steps, a);
  }

  /** `==` compares values: equal numbers, the same entity or equal
      booleans give true; a null left operand fails; a null right operand
      with a non-null left gives false. */
  lemma EqualityOfValues(l: Expr, r: Expr, sc: Scope, env: Env, st: State, steps: nat, a: Value, b: Value)
    requires !HasCall(l) && EvalExpr(l, sc, env, st, steps).0 == Ok(a)
    requires !HasCall(r) && EvalExpr(r, sc, env, st, steps).0 == Ok(b)
    ensures a == Null ==> EvalExpr(EqualsTo(l, r), sc, env, st, steps) == (Raise(Thrown(NullPointer)), st)
    ensures a != Null ==> EvalExpr(EqualsTo(l, r), sc, env, st, steps) == (Ok(Bool(a == b)), st)
  {
  }

  /** An assignment to a name that is not a function, of a call-free
      expression with a numeric value, binds the global and changes nothing
      else; a non-numeric value fails and changes nothing. */
  lemma AssignmentOfValue(x: string, e: Expr, env: Env, st: State, steps: nat, v: Value)
    requires x !in env.functions
    requires !HasCall(e) && EvalExpr(e, TopScope, env, st, steps).0 == Ok(v)
    ensures v.Num? ==> EvalStmt(Assign(x, e), env, st, steps) == (Ok(()), AddVariable(st, x, v))
    ensures !v.Num? ==> EvalStmt(Assign(x, e), env, st, steps) == (Raise(Thrown(IllegalArgument)), st)
  {
  }

  /** An assignment to a function's name fails whatever its value. */
  lemma AssignmentToFunctionName(x: string, e: Expr, env: Env, st: State, steps: nat)
    requires x in env.functions
    ensures EvalStmt(Assign(x, e), env, st, steps) == (Raise(Thrown(IllegalArgument)), st)
  {
  }

  /** A print of a call-free, non-parameter expression appends exactly its
      value to the log. */
  lemma PrintAppendsValue(e: Expr, env: Env, st: State, steps: nat, v: Value)
    requires !e.Parameter? && !HasCall(e) && EvalExpr(e, TopScope, env, st, steps).0 == Ok(v)
    ensures EvalStmt(Print(e), env, st, steps) == (Ok(()), AddPrintOut(st, v))
    ensures EvalStmt(Print(e), env, st, steps).1.printOuts == st.printOuts + [v]
  {
  }

  /** `!` negates a boolean operand; a null operand fails with a
      NullPointerException and any other value with a ClassCastException.
      A call-free operand leaves the state as it was. */
  lemma NotOfValue(x: Expr, sc: Scope, env: Env, st: State, steps: nat, v: Value)
    requires !HasCall(x) && EvalExpr(x, sc, env, st, steps).0 == Ok(v)
    ensures v.Bool? ==> EvalExpr(Not(x), sc, env, st, steps) == (Ok(Bool(!v.truth)), st)
    ensures v == Null ==> EvalExpr(Not(x), sc, env, st, steps) == (Raise(Thrown(NullPointer)), st)
    ensures !v.Bool? && v != Null ==> EvalExpr(Not(x), sc, env, st, steps) == (Raise(Thrown(ClassCast)), st)
  {
  }

  /** A field read evaluates its operand with the program only: no
      argument list and no function scope, whatever scope it is read in.
      An entity gives its field, null a NullPointerException and any other
      value a ClassCastException. */
  lemma FieldReadIgnoresScope(fd: Field, x: Expr, sc: Scope, env: Env, st: State, steps: nat, v: Value)
    requires !HasCall(x) && EvalExpr(x, TopScope, env, st, steps).0 == Ok(v)
    ensures v.Ent? ==> EvalExpr(FieldOf(fd, x), sc, env, st, steps) == (Ok(Num(FieldValue(fd, env.around, v.entity))), st)
    ensures v == Null ==> EvalExpr(FieldOf(fd, x), sc, env, st, steps) == (Raise(Thrown(NullPointer)), st)
    ensures !v.Ent? && v != Null ==> EvalExpr(FieldOf(fd, x), sc, env, st, steps) == (Raise(Thrown(ClassCast)), st)
  {
  }

  /** Inside a function, a field read of a local variable looks the name up
      among the globals only: with no global of that name it fails with an
      IllegalArgumentException, although the local holds an entity. */
  lemma FieldReadOfLocalReadsGlobal(fd: Field, x: string, args: seq<real>, g: string, env: Env, st: State, steps: nat, id: EntityId)
    requires x in LocalsOf(st, g) && LocalsOf(st, g)[x] == Ent(id)
    requires x !in st.globals
    ensures EvalExpr(Variable(x), Scope(Some(args), Some(g)), env, st, steps) == (Ok(Ent(id)), st)
    ensures EvalExpr(FieldOf(fd, Variable(x)), Scope(Some(args), Some(g)), env, st, steps) == (Raise(Thrown(IllegalArgument)), st)
  {
  }

  /** At the top level a `return` fails with an IllegalArgumentException,
      so does a `print` of a parameter, and a `break` raises the break
      signal; none of them changes the state. */
  lemma TopLevelErrorPaths(e: Expr, p: string, env: Env, st: State, steps: nat)
    ensures EvalStmt(Return(e), env, st, steps) == (Raise(Thrown(IllegalArgument)), st)
    ensures EvalStmt(Print(Parameter(p)), env, st, steps) == (Raise(Thrown(IllegalArgument)), st)
    ensures EvalStmt(Break, env, st, steps) == (Raise(BreakSignal), st)
  {
  }

  /** A loop whose condition is false, or which has broken before, ends at
      once without running its body. */
  lemma LoopEndsWithoutBody(w: Stmt, env: Env, st: State, steps: nat, b: bool)
    requires w.While? && !HasCall(w.condition)
    requires EvalExpr(w.condition, TopScope, env, st, steps).0 == Ok(Bool(b))
    requires !b || w.id in st.broken
    ensures EvalWhile(w, env, st, steps) == (Ok(()), st)
    ensures SkipWhile(w, None, env, st, steps) == (Ok(()), st)
  {
  }

  /** A break raised by the body of a loop, from any depth of sequences
      and if/elses, is caught by that loop: the loop sets its `broken` flag
      and ends normally at the next test of its condition. */
  lemma BreakCaughtByLoop(w: Stmt, env: Env, st: State, steps: nat, b: bool)
    requires w.While? && !HasCall(w.condition) && w.id !in st.broken && steps > 0
    requires EvalExpr(w.condition, TopScope, env, st, steps).0 == Ok(Bool(true))
    requires EvalStmt(w.body, env, st, steps).0 == Raise(BreakSignal)
    requires var st2 := EvalStmt(w.body, env, st, steps).1;
             EvalExpr(w.condition, TopScope, env, st2.(broken := st2.broken + {w.id}), steps - 1).0 == Ok(Bool(b))
    ensures var st2 := EvalStmt(w.body, env, st, steps).1;
            EvalWhile(w, env, st, steps) == (Ok(()), st2.(broken := st2.broken + {w.id}))
  {
    var st2 := EvalStmt(w.body, env, st, steps).1;
    LoopEndsWithoutBody(w, env, st2.(broken := st2.broken + {w.id}), steps - 1, b);
  }

  /** `if c then t else e` with a call-free condition runs exactly the
      branch the condition selects, in normal and in skip mode; with a false
      condition and no else branch it does nothing. */
  lemma IfElseSelectsBranch(c: Expr, t: Stmt, e: Option<Stmt>, loc: Option<Location>, env: Env, st: State, steps: nat, b: bool)
    requires !HasCall(c) && EvalExpr(c, TopScope, env, st, steps).0 == Ok(Bool(b))
    ensures EvalStmt(IfElse(c, t, e), env, st, steps)
            == if b then EvalStmt(t, env, st, steps)
               else if e.Some? then EvalStmt(e.value, env, st, steps)
               else (Ok(()), st)
    ensures SkipStmt(IfElse(c, t, e), loc, env, st, steps)
            == if b then SkipStmt(t, loc, env, st, steps)
               else if e.Some? then SkipStmt(e.value, loc, env, st, steps)
               else (Ok(()), st)
  {
  }

  /** The resume walk of an if/else searches only the branch its condition
      now selects: an anchor in the other branch is not reached, so nothing
      but locals and loop flags changes and the walk does not suspend. */
  lemma SkipMissesAnchorInOtherBranch(c: Expr, t: Stmt, e: Option<Stmt>, loc: Location, env: Env, st: State, steps: nat)
    requires !HasCall(c) && EvalExpr(c, TopScope, env, st, steps).0 == Ok(Bool(true))
    requires !st.mayExecute && loc !in ActionLocations(t)
    ensures var (r, st') := SkipStmt(IfElse(c, t, e), Some(loc), env, st, steps);
            r != Raise(SuspendSignal) && LocalEffect(st, st')
  {
    IfElseSelectsBranch(c, t, e, Some(loc), env, st, steps, true);
    SkipWithoutAnchor(t, Some(loc), env, st, steps);
  }

  /** In a function body, a break raised by a loop body that is not an
      assignment is caught by the loop: its `broken` flag is set and the
      loop ends normally at the next test of its condition. */
  lemma WhileInFunctionCatchesBreak(w: Stmt, args: seq<real>, f: string, env: Env, st: State, steps: nat, b: bool)
    requires w.While? && !w.body.Assign? && !HasCall(w.condition) && w.id !in st.broken && steps > 0
    requires EvalExpr(w.condition, Scope(Some(args), Some(f)), env, st, steps).0 == Ok(Bool(true))
    requires EvalInFunction(w.body, args, f, env, st, steps).0 == Raise(BreakSignal)
    requires var st2 := EvalInFunction(w.body, args, f, env, st, steps).1;
             EvalExpr(w.condition, Scope(Some(args), Some(f)), env, st2.(broken := st2.broken + {w.id}), steps - 1).0 == Ok(Bool(b))
    ensures var st2 := EvalInFunction(w.body, args, f, env, st, steps).1;
            EvalWhileInFunction(w, args, f, env, st, steps) == (Ok(()), st2.(broken := st2.broken + {w.id}))
  {
    var st2 := EvalInFunction(w.body, args, f, env, st, steps).1;
    var st3 := st2.(broken := st2.broken + {w.id});
    assert EvalExpr(w.condition, Scope(Some(args), Some(f)), env, st3, steps - 1).1 == st3;
  }

  /** In a function body, a loop whose body is an assignment writes the
      local and tests its condition again; a signal from the assignment,
      a break included, is not caught by the loop. */
  lemma WhileInFunctionAssignBody(w: Stmt, args: seq<real>, f: string, env: Env, st: State, steps: nat)
    requires w.While? && w.body.Assign? && !HasCall(w.condition) && w.id !in st.broken && steps > 0
    requires EvalExpr(w.condition, Scope(Some(args), Some(f)), env, st, steps).0 == Ok(Bool(true))
    ensures var (r, st2) := AssignLocal(w.body.variable, w.body.value, args, f, env, st, steps);
            (r.Raise? ==> EvalWhileInFunction(w, args, f, env, st, steps) == (Raise(r.signal), st2))
            && (r.Ok? ==> EvalWhileInFunction(w, args, f, env, st, steps) == EvalWhileInFunction(w, args, f, env, st2, steps - 1))
  {
  }

  /** With call-free actual arguments, `updateArgs` changes nothing, and
      succeeds iff every argument yields a number; each position then holds
      its argument's number. */
  lemma {:induction false} UpdateArgsCallFree(actuals: seq<Expr>, sc: Scope, env: Env, st: State, steps: nat)
    requires NoCalls(actuals)
    ensures var (r, st') := UpdateArgs(actuals, sc, env, st, steps);
            st' == st
            && (r.Ok? <==> forall i :: 0 <= i < |actuals| ==> ArgumentNumber(actuals[i], sc, env, st, steps).0.Ok?)
            && (r.Ok? ==> forall i :: 0 <= i < |actuals| ==> r.value[i] == ArgumentNumber(actuals[i], sc, env, st, steps).0.value)
    decreases |actuals|
  {
    if actuals != [] {
      assert !HasCall(actuals[0]);
      assert EvalExpr(actuals[0], sc, env, st, steps).1 == st;
      var (first, st1) := ArgumentNumber(actuals[0], sc, env, st, steps);
      assert st1 == st;
      forall i | 0 <= i < |actuals[1..]|
        ensures actuals[1..][i] == actuals[i + 1] && !HasCall(actuals[1..][i])
      {
      }
      UpdateArgsCallFree(actuals[1..], sc, env, st, steps);
      var (rest, st2) := UpdateArgs(actuals[1..], sc, env, st, steps);
      if first.Ok? && rest.Ok? {
        var r := [first.value] + rest.value;
        assert UpdateArgs(actuals, sc, env, st, steps).0 == Ok(r);
        forall i | 0 < i < |actuals|
          ensures r[i] == ArgumentNumber(actuals[i], sc, env, st, steps).0.value
        {
          assert r[i] == rest.value[i - 1];
        }
      } else if first.Ok? {
        var j :| 0 <= j < |actuals[1..]| && !ArgumentNumber(actuals[1..][j], sc, env, st, steps).0.Ok?;
        assert !ArgumentNumber(actuals[j + 1], sc, env, st, steps).0.Ok?;
      }
    }
  }

  /** The value of a call of a known function with a valid body: the
      arguments are evaluated in the caller's scope, the body runs in
      function mode on those numbers from a fresh local map, and a normal
      result is the call's value with the callee's old map put back. */
  lemma CallEvaluatesBody(f: string, actuals: seq<Expr>, sc: Scope, env: Env, st: State, steps: nat)
    requires f in env.functions && IsValidFunctionBody(env.functions[f]) && steps > 0
    ensures var (args, st1) := UpdateArgs(actuals, sc, env, st, steps);
            args.Raise? ==> CallFunction(f, actuals, sc, env, st, steps) == (Raise(args.signal), st1)
    ensures var (args, st1) := UpdateArgs(actuals, sc, env, st, steps);
            args.Ok? ==>
              var (r, st3) := EvalInFunction(env.functions[f], args.value, f, env, ResetLocals(st1, f), steps - 1);
              CallFunction(f, actuals, sc, env, st, steps)
              == if r.Ok? then (Ok(r.value), SetLocals(st3, f, LocalsOf(st, f))) else (Raise(r.signal), st3)
  {
  }

  /** A call whose body raises a signal (a break or an exception) fails
      with that signal, and the callee keeps the map its body left behind:
      the map saved before the arguments were evaluated is not put back. */
  lemma RaisingCallKeepsBodyLocals(f: string, actuals: seq<Expr>, sc: Scope, env: Env, st: State, steps: nat)
    requires f in env.functions && IsValidFunctionBody(env.functions[f]) && steps > 0
    requires UpdateArgs(actuals, sc, env, st, steps).0.Ok?
    requires var (args, st1) := UpdateArgs(actuals, sc, env, st, steps);
             EvalInFunction(env.functions[f], args.value, f, env, ResetLocals(st1, f), steps - 1).0.Raise?
    ensures var (args, st1) := UpdateArgs(actuals, sc, env, st, steps);
            var (r, st3) := EvalInFunction(env.functions[f], args.value, f, env, ResetLocals(st1, f), steps - 1);
            var (v, st') := CallFunction(f, actuals, sc, env, st, steps);
            v == Raise(r.signal) && st' == st3 && LocalsOf(st', f) == LocalsOf(st3, f)
  {
    CallEvaluatesBody(f, actuals, sc, env, st, steps);
  }

  /** What a function body may change besides the callee's own local map:
      nothing but loop flags when it contains no call. */
  ghost predicate OthersKept(f: string, st: State, st': State)
  {
    forall g :: g != f ==> LocalsOf(st', g) == LocalsOf(st, g)
  }

  lemma {:induction false} InFunctionKeepsOtherLocals(s: Stmt, args: seq<real>, f: string, env: Env, st: State, steps: nat)
    requires !StmtHasCall(s)
    ensures OthersKept(f, st, EvalInFunction(s, args, f, env, st, steps).1)
    decreases steps, StmtSize(s), 1
  {
    match s
    case Sequence(ss) => SequenceInFunctionKeepsOtherLocals(ss, args, f, env, st, steps);
    case IfElse(c, t, e) =>
      var (cv, st1) := EvalExpr(c, Scope(Some(args), Some(f)), env, st, steps);
      assert st1 == st;
      if cv.Ok? && CastBoolean(cv.value).Ok? {
        if CastBoolean(cv.value).value {
          BranchInFunctionKeepsOtherLocals(t, args, f, env, st, steps);
        } else if e.Some? {
          BranchInFunctionKeepsOtherLocals(e.value, args, f, env, st, steps);
        }
      }
    case Return(e) =>
      assert EvalExpr(e, Scope(Some(args), Some(f)), env, st, steps).1 == st;
    case _ =>
  }

  lemma {:induction false} BranchInFunctionKeepsOtherLocals(b: Stmt, args: seq<real>, f: string, env: Env, st: State, steps: nat)
    requires !StmtHasCall(b)
    ensures OthersKept(f, st, BranchInFunction(b, args, f, env, st, steps).1)
    decreases steps, StmtSize(b), 2
  {
    if b.Assign? {
      assert EvalExpr(b.value, Scope(Some(args), Some(f)), env, st, steps).1 == st;
    } else {
      InFunctionKeepsOtherLocals(b, args, f, env, st, steps);
    }
  }

  lemma {:induction false} SequenceInFunctionKeepsOtherLocals(ss: seq<Stmt>, args: seq<real>, f: string, env: Env, st: State, steps: nat)
    requires !AnyHasCall(ss)
    ensures OthersKept(f, st, EvalSequenceInFunction(ss, args, f, env, st, steps).1)
    decreases steps, StmtsSize(ss), 2
  {
    if ss != [] {
      if ss[0].Assign? {
        assert EvalExpr(ss[0].value, Scope(Some(args), Some(f)), env, st, steps).1 == st;
        var (r, st1) := AssignLocal(ss[0].variable, ss[0].value, args, f, env, st, steps);
        if r.Ok? {
          SequenceInFunctionKeepsOtherLocals(ss[1..], args, f, env, st1, steps);
        }
      } else if ss[0].While? {
        WhileInFunctionKeepsOtherLocals(ss[0], args, f, env, st, steps);
        var (r, st1) := EvalWhileInFunction(ss[0], args, f, env, st, steps);
        if r.Ok? {
          SequenceInFunctionKeepsOtherLocals(ss[1..], args, f, env, st1, steps);
        }
      } else {
        InFunctionKeepsOtherLocals(ss[0], args, f, env, st, steps);
      }
    }
  }

  lemma {:induction false} WhileInFunctionKeepsOtherLocals(w: Stmt, args: seq<real>, f: string, env: Env, st: State, steps: nat)
    requires w.While? && !StmtHasCall(w)
    ensures OthersKept(f, st, EvalWhileInFunction(w, args, f, env, st, steps).1)
    decreases steps, StmtSize(w), 1
  {
    var sc := Scope(Some(args), Some(f));
    var (cv, st1) := EvalExpr(w.condition, sc, env, st, steps);
    assert st1 == st;
    if cv.Ok? && CastBoolean(cv.value).Ok? && CastBoolean(cv.value).value && w.id !in st.broken {
      assert StmtSize(w.body) < StmtSize(w);
      if w.body.Assign? {
        assert EvalExpr(w.body.value, sc, env, st, steps).1 == st;
      } else {
        InFunctionKeepsOtherLocals(w.body, args, f, env, st, steps);
      }
      var (r, st2) :=
        if w.body.Assign? then AssignLocal(w.body.variable, w.body.value, args, f, env, st, steps)
        else
          var (v, s2) := EvalInFunction(w.body, args, f, env, st, steps);
          if v.Raise? then (Raise(v.signal), s2) else (Ok(()), s2);
      if !(r.Raise? && (r.signal != BreakSignal || w.body.Assign?)) && steps > 0 {
        var st3 := if r.Raise? then st2.(broken := st2.broken + {w.id}) else st2;
        WhileInFunctionKeepsOtherLocals(w, args, f, env, st3, steps - 1);
      }
    }
  }

  /** A call of a function whose body and arguments contain no call changes
      no other function's local map, and when it returns normally every
      local map is as it was before the call. */
  lemma CallOfCallFreeFunction(f: string, actuals: seq<Expr>, sc: Scope, env: Env, st: State, steps: nat)
    requires f in env.functions && !StmtHasCall(env.functions[f]) && NoCalls(actuals)
    ensures var (v, st') := CallFunction(f, actuals, sc, env, st, steps);
            OthersKept(f, st, st') && (v.Ok? ==> forall g :: LocalsOf(st', g) == LocalsOf(st, g))
  {
    UpdateArgsCallFree(actuals, sc, env, st, steps);
    var (args, st1) := UpdateArgs(actuals, sc, env, st, steps);
    if args.Ok? && IsValidFunctionBody(env.functions[f]) && steps > 0 {
      InFunctionKeepsOtherLocals(env.functions[f], args.value, f, env, ResetLocals(st1, f), steps - 1);
    }
  }

  /** Skip mode over a statement that does not hold the anchor, with
      may-execute cleared, runs no assignment, print or action: only
      function locals and loop flags (through conditions) can change, and
      it never suspends. */
  lemma {:induction false} SkipWithoutAnchor(s: Stmt, loc: Option<Location>, env: Env, st: State, steps: nat)
    requires !st.mayExecute
    requires loc.None? || loc.value !in ActionLocations(s)
    ensures LocalEffect(st, SkipStmt(s, loc, env, st, steps).1)
    ensures SkipStmt(s, loc, env, st, steps).0 != Raise(SuspendSignal)
    decreases steps, StmtSize(s), 1
  {
    match s
    case Sequence(ss) => SkipSeqWithoutAnchor(ss, loc, env, st, steps);
    case IfElse(c, t, e) =>
      var (cv, st1) := EvalExpr(c, TopScope, env, st, steps);
      if cv.Ok? && CastBoolean(cv.value).Ok? {
        if CastBoolean(cv.value).value {
          SkipWithoutAnchor(t, loc, env, st1, steps);
        } else if e.Some? {
          SkipWithoutAnchor(e.value, loc, env, st1, steps);
        }
      }
    case While(_, _, _) => SkipWhileWithoutAnchor(s, loc, env, st, steps);
    case _ =>
  }

  lemma {:induction false} SkipSeqWithoutAnchor(ss: seq<Stmt>, loc: Option<Location>, env: Env, st: State, steps: nat)
    requires !st.mayExecute
    requires loc.None? || loc.value !in ActionLocationsOf(ss)
    ensures LocalEffect(st, SkipSeq(ss, loc, env, st, steps).1)
    ensures SkipSeq(ss, loc, env, st, steps).0 != Raise(SuspendSignal)
    decreases steps, StmtsSize(ss), 2
  {
    if ss != [] {
      SkipWithoutAnchor(ss[0], loc, env, st, steps);
      var (r, st1) := SkipStmt(ss[0], loc, env, st, steps);
      if r.Ok? {
        SkipSeqWithoutAnchor(ss[1..], loc, env, st1, steps);
      }
    }
  }

  lemma {:induction false} SkipWhileWithoutAnchor(w: Stmt, loc: Option<Location>, env: Env, st: State, steps: nat)
    requires w.While? && !st.mayExecute
    requires loc.None? || loc.value !in ActionLocations(w)
    ensures LocalEffect(st, SkipWhile(w, loc, env, st, steps).1)
    ensures SkipWhile(w, loc, env, st, steps).0 != Raise(SuspendSignal)
    decreases steps, StmtSize(w), 0
  {
    var (cv, st1) := EvalExpr(w.condition, TopScope, env, st, steps);
    if cv.Ok? && CastBoolean(cv.value).Ok? && CastBoolean(cv.value).value && w.id !in st1.broken {
      SkipWithoutAnchor(w.body, loc, env, st1, steps);
      var (r, st2) := SkipStmt(w.body, loc, env, st1, steps);
      if !(r.Raise? && r.signal != BreakSignal) && steps > 0 {
        var st3 := if r.Raise? then st2.(broken := st2.broken + {w.id}) else st2;
        SkipWhileWithoutAnchor(w, loc, env, st3, steps - 1);
      }
    }
  }

  /** Once may-execute is set, the resume walk of a sequence is plain
      evaluation: a call that follows a run that completed after an action
      evaluates the whole sequence again. */
  lemma {:induction false} SkipSeqOnceExecuting(ss: seq<Stmt>, loc: Option<Location>, env: Env, st: State, steps: nat)
    requires st.mayExecute
    ensures SkipSeq(ss, loc, env, st, steps) == EvalSeq(ss, env, st, steps)
    decreases |ss|
  {
    if ss != [] {
      var (r, st1) := EvalStmt(ss[0], env, st, steps);
      if r.Ok? {
        SkipSeqOnceExecuting(ss[1..], loc, env, st1, steps);
      }
    }
  }

  /** Turning by a call-free numeric angle with fuel for the action turns
      the ship by exactly that angle when the new orientation lies in
      [0, 2π), and otherwise fails with an IllegalArgumentException with the
      price paid and the ship unchanged. */
  lemma TurnByAngle(angle: Expr, loc: Location, env: Env, st: State, steps: nat, a: real)
    requires st.timeLeft >= Cost
    requires !HasCall(angle) && EvalExpr(angle, TopScope, env, st.(mayExecute := true, timeLeft := st.timeLeft - Cost), steps).0 == Ok(Num(a))
    ensures var o := st.ship.orientation + a;
            var paid := st.(mayExecute := true, timeLeft := st.timeLeft - Cost);
            EvalAction(Turn(angle), loc, env, st, steps)
            == if 0.0 <= o < TwoPi then (Ok(()), paid.(ship := ShipState(o, st.ship.effects + [Turned(a)])))
               else (Raise(Thrown(IllegalArgument)), paid)
  {
  }

  /** A function whose body returns its first argument plus one. */
  const Increment: Stmt := Return(Arith(Add, Parameter("$1"), Literal(1.0)))

  /** Calling it on 2 yields 3, and afterwards every function sees the
      local map it had before the call. */
  lemma CallRestoresLocals(env: Env, st: State, steps: nat)
    requires "inc" in env.functions && env.functions["inc"] == Increment && steps > 0
    ensures var (v, st') := EvalExpr(Call("inc", [Literal(2.0)]), TopScope, env, st, steps);
            v == Ok(Num(3.0)) && st' == st.(locals := st'.locals)
            && forall g :: LocalsOf(st', g) == LocalsOf(st, g)
  {
    assert DigitsValue("1") == 1;
    assert ParseInt("1") == Ok(1);
    assert ParameterNumber("$1") == Ok(1);
    var st2 := ResetLocals(st, "inc");
    var sc := Scope(Some([2.0]), Some("inc"));
    assert UpdateArgs([Literal(2.0)], TopScope, env, st, steps) == (Ok([2.0]), st) by {
      assert [Literal(2.0)][1..] == [];
      assert ArgumentNumber(Literal(2.0), TopScope, env, st, steps) == (Ok(2.0), st);
      assert UpdateArgs([], TopScope, env, st, steps) == (Ok([]), st);
      assert [2.0] + [] == [2.0];
    }
    assert BinarySlots(Parameter("$1"), Literal(1.0), Some([2.0])) == Ok((Some(2.0), None));
    SolvePlainNumber(Literal(1.0), sc, env, st2, steps - 1, 1.0);
    assert EvalInFunction(Increment, [2.0], "inc", env, st2, steps - 1) == (Ok(Num(3.0)), st2);
  }

  /** A function whose body breaks. */
  const Breaking: Stmt := Sequence([Break, Return(Literal(0.0))])

  /** A call whose body breaks leaves the callee's local map reset: the
      map in place before the call is not put back. */
  lemma BreakingCallKeepsResetLocals(env: Env, st: State, steps: nat)
    requires "brk" in env.functions && env.functions["brk"] == Breaking && steps > 0
    requires LocalsOf(st, "brk") != map[]
    ensures var (v, st') := EvalExpr(Call("brk", []), TopScope, env, st, steps);
            v == Raise(BreakSignal) && LocalsOf(st', "brk") == map[] != LocalsOf(st, "brk")
  {
    assert ContainsStatement(Return(Literal(0.0)), "ReturnStatement");
    assert Breaking.statements[1..] == [Return(Literal(0.0))];
    assert ContainsAny(Breaking.statements[1..], "ReturnStatement");
    assert IsValidFunctionBody(Breaking);
    assert UpdateArgs([], TopScope, env, st, steps) == (Ok([]), st);
    var st2 := ResetLocals(st, "brk");
    assert EvalSequenceInFunction(Breaking.statements, [], "brk", env, st2, steps - 1) == (Raise(BreakSignal), st2);
    assert EvalInFunction(Breaking, [], "brk", env, st2, steps - 1) == (Raise(BreakSignal), st2);
    assert CallFunction("brk", [], TopScope, env, st, steps) == (Raise(BreakSignal), st2);
  }

  /** A function whose loop calls `brk` and catches its break, then
      returns 1. */
  const Catching: Stmt :=
    Sequence([While(7, Arith(LessThan, Literal(0.0), Literal(1.0)), Return(Call("brk", []))),
              Return(Literal(1.0))])

  /** `0 < 1` holds in every scope and state. */
  lemma ZeroBelowOne(sc: Scope, env: Env, t: State, k: nat)
    ensures EvalExpr(Arith(LessThan, Literal(0.0), Literal(1.0)), sc, env, t, k) == (Ok(Bool(true)), t)
  {
    assert BinarySlots(Literal(0.0), Literal(1.0), sc.args) == Ok((None, None));
    SolvePlainNumber(Literal(0.0), sc, env, t, k, 0.0);
    SolvePlainNumber(Literal(1.0), sc, env, t, k, 1.0);
  }

  /** A call of `brk` from any scope breaks and resets its map. */
  lemma BreakingCall(sc: Scope, env: Env, t: State, k: nat)
    requires "brk" in env.functions && env.functions["brk"] == Breaking && k > 0
    ensures CallFunction("brk", [], sc, env, t, k) == (Raise(BreakSignal), ResetLocals(t, "brk"))
  {
    assert ContainsStatement(Return(Literal(0.0)), "ReturnStatement");
    assert Breaking.statements[1..] == [Return(Literal(0.0))];
    assert ContainsAny(Breaking.statements[1..], "ReturnStatement");
    assert IsValidFunctionBody(Breaking);
    assert UpdateArgs([], sc, env, t, k) == (Ok([]), t);
    var t2 := ResetLocals(t, "brk");
    assert EvalSequenceInFunction(Breaking.statements, [], "brk", env, t2, k - 1) == (Raise(BreakSignal), t2);
  }

  /** The loop of `catch` catches the break of `brk` and ends. */
  lemma CatchingLoop(env: Env, t: State, k: nat)
    requires "brk" in env.functions && env.functions["brk"] == Breaking
    requires k > 1 && 7 !in t.broken
    ensures var t3 := ResetLocals(t, "brk").(broken := t.broken + {7});
            EvalWhileInFunction(Catching.statements[0], [], "catch", env, t, k) == (Ok(()), t3)
  {
    var sc := Scope(Some([]), Some("catch"));
    var w := Catching.statements[0];
    var t2 := ResetLocals(t, "brk");
    var t3 := t2.(broken := t2.broken + {7});
    ZeroBelowOne(sc, env, t, k);
    ZeroBelowOne(sc, env, t3, k - 1);
    BreakingCall(sc, env, t, k);
    assert EvalInFunction(w.body, [], "catch", env, t, k) == (Raise(BreakSignal), t2);
    assert EvalWhileInFunction(w, [], "catch", env, t3, k - 1) == (Ok(()), t3);
  }

  /** The body of `catch` returns 1 after its loop caught the break. */
  lemma CatchingBody(env: Env, t: State, k: nat)
    requires "brk" in env.functions && env.functions["brk"] == Breaking
    requires k > 1 && 7 !in t.broken
    ensures var t3 := ResetLocals(t, "brk").(broken := t.broken + {7});
            EvalInFunction(Catching, [], "catch", env, t, k) == (Ok(Num(1.0)), t3)
  {
    CatchingLoop(env, t, k);
    var t3 := ResetLocals(t, "brk").(broken := t.broken + {7});
    assert Catching.statements[1..] == [Return(Literal(1.0))];
    assert EvalSequenceInFunction(Catching.statements[1..], [], "catch", env, t3, k) == (Ok(Num(1.0)), t3);
  }

  /** A break that escapes a nested call and is caught by a loop of the
      caller leaves the nested callee's map reset, although the outer call
      returns normally. */
  lemma CaughtBreakKeepsResetLocals(env: Env, st: State, steps: nat)
    requires "brk" in env.functions && env.functions["brk"] == Breaking
    requires "catch" in env.functions && env.functions["catch"] == Catching
    requires steps > 2 && 7 !in st.broken && LocalsOf(st, "brk") != map[]
    ensures var (v, st') := EvalExpr(Call("catch", []), TopScope, env, st, steps);
            v == Ok(Num(1.0)) && LocalsOf(st', "brk") == map[] != LocalsOf(st, "brk")
  {
    assert Catching.statements[1..] == [Return(Literal(1.0))];
    assert ContainsStatement(Return(Literal(1.0)), "ReturnStatement");
    assert ContainsAny(Catching.statements[1..], "ReturnStatement");
    assert IsValidFunctionBody(Catching);
    assert UpdateArgs([], TopScope, env, st, steps) == (Ok([]), st);
    var st0 := ResetLocals(st, "catch");
    CatchingBody(env, st0, steps - 1);
    var st3 := ResetLocals(st0, "brk").(broken := st0.broken + {7});
    var st4 := SetLocals(st3, "catch", LocalsOf(st, "catch"));
    assert CallFunction("catch", [], TopScope, env, st, steps) == (Ok(Num(1.0)), st4);
    assert LocalsOf(st4, "brk") == LocalsOf(st3, "brk") == map[];
  }

  /** The anchor of the resume example. */
  const Anchor := Location(2, 1)

  /** `print 1; fire; print 2;`. */
  const Main: Stmt := Sequence([Print(Literal(1.0)), Action(Fire, Anchor), Print(Literal(2.0))])

  /** The state after the first call. */
  function AfterFirstCall(ship: ShipState): State
  {
    InitialState(ship).(timeLeft := 0.1, printOuts := [Num(1.0)], location := Some(Anchor))
  }

  /** The first call, with fuel for less than one action, prints 1 and
      suspends at the fire action. */
  lemma FirstCallSuspends(env: Env, ship: ShipState)
    ensures var (x, st) := Executed(Main, env, InitialState(ship), true, 0.1, 0);
            x == Suspended && st == AfterFirstCall(ship)
  {
    var ss := Main.statements;
    var st0 := InitialState(ship).(timeLeft := 0.1);
    var st1 := AddPrintOut(st0, Num(1.0));
    var st2 := st1.(location := Some(Anchor), mayExecute := false);
    assert st1.printOuts == [Num(1.0)];
    assert EvalStmt(ss[0], env, st0, 0) == (Ok(()), st1);
    assert EvalStmt(ss[1], env, st1, 0) == (Raise(SuspendSignal), st2);
    assert ss[1..][0] == ss[1];
    assert EvalSeq(ss[1..], env, st1, 0) == (Raise(SuspendSignal), st2);
    assert EvalSeq(ss, env, st0, 0) == (Raise(SuspendSignal), st2);
    assert EvalStmt(Main, env, st0, 0) == (Raise(SuspendSignal), st2);
  }

  /** The state after the second call: 1 and 2 printed, one shot fired,
      may-execute set, 0.1 of fuel left. */
  function AfterSecondCall(ship: ShipState): State
  {
    AfterFirstCall(ship).(timeLeft := 0.1, mayExecute := true, printOuts := [Num(1.0), Num(2.0)],
                          ship := ship.(effects := ship.effects + [Fired]))
  }

  /** The second call walks past the print that already ran, performs the
      fire action it stopped at, and runs the rest normally: 1 is not
      printed again. */
  lemma SecondCallResumes(env: Env, ship: ShipState)
    ensures var (x, st') := Executed(Main, env, AfterFirstCall(ship), false, 0.2, 0);
            x == PrintOuts([Num(1.0), Num(2.0)]) && st' == AfterSecondCall(ship)
  {
    var ss := Main.statements;
    var st0 := AfterFirstCall(ship).(timeLeft := 0.1 + 0.2);
    assert SkipStmt(ss[0], Some(Anchor), env, st0, 0) == (Ok(()), st0);
    var st1 := st0.(mayExecute := true, timeLeft := 0.1, ship := st0.ship.(effects := ship.effects + [Fired]));
    assert SkipStmt(ss[1], Some(Anchor), env, st0, 0) == (Ok(()), st1);
    var st2 := AddPrintOut(st1, Num(2.0));
    assert EvalStmt(ss[2], env, st1, 0) == (Ok(()), st2);
    assert ss[1..][1..] == [ss[2]];
    assert ss[1..][1..][1..] == [];
    assert SkipSeq(ss[1..][1..], Some(Anchor), env, st1, 0) == (Ok(()), st2);
    assert SkipSeq(ss[1..], Some(Anchor), env, st0, 0) == (Ok(()), st2);
    assert SkipSeq(ss, Some(Anchor), env, st0, 0) == (Ok(()), st2);
    assert st2.printOuts == [Num(1.0), Num(2.0)];
  }

  /** The third call, with no new fuel, finds may-execute still set by the
      completed second call, so the walk evaluates the main sequence from
      the start: 1 is printed again, and the fire action suspends anew at
      the same anchor. */
  lemma ThirdCallStartsOver(env: Env, ship: ShipState)
    ensures var (x, st') := Executed(Main, env, AfterSecondCall(ship), false, 0.0, 0);
            x == Suspended && st'.printOuts == [Num(1.0), Num(2.0), Num(1.0)]
            && st'.location == Some(Anchor) && !st'.mayExecute && st'.ship == AfterSecondCall(ship).ship
  {
    var ss := Main.statements;
    var st0 := AfterSecondCall(ship).(timeLeft := 0.1 + 0.0);
    SkipSeqOnceExecuting(ss, Some(Anchor), env, st0, 0);
    var st1 := AddPrintOut(st0, Num(1.0));
    var st2 := st1.(location := Some(Anchor), mayExecute := false);
    assert st1.printOuts == [Num(1.0), Num(2.0), Num(1.0)];
    assert EvalStmt(ss[0], env, st0, 0) == (Ok(()), st1);
    assert EvalStmt(ss[1], env, st1, 0) == (Raise(SuspendSignal), st2);
    assert ss[1..][0] == ss[1];
    assert EvalSeq(ss[1..], env, st1, 0) == (Raise(SuspendSignal), st2);
    assert EvalSeq(ss, env, st0, 0) == (Raise(SuspendSignal), st2);
  }
}
