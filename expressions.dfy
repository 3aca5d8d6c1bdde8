/** Expression evaluation (`getExpressionResult` of every `MyExpression`)
    and function-body evaluation (`evaluateInFunction`,
    `evaluateWhileInFunction`, `assignLocalVariable`), which are mutually
    recursive through function calls.

    Every evaluation is a function from the state before to a result and
    the state after. `steps` bounds the number of function calls and
    while-loop iterations inside function bodies; when it runs out the
    evaluation stops with `Thrown(OutOfSteps)`. Sizes and ranks in the
    `decreases` clauses order the calls within one step. */
module Expressions {
  import opened Values
  import opened Syntax
  import opened Queries
  import opened Parameters
  import opened ProgramState

  /** The value of a parameter as an operand result. */
  function ParameterValue(name: string, args: Option<seq<real>>): (r: Res<Value>)
    ensures r.Ok? <==> ArgumentValue(name, args).Ok?
    ensures r.Ok? ==> r.value == Num(ArgumentValue(name, args).value)
    ensures r.Raise? ==> r.signal == ArgumentValue(name, args).signal
  {
    var a := ArgumentValue(name, args);
    if a.Ok? then Ok(Num(a.value)) else Raise(a.signal)
  }

  /** One slot of `getExpressionParameter`: the argument value of a
      parameter operand, nothing for any other operand. An index out of
      bounds is rethrown as a RuntimeErrorException. */
  function ParameterSlot(x: Expr, args: Option<seq<real>>): (r: Res<Option<real>>)
    ensures !x.Parameter? ==> r == Ok(None)
    ensures x.Parameter? ==> (r.Ok? <==> ArgumentValue(x.name, args).Ok?)
    ensures x.Parameter? && r.Ok? ==> r.value == Some(ArgumentValue(x.name, args).value)
    ensures x.Parameter? && ArgumentValue(x.name, args) == Raise(Thrown(IndexOutOfBounds))
            ==> r == Raise(Thrown(RuntimeError))
  {
    if !x.Parameter? then Ok(None)
    else
      var a := ArgumentValue(x.name, args);
      if a.Ok? then Ok(Some(a.value))
      else if a.signal == Thrown(IndexOutOfBounds) then Raise(Thrown(RuntimeError))
      else Raise(a.signal)
  }

  /** `getExpressionParameter` of a binary expression: the left slot, then
      the right slot. */
  function BinarySlots(l: Expr, r: Expr, args: Option<seq<real>>): (s: Res<(Option<real>, Option<real>)>)
    ensures s.Ok? <==> ParameterSlot(l, args).Ok? && ParameterSlot(r, args).Ok?
    ensures s.Ok? ==> s.value == (ParameterSlot(l, args).value, ParameterSlot(r, args).value)
  {
    var a := ParameterSlot(l, args);
    if a.Raise? then Raise(a.signal)
    else
      var b := ParameterSlot(r, args);
      if b.Raise? then Raise(b.signal) else Ok((a.value, b.value))
  }

  /** `VariableExpression`: inside a function the local binding comes
      first; a missing or null local falls back to the global; a name with
      neither fails. */
  function LookupVariable(x: string, sc: Scope, st: State): (r: Res<Value>)
    ensures r.Ok? ==> r.value != Null
    ensures sc.callee.Some? && x in LocalsOf(st, sc.callee.value) && LocalsOf(st, sc.callee.value)[x] != Null
            ==> r == Ok(LocalsOf(st, sc.callee.value)[x])
    ensures sc.callee.None? || x !in LocalsOf(st, sc.callee.value) || LocalsOf(st, sc.callee.value)[x] == Null
            ==> (r.Ok? <==> x in st.globals && st.globals[x] != Null)
                && (r.Ok? ==> r.value == st.globals[x])
    ensures r.Raise? ==> r.signal == Thrown(IllegalArgument)
  {
    var local := if sc.callee.Some? && x in LocalsOf(st, sc.callee.value)
                 then LocalsOf(st, sc.callee.value)[x] else Null;
    if local != Null then Ok(local)
    else if x in st.globals && st.globals[x] != Null then Ok(st.globals[x])
    else Raise(Thrown(IllegalArgument))
  }

  /** The Java operator of `+`, `*` and `<` on two doubles. */
  function ApplyArith(op: ArithOp, a: real, b: real): (v: Value)
    ensures op == Add ==> v == Num(a + b)
    ensures op == Mul ==> v == Num(a * b)
    ensures op == LessThan ==> v == Bool(a < b)
  {
    match op
    case Add => Num(a + b)
    case Mul => Num(a * b)
    case LessThan => Bool(a < b)
  }

  /** `getExpressionResult(program, actualArgs, function)` of `e`. */
  function EvalExpr(e: Expr, sc: Scope, env: Env, st: State, steps: nat): (out: (Res<Value>, State))
    ensures LocalEffect(st, out.1) && out.0 != Raise(SuspendSignal)
    ensures !HasCall(e) ==> out.1 == st && out.0 != Raise(BreakSignal)
    decreases steps, ExprSize(e), 0
  {
    match e
    case Literal(v) => (Ok(Num(v)), st)
    case Variable(x) => (LookupVariable(x, sc, st), st)
    case Parameter(x) => (ParameterValue(x, sc.args), st)
    case Arith(op, l, r) =>
      // solveLeftOperand and solveRightOperand both compute the slots from
      // the same argument list, so they agree; the left operand is
      // resolved first.
      var slots := BinarySlots(l, r, sc.args);
      if slots.Raise? then (Raise(slots.signal), st)
      else
        var (a, st1) := SolveOperand(l, slots.value.0, sc, env, st, steps);
        if a.Raise? then (Raise(a.signal), st1)
        else
          var (b, st2) := SolveOperand(r, slots.value.1, sc, env, st1, steps);
          if b.Raise? then (Raise(b.signal), st2)
          else (Ok(ApplyArith(op, a.value, b.value)), st2)
    case EqualsTo(l, r) =>
      // A parameter operand is read from its argument, which is exactly
      // what evaluating the parameter does.
      var (a, st1) := EvalExpr(l, sc, env, st, steps);
      if a.Raise? then (Raise(a.signal), st1)
      else
        var (b, st2) := EvalExpr(r, sc, env, st1, steps);
        if b.Raise? then (Raise(b.signal), st2)
        else if a.value == Null then (Raise(Thrown(NullPointer)), st2)
        else (Ok(Bool(a.value == b.value)), st2)
    case Unary(op, x) =>
      var slot := ParameterSlot(x, sc.args);
      if slot.Raise? then (Raise(slot.signal), st)
      else
        var (a, st1) := SolveOperand(x, slot.value, sc, env, st, steps);
        if a.Raise? then (Raise(a.signal), st1)
        else if op == Negate then (Ok(Num(-a.value)), st1)
        else if a.value >= 0.0 then (Ok(Num(env.sqrt(a.value))), st1)
        else (Raise(Thrown(IllegalArgument)), st1)
    case Not(x) =>
      var (a, st1) := EvalExpr(x, sc, env, st, steps);
      if a.Raise? then (Raise(a.signal), st1)
      else
        var b := CastBoolean(a.value);
        if b.Raise? then (Raise(b.signal), st1) else (Ok(Bool(!b.value)), st1)
    case Call(f, actuals) => CallFunction(f, actuals, sc, env, st, steps)
    case Entity(q) => (QueryValue(q, env.around), st)
    case FieldOf(field, x) =>
      // The operand is evaluated with the program only.
      var (a, st1) := EvalExpr(x, TopScope, env, st, steps);
      if a.Raise? then (Raise(a.signal), st1)
      else
        var ent := CastEntity(a.value);
        if ent.Raise? then (Raise(ent.signal), st1)
        else (Ok(Num(FieldValue(field, env.around, ent.value))), st1)
    case Direction => (Ok(Num(st.ship.orientation)), st)
  }

  /** `canHaveAsArithmeticOperand`: a parameter is accepted unevaluated;
      any other operand is evaluated and accepted iff it yields a number. */
  function CanHaveAsArithmeticOperand(x: Expr, sc: Scope, env: Env, st: State, steps: nat): (out: (Res<bool>, State))
    ensures LocalEffect(st, out.1) && out.0 != Raise(SuspendSignal)
    ensures !HasCall(x) ==> out.1 == st && out.0 != Raise(BreakSignal)
    ensures x.Parameter? ==> out == (Ok(true), st)
    ensures !x.Parameter? ==> (out.0.Ok? <==> EvalExpr(x, sc, env, st, steps).0.Ok?)
    ensures !x.Parameter? && out.0.Ok? ==> out.0.value == EvalExpr(x, sc, env, st, steps).0.value.Num?
    decreases steps, ExprSize(x), 1
  {
    if x.Parameter? then (Ok(true), st)
    else
      var (a, st1) := EvalExpr(x, sc, env, st, steps);
      if a.Raise? then (Raise(a.signal), st1) else (Ok(a.value.Num?), st1)
  }

  /** `solveOperand` / `solveLeftOperand` / `solveRightOperand`: the slot
      value of a parameter operand; otherwise the operand is checked by
      evaluation and, if numeric, evaluated a second time and cast. */
  function SolveOperand(x: Expr, slot: Option<real>, sc: Scope, env: Env, st: State, steps: nat): (out: (Res<real>, State))
    ensures LocalEffect(st, out.1) && out.0 != Raise(SuspendSignal)
    ensures !HasCall(x) ==> out.1 == st && out.0 != Raise(BreakSignal)
    ensures slot.Some? ==> out == (Ok(slot.value), st)
    decreases steps, ExprSize(x), 2
  {
    if slot.Some? then (Ok(slot.value), st)
    else
      var (ok, st1) := CanHaveAsArithmeticOperand(x, sc, env, st, steps);
      if ok.Raise? then (Raise(ok.signal), st1)
      else if !ok.value then (Raise(Thrown(IllegalArgument)), st1)
      else
        var (a, st2) := EvalExpr(x, sc, env, st1, steps);
        if a.Raise? then (Raise(a.signal), st2)
        else
          var d := CastDouble(a.value);
          if d.Raise? then (Raise(d.signal), st2) else (Ok(d.value), st2)
  }

  /** One step of `updateArgs`: a literal argument stays as it is, any
      other argument becomes the number it evaluates to; a null value fails
      at unboxing and any other non-number at the `(Double)` cast. */
  function ArgumentNumber(e: Expr, sc: Scope, env: Env, st: State, steps: nat): (out: (Res<real>, State))
    ensures LocalEffect(st, out.1) && out.0 != Raise(SuspendSignal)
    ensures e.Literal? ==> out == (Ok(e.value), st)
    ensures !e.Literal? ==> var (a, st1) := EvalExpr(e, sc, env, st, steps);
                            out.1 == st1 && (out.0.Ok? <==> a.Ok? && a.value.Num?)
                            && (out.0.Ok? ==> out.0.value == a.value.num)
                            && (a == Ok(Null) ==> out.0 == Raise(Thrown(NullPointer)))
    decreases steps, ExprSize(e), 1
  {
    if e.Literal? then (Ok(e.value), st)
    else
      var (a, st1) := EvalExpr(e, sc, env, st, steps);
      if a.Raise? then (Raise(a.signal), st1)
      else if a.value == Null then (Raise(Thrown(NullPointer)), st1)
      else if !a.value.Num? then (Raise(Thrown(ClassCast)), st1)
      else (Ok(a.value.num), st1)
  }

  /** `updateArgs`: every actual argument that is not a literal is
      evaluated in the caller's scope and replaced by a literal of its
      value; a result that is not a Double fails the cast, and a null one
      fails when it is unboxed. */
  function UpdateArgs(actuals: seq<Expr>, sc: Scope, env: Env, st: State, steps: nat): (out: (Res<seq<real>>, State))
    ensures LocalEffect(st, out.1) && out.0 != Raise(SuspendSignal)
    ensures out.0.Ok? ==> |out.0.value| == |actuals|
    ensures out.0.Ok? ==> forall i :: 0 <= i < |actuals| && actuals[i].Literal? ==> out.0.value[i] == actuals[i].value
    decreases steps, ExprsSize(actuals), 2
  {
    if actuals == [] then (Ok([]), st)
    else
      var (first, st1) := ArgumentNumber(actuals[0], sc, env, st, steps);
      if first.Raise? then (Raise(first.signal), st1)
      else
        var (rest, st2) := UpdateArgs(actuals[1..], sc, env, st1, steps);
        if rest.Raise? then (Raise(rest.signal), st2)
        else (Ok([first.value] + rest.value), st2)
  }

  /** `FunctionExpression.getExpressionResult`: look the function up,
      remember its local map, evaluate the arguments, give it a fresh local
      map, check and run the body in function mode, and put the remembered
      map back. When the body (or the argument evaluation) raises, the map
      is not put back. */
  function CallFunction(f: string, actuals: seq<Expr>, sc: Scope, env: Env, st: State, steps: nat): (out: (Res<Value>, State))
    ensures LocalEffect(st, out.1) && out.0 != Raise(SuspendSignal)
    ensures f !in env.functions ==> out == (Raise(Thrown(IllegalArgument)), st)
    ensures out.0.Ok? ==> LocalsOf(out.1, f) == LocalsOf(st, f)
    ensures f in env.functions && !IsValidFunctionBody(env.functions[f]) ==> out.0.Raise?
    decreases steps, ExprsSize(actuals), 3
  {
    if f !in env.functions then (Raise(Thrown(IllegalArgument)), st)
    else
      var saved := LocalsOf(st, f);
      var (args, st1) := UpdateArgs(actuals, sc, env, st, steps);
      if args.Raise? then (Raise(args.signal), st1)
      else
        var st2 := ResetLocals(st1, f);
        var body := env.functions[f];
        if !IsValidFunctionBody(body) then (Raise(Thrown(IllegalArgument)), st2)
        else if steps == 0 then (Raise(Thrown(OutOfSteps)), st2)
        else
          var (r, st3) := EvalInFunction(body, args.value, f, env, st2, steps - 1);
          if r.Raise? then (Raise(r.signal), st3)
          else (Ok(r.value), SetLocals(st3, f, saved))
  }

  /** `assignLocalVariable`: evaluates the expression in the function's
      scope and binds it in the function's current local map, whatever the
      value. */
  function AssignLocal(x: string, e: Expr, args: seq<real>, f: string, env: Env, st: State, steps: nat): (out: (Res<()>, State))
    ensures LocalEffect(st, out.1) && out.0 != Raise(SuspendSignal)
    ensures out.0.Ok? ==> var (v, st1) := EvalExpr(e, Scope(Some(args), Some(f)), env, st, steps);
                          v.Ok? && out.1 == AddLocal(st1, f, x, v.value)
    decreases steps, ExprSize(e), 1
  {
    var (v, st1) := EvalExpr(e, Scope(Some(args), Some(f)), env, st, steps);
    if v.Raise? then (Raise(v.signal), st1) else (Ok(()), AddLocal(st1, f, x, v.value))
  }

  /** `evaluateInFunction` of a statement inside the body of `f`. Only
      sequences, if/else, break and return override the default, which
      fails; a while reached here also fails, since only a sequence runs a
      while in function mode. */
  function EvalInFunction(s: Stmt, args: seq<real>, f: string, env: Env, st: State, steps: nat): (out: (Res<Value>, State))
    ensures LocalEffect(st, out.1) && out.0 != Raise(SuspendSignal)
    ensures s.Assign? || s.While? || s.Print? || s.Action? ==> out == (Raise(Thrown(IllegalArgument)), st)
    ensures s.Break? ==> out == (Raise(BreakSignal), st)
    ensures s.Return? ==> out == EvalExpr(s.value, Scope(Some(args), Some(f)), env, st, steps)
    decreases steps, StmtSize(s), 1
  {
    match s
    case Sequence(ss) => EvalSequenceInFunction(ss, args, f, env, st, steps)
    case IfElse(c, t, e) =>
      var (cv, st1) := EvalExpr(c, Scope(Some(args), Some(f)), env, st, steps);
      if cv.Raise? then (Raise(cv.signal), st1)
      else
        var b := CastBoolean(cv.value);
        if b.Raise? then (Raise(b.signal), st1)
        else if b.value then BranchInFunction(t, args, f, env, st1, steps)
        else if e.Some? then BranchInFunction(e.value, args, f, env, st1, steps)
        else (Ok(Null), st1)
    case Break => (Raise(BreakSignal), st)
    case Return(e) => EvalExpr(e, Scope(Some(args), Some(f)), env, st, steps)
    case _ => (Raise(Thrown(IllegalArgument)), st)
  }

  /** A branch of an if/else inside a function: an assignment writes a
      local and yields null; any other branch yields its own value. */
  function BranchInFunction(b: Stmt, args: seq<real>, f: string, env: Env, st: State, steps: nat): (out: (Res<Value>, State))
    ensures LocalEffect(st, out.1) && out.0 != Raise(SuspendSignal)
    ensures b.Assign? && out.0.Ok? ==> out.0.value == Null
    ensures !b.Assign? ==> out == EvalInFunction(b, args, f, env, st, steps)
    decreases steps, StmtSize(b), 2
  {
    if b.Assign? then
      var (r, st1) := AssignLocal(b.variable, b.value, args, f, env, st, steps);
      if r.Raise? then (Raise(r.signal), st1) else (Ok(Null), st1)
    else EvalInFunction(b, args, f, env, st, steps)
  }

  /** `SequenceStatement.evaluateInFunction`: assignments write locals and
      whiles run in function mode; the first other statement's value is the
      sequence's value, so the statements after it never run; a sequence of
      only assignments and whiles yields null. */
  function EvalSequenceInFunction(ss: seq<Stmt>, args: seq<real>, f: string, env: Env, st: State, steps: nat): (out: (Res<Value>, State))
    ensures LocalEffect(st, out.1) && out.0 != Raise(SuspendSignal)
    ensures ss == [] ==> out == (Ok(Null), st)
    ensures ss != [] && !ss[0].Assign? && !ss[0].While? ==> out == EvalInFunction(ss[0], args, f, env, st, steps)
    ensures (forall i :: 0 <= i < |ss| ==> ss[i].Assign? || ss[i].While?) && out.0.Ok? ==> out.0.value == Null
    decreases steps, StmtsSize(ss), 2
  {
    if ss == [] then (Ok(Null), st)
    else if ss[0].Assign? then
      assert ExprSize(ss[0].value) < StmtSize(ss[0]) <= StmtsSize(ss);
      var (r, st1) := AssignLocal(ss[0].variable, ss[0].value, args, f, env, st, steps);
      if r.Raise? then (Raise(r.signal), st1)
      else EvalSequenceInFunction(ss[1..], args, f, env, st1, steps)
    else if ss[0].While? then
      var (r, st1) := EvalWhileInFunction(ss[0], args, f, env, st, steps);
      if r.Raise? then (Raise(r.signal), st1)
      else EvalSequenceInFunction(ss[1..], args, f, env, st1, steps)
    else EvalInFunction(ss[0], args, f, env, st, steps)
  }

  /** `evaluateWhileInFunction`: while the condition holds and the loop is
      not broken, run the body; an assignment body writes a local (outside
      the handler), any other body runs in function mode with its value
      discarded, and a break from it sets the loop's `broken` flag. */
  function EvalWhileInFunction(w: Stmt, args: seq<real>, f: string, env: Env, st: State, steps: nat): (out: (Res<()>, State))
    requires w.While?
    ensures LocalEffect(st, out.1) && out.0 != Raise(SuspendSignal)
    ensures !HasCall(w.condition) && !w.body.Assign? ==> out.0 != Raise(BreakSignal)
    ensures var (cv, st1) := EvalExpr(w.condition, Scope(Some(args), Some(f)), env, st, steps);
            cv.Ok? && cv.value.Bool? && (!cv.value.truth || w.id in st1.broken) ==> out == (Ok(()), st1)
    decreases steps, StmtSize(w), 1
  {
    var (cv, st1) := EvalExpr(w.condition, Scope(Some(args), Some(f)), env, st, steps);
    if cv.Raise? then (Raise(cv.signal), st1)
    else
      var b := CastBoolean(cv.value);
      if b.Raise? then (Raise(b.signal), st1)
      else if !b.value || w.id in st1.broken then (Ok(()), st1)
      else
        assert StmtSize(w.body) < StmtSize(w);
        var (r, st2) :=
          if w.body.Assign? then AssignLocal(w.body.variable, w.body.value, args, f, env, st1, steps)
          else
            var (v, s2) := EvalInFunction(w.body, args, f, env, st1, steps);
            if v.Raise? then (Raise(v.signal), s2) else (Ok(()), s2);
        if r.Raise? && (r.signal != BreakSignal || w.body.Assign?) then (Raise(r.signal), st2)
        else
          var st3 := if r.Raise? then st2.(broken := st2.broken + {w.id}) else st2;
          if steps == 0 then (Raise(Thrown(OutOfSteps)), st3)
          else EvalWhileInFunction(w, args, f, env, st3, steps - 1)
  }
}
