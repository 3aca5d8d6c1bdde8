/** `Program`: the object that owns a ship program's state and runs it one
    `execute(dt)` at a time. Its fields are updated in place by methods
    whose loops walk sequences and while statements the way the Java
    `evaluate` and `skipEvaluationUntilLocation` do; every method is proved
    to produce exactly the result and the new state the functional
    semantics in `Statements` and `Expressions` give. The local maps of the
    functions and the `broken` flags of the while statements, which Java
    keeps in the `MyFunction` and `WhileStatement` objects, are fields here
    too. */
module ProgramClass {
  import opened Values
  import opened Syntax
  import opened Queries
  import opened ProgramState
  import opened Expressions
  import opened Statements

  /** The function table `setFunctions` builds from a function list: every
      listed name is a key, and a name listed twice keeps its last body. */
  function FunctionTable(fs: seq<Function>): (t: map<string, Stmt>)
    ensures forall f :: f in t <==> exists i :: 0 <= i < |fs| && fs[i].name == f
  {
    if fs == [] then map[]
    else
      var t0 := FunctionTable(fs[..|fs| - 1]);
      assert forall i :: 0 <= i < |fs| - 1 ==> fs[..|fs| - 1][i] == fs[i];
      t0[fs[|fs| - 1].name := fs[|fs| - 1].body]
  }

  /** A function's entry is the body of its last definition in the list. */
  lemma {:induction false} FunctionTableLastWins(fs: seq<Function>, i: nat)
    requires i < |fs|
    requires forall j :: i < j < |fs| ==> fs[j].name != fs[i].name
    ensures fs[i].name in FunctionTable(fs) && FunctionTable(fs)[fs[i].name] == fs[i].body
  {
    if i < |fs| - 1 {
      var init := fs[..|fs| - 1];
      assert init[i] == fs[i];
      FunctionTableLastWins(init, i);
    }
  }

  class Program {
    const main: Stmt
    const functions: map<string, Stmt>
    /** What the program's ship observes of its world. */
    const around: Surroundings
    /** `Math.sqrt`. */
    const sqrt: real -> real

    var timeLeft: real
    var firstTime: bool
    var location: Option<Location>
    var mayExecute: bool
    var variables: map<string, Value>
    var printOuts: seq<Value>
    var locals: map<string, map<string, Value>>
    var broken: set<nat>
    var ship: ShipState

    /** The fixed context the program evaluates in. */
    function Context(): Env
    {
      Env(functions, around, sqrt)
    }

    /** The program's mutable state as one value. */
    function Snapshot(): State
      reads this
    {
      State(variables, locals, broken, timeLeft, location, mayExecute, printOuts, ship)
    }

    /** `new Program(functions, main)` bound to its ship: `setFunctions`
        puts the functions in the table one after another. */
    constructor (fs: seq<Function>, main: Stmt, around: Surroundings, sqrt: real -> real, ship: ShipState)
      ensures this.main == main && this.around == around && this.sqrt == sqrt
      ensures functions == FunctionTable(fs)
      ensures Snapshot() == InitialState(ship) && firstTime
    {
      var table: map<string, Stmt> := map[];
      var i := 0;
      while i < |fs|
        invariant 0 <= i <= |fs|
        invariant table == FunctionTable(fs[..i])
      {
        assert fs[..i + 1][..i] == fs[..i];
        table := table[fs[i].name := fs[i].body];
        i := i + 1;
      }
      assert fs[..|fs|] == fs;
      this.main := main;
      functions := table;
      this.around := around;
      this.sqrt := sqrt;
      timeLeft := 0.0;
      firstTime := true;
      location := None;
      mayExecute := false;
      variables := map[];
      printOuts := [];
      locals := map[];
      broken := {};
      this.ship := ship;
    }

    /** `addTime(dt)`. */
    method AddTime(dt: real)
      modifies this
      ensures Snapshot() == old(Snapshot()).(timeLeft := old(timeLeft) + dt)
      ensures firstTime == old(firstTime)
    {
      timeLeft := timeLeft + dt;
    }

    /** `addVariable(name, value)`. */
    method AddVariable(x: string, v: Value)
      modifies this
      ensures Snapshot() == ProgramState.AddVariable(old(Snapshot()), x, v)
      ensures firstTime == old(firstTime)
    {
      variables := variables[x := v];
    }

    /** `addPrintOut(value)`. */
    method AddPrintOut(v: Value)
      modifies this
      ensures Snapshot() == ProgramState.AddPrintOut(old(Snapshot()), v)
      ensures firstTime == old(firstTime)
    {
      printOuts := printOuts + [v];
    }

    method SetMayExecute()
      modifies this
      ensures Snapshot() == old(Snapshot()).(mayExecute := true)
      ensures firstTime == old(firstTime)
    {
      mayExecute := true;
    }

    method SetMayNotExecute()
      modifies this
      ensures Snapshot() == old(Snapshot()).(mayExecute := false)
      ensures firstTime == old(firstTime)
    {
      mayExecute := false;
    }

    /** `MyFunction.setLocalVariables` of the function named `f`. */
    method SetLocalVariables(f: string, m: map<string, Value>)
      modifies this
      ensures Snapshot() == SetLocals(old(Snapshot()), f, m)
      ensures firstTime == old(firstTime)
    {
      locals := locals[f := m];
    }

    /** `MyFunction.resetLocalVariables`. */
    method ResetLocalVariables(f: string)
      modifies this
      ensures Snapshot() == ResetLocals(old(Snapshot()), f)
      ensures firstTime == old(firstTime)
    {
      SetLocalVariables(f, map[]);
    }

    /** `MyFunction.addLocalVariable`. */
    method AddLocalVariable(f: string, x: string, v: Value)
      modifies this
      ensures Snapshot() == AddLocal(old(Snapshot()), f, x, v)
      ensures firstTime == old(firstTime)
    {
      var m := if f in locals then locals[f] else map[];
      SetLocalVariables(f, m[x := v]);
    }

    /** The body of the `updateArgs` loop for one argument. */
    method EvaluateArgument(e: Expr, sc: Scope, steps: nat) returns (x: Res<real>)
      modifies this
      ensures (x, Snapshot()) == ArgumentNumber(e, sc, Context(), old(Snapshot()), steps)
      ensures firstTime == old(firstTime)
    {
      if e.Literal? { return Ok(e.value); }
      var a := EvaluateExpression(e, sc, steps);
      if a.Raise? { return Raise(a.signal); }
      if a.value == Null { return Raise(Thrown(NullPointer)); }
      if !a.value.Num? { return Raise(Thrown(ClassCast)); }
      x := Ok(a.value.num);
    }

    /** `updateArgs`: a loop over a copy of the actual arguments that turns
        every non-literal into the number it evaluates to, in the caller's
        scope; the first failure ends the loop. */
    method UpdateArguments(actuals: seq<Expr>, sc: Scope, steps: nat) returns (r: Res<seq<real>>)
      modifies this
      ensures (r, Snapshot()) == UpdateArgs(actuals, sc, Context(), old(Snapshot()), steps)
      ensures firstTime == old(firstTime)
    {
      var values: seq<real> := [];
      var i := 0;
      assert actuals[i..] == actuals;
      assert forall q: seq<real> :: values + q == q;
      while i < |actuals|
        invariant 0 <= i <= |actuals| && |values| == i
        invariant var (rest, st') := UpdateArgs(actuals[i..], sc, Context(), Snapshot(), steps);
                  (if rest.Raise? then Raise(rest.signal) else Ok(values + rest.value), st')
                  == UpdateArgs(actuals, sc, Context(), old(Snapshot()), steps)
        invariant firstTime == old(firstTime)
      {
        assert actuals[i..][0] == actuals[i] && actuals[i..][1..] == actuals[i + 1..];
        var x := EvaluateArgument(actuals[i], sc, steps);
        if x.Raise? { return Raise(x.signal); }
        assert forall q: seq<real> :: values + ([x.value] + q) == (values + [x.value]) + q;
        values := values + [x.value];
        i := i + 1;
      }
      assert actuals[i..] == [];
      assert UpdateArgs([], sc, Context(), Snapshot(), steps) == (Ok([]), Snapshot());
      assert values + [] == values;
      r := Ok(values);
    }

    /** `FunctionExpression.getExpressionResult`: remember the callee's
        local map, evaluate the arguments, give the callee a fresh map, check
        and run its body in function mode, and put the remembered map back
        when the body returns normally. */
    method InvokeFunction(f: string, actuals: seq<Expr>, sc: Scope, steps: nat) returns (v: Res<Value>)
      modifies this
      ensures (v, Snapshot()) == CallFunction(f, actuals, sc, Context(), old(Snapshot()), steps)
      ensures firstTime == old(firstTime)
    {
      if f !in functions { return Raise(Thrown(IllegalArgument)); }
      var saved := if f in locals then locals[f] else map[];
      var args := UpdateArguments(actuals, sc, steps);
      if args.Raise? { return Raise(args.signal); }
      ResetLocalVariables(f);
      var body := functions[f];
      if !IsValidFunctionBody(body) { return Raise(Thrown(IllegalArgument)); }
      if steps == 0 { return Raise(Thrown(OutOfSteps)); }
      var (res, st) := EvalInFunction(body, args.value, f, Context(), Snapshot(), steps - 1);
      locals := st.locals;
      broken := st.broken;
      if res.Raise? { return Raise(res.signal); }
      SetLocalVariables(f, saved);
      v := Ok(res.value);
    }

    /** Evaluates an expression; only the functions' local maps and the
        loops' `broken` flags can change. */
    method EvaluateExpression(e: Expr, sc: Scope, steps: nat) returns (v: Res<Value>)
      modifies this
      ensures (v, Snapshot()) == EvalExpr(e, sc, Context(), old(Snapshot()), steps)
      ensures firstTime == old(firstTime)
    {
      var (r, st) := EvalExpr(e, sc, Context(), Snapshot(), steps);
      locals := st.locals;
      broken := st.broken;
      v := r;
    }

    /** `ActionStatement.evaluate`, then the action's `execute`. */
    method EvaluateAction(kind: ActionKind, loc: Location, steps: nat) returns (r: Res<()>)
      modifies this
      ensures (r, Snapshot()) == EvalAction(kind, loc, Context(), old(Snapshot()), steps)
      ensures firstTime == old(firstTime)
    {
      if timeLeft >= Cost {
        SetMayExecute();
        AddTime(-Cost);
        match kind {
          case Turn(angle) =>
            var a := EvaluateExpression(angle, TopScope, steps);
            if a.Raise? { return Raise(a.signal); }
            var d := CastDouble(a.value);
            if d.Raise? { return Raise(d.signal); }
            var o := ship.orientation + d.value;
            if !(0.0 <= o < TwoPi) { return Raise(Thrown(IllegalArgument)); }
            ship := ShipState(o, ship.effects + [Turned(d.value)]);
          case Fire => ship := ship.(effects := ship.effects + [Fired]);
          case ThrustOn => ship := ship.(effects := ship.effects + [ThrusterOn]);
          case ThrustOff => ship := ship.(effects := ship.effects + [ThrusterOff]);
          case Skip =>
        }
        r := Ok(());
      } else {
        location := Some(loc);
        SetMayNotExecute();
        r := Raise(SuspendSignal);
      }
    }

    /** `evaluate(program, null)` of a statement. */
    method Evaluate(s: Stmt, steps: nat) returns (r: Res<()>)
      modifies this
      ensures (r, Snapshot()) == EvalStmt(s, Context(), old(Snapshot()), steps)
      ensures firstTime == old(firstTime)
      decreases steps, StmtSize(s), 1
    {
      match s {
        case Assign(x, e) =>
          if x in functions { return Raise(Thrown(IllegalArgument)); }
          var a := EvaluateExpression(e, TopScope, steps);
          if a.Raise? { return Raise(a.signal); }
          if !a.value.Num? { return Raise(Thrown(IllegalArgument)); }
          var b := EvaluateExpression(e, TopScope, steps);
          if b.Raise? { return Raise(b.signal); }
          AddVariable(x, b.value);
          r := Ok(());
        case Sequence(ss) =>
          r := EvaluateSequence(ss, steps);
        case IfElse(c, t, e) =>
          var cv := EvaluateExpression(c, TopScope, steps);
          if cv.Raise? { return Raise(cv.signal); }
          var b := CastBoolean(cv.value);
          if b.Raise? { return Raise(b.signal); }
          if b.value {
            r := Evaluate(t, steps);
          } else if e.Some? {
            r := Evaluate(e.value, steps);
          } else {
            r := Ok(());
          }
        case While(_, _, _) =>
          r := EvaluateWhile(s, steps);
        case Break =>
          r := Raise(BreakSignal);
        case Return(_) =>
          r := Raise(Thrown(IllegalArgument));
        case Print(e) =>
          if e.Parameter? { return Raise(Thrown(IllegalArgument)); }
          var v := EvaluateExpression(e, TopScope, steps);
          if v.Raise? { return Raise(v.signal); }
          AddPrintOut(v.value);
          r := Ok(());
        case Action(kind, loc) =>
          r := EvaluateAction(kind, loc, steps);
      }
    }

    /** `SequenceStatement.evaluate`: a loop over the statements that stops
        at the first signal. */
    method EvaluateSequence(ss: seq<Stmt>, steps: nat) returns (r: Res<()>)
      modifies this
      ensures (r, Snapshot()) == EvalSeq(ss, Context(), old(Snapshot()), steps)
      ensures firstTime == old(firstTime)
      decreases steps, StmtsSize(ss), 2
    {
      var i := 0;
      while i < |ss|
        invariant 0 <= i <= |ss|
        invariant EvalSeq(ss[i..], Context(), Snapshot(), steps) == EvalSeq(ss, Context(), old(Snapshot()), steps)
        invariant firstTime == old(firstTime)
      {
        StmtsSizeSplit(ss, i);
        ghost var before := Snapshot();
        assert ss[i..][0] == ss[i] && ss[i..][1..] == ss[i + 1..];
        var r1 := Evaluate(ss[i], steps);
        if r1.Raise? { return r1; }
        i := i + 1;
      }
      assert ss[i..] == [];
      r := Ok(());
    }

    /** `WhileStatement.evaluate`. */
    method EvaluateWhile(w: Stmt, steps: nat) returns (r: Res<()>)
      requires w.While?
      modifies this
      ensures (r, Snapshot()) == EvalWhile(w, Context(), old(Snapshot()), steps)
      ensures firstTime == old(firstTime)
      decreases steps, StmtSize(w), 0
    {
      var n: nat := steps;
      while true
        invariant n <= steps
        invariant EvalWhile(w, Context(), Snapshot(), n) == EvalWhile(w, Context(), old(Snapshot()), steps)
        invariant firstTime == old(firstTime)
        decreases n
      {
        var cv := EvaluateExpression(w.condition, TopScope, n);
        if cv.Raise? { return Raise(cv.signal); }
        var b := CastBoolean(cv.value);
        if b.Raise? { return Raise(b.signal); }
        if !b.value || w.id in broken { return Ok(()); }
        var rb := Evaluate(w.body, n);
        if rb.Raise? && rb.signal != BreakSignal { return rb; }
        if rb.Raise? {
          broken := broken + {w.id};
        }
        if n == 0 { return Raise(Thrown(OutOfSteps)); }
        n := n - 1;
      }
    }

    /** `skipEvaluationUntilLocation(program, null, loc)` of a statement. */
    method SkipEvaluationUntilLocation(s: Stmt, loc: Option<Location>, steps: nat) returns (r: Res<()>)
      modifies this
      ensures (r, Snapshot()) == SkipStmt(s, loc, Context(), old(Snapshot()), steps)
      ensures firstTime == old(firstTime)
      decreases steps, StmtSize(s), 1
    {
      match s {
        case Sequence(ss) =>
          r := SkipSequence(ss, loc, steps);
        case IfElse(c, t, e) =>
          var cv := EvaluateExpression(c, TopScope, steps);
          if cv.Raise? { return Raise(cv.signal); }
          var b := CastBoolean(cv.value);
          if b.Raise? { return Raise(b.signal); }
          if b.value {
            r := SkipEvaluationUntilLocation(t, loc, steps);
          } else if e.Some? {
            r := SkipEvaluationUntilLocation(e.value, loc, steps);
          } else {
            r := Ok(());
          }
        case While(_, _, _) =>
          r := SkipWhile(s, loc, steps);
        case Action(kind, l) =>
          if loc == Some(l) {
            r := EvaluateAction(kind, l, steps);
          } else {
            r := Ok(());
          }
        case _ =>
          r := Ok(());
      }
    }

    /** `SequenceStatement.skipEvaluationUntilLocation`: each statement
        consults may-execute at its own turn. */
    method SkipSequence(ss: seq<Stmt>, loc: Option<Location>, steps: nat) returns (r: Res<()>)
      modifies this
      ensures (r, Snapshot()) == SkipSeq(ss, loc, Context(), old(Snapshot()), steps)
      ensures firstTime == old(firstTime)
      decreases steps, StmtsSize(ss), 2
    {
      var i := 0;
      while i < |ss|
        invariant 0 <= i <= |ss|
        invariant SkipSeq(ss[i..], loc, Context(), Snapshot(), steps) == SkipSeq(ss, loc, Context(), old(Snapshot()), steps)
        invariant firstTime == old(firstTime)
      {
        StmtsSizeSplit(ss, i);
        assert ss[i..][0] == ss[i] && ss[i..][1..] == ss[i + 1..];
        var r1;
        if mayExecute {
          r1 := Evaluate(ss[i], steps);
        } else {
          r1 := SkipEvaluationUntilLocation(ss[i], loc, steps);
        }
        if r1.Raise? { return r1; }
        i := i + 1;
      }
      assert ss[i..] == [];
      r := Ok(());
    }

    /** `WhileStatement.skipEvaluationUntilLocation`. */
    method SkipWhile(w: Stmt, loc: Option<Location>, steps: nat) returns (r: Res<()>)
      requires w.While?
      modifies this
      ensures (r, Snapshot()) == Statements.SkipWhile(w, loc, Context(), old(Snapshot()), steps)
      ensures firstTime == old(firstTime)
      decreases steps, StmtSize(w), 0
    {
      var n: nat := steps;
      while true
        invariant n <= steps
        invariant Statements.SkipWhile(w, loc, Context(), Snapshot(), n)
                  == Statements.SkipWhile(w, loc, Context(), old(Snapshot()), steps)
        invariant firstTime == old(firstTime)
        decreases n
      {
        var cv := EvaluateExpression(w.condition, TopScope, n);
        if cv.Raise? { return Raise(cv.signal); }
        var b := CastBoolean(cv.value);
        if b.Raise? { return Raise(b.signal); }
        if !b.value || w.id in broken { return Ok(()); }
        var rb := SkipEvaluationUntilLocation(w.body, loc, n);
        if rb.Raise? && rb.signal != BreakSignal { return rb; }
        if rb.Raise? {
          broken := broken + {w.id};
        }
        if n == 0 { return Raise(Thrown(OutOfSteps)); }
        n := n - 1;
      }
    }

    /** `execute(dt)`: top up the fuel, then run the main statement (first
        call) or resume it (later calls). */
    method Execute(dt: real, steps: nat) returns (x: ExecResult)
      modifies this
      ensures (x, Snapshot()) == Executed(main, Context(), old(Snapshot()), old(firstTime), dt, steps)
      ensures !firstTime
      ensures x.PrintOuts? ==> old(printOuts) <= x.log == printOuts
      ensures x == Suspended ==> location.Some? && location.value in ActionLocations(main) && !mayExecute
    {
      AddTime(dt);
      var r;
      if firstTime {
        firstTime := false;
        r := Evaluate(main, steps);
      } else {
        r := SkipEvaluationUntilLocation(main, location, steps);
      }
      x := Outcome(r, Snapshot());
    }
  }
}
