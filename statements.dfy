/** Statement evaluation at top level (`evaluate`), the fuel-paying action
    step, the resume walk (`skipEvaluationUntilLocation`) and one
    `Program.execute(dt)` call, as functions from the state before to a
    result and the state after. At top level there are no actual arguments
    and no current function, so every expression is evaluated in
    `TopScope`. `steps` bounds while-loop iterations and function calls. */
module Statements {
  import opened Values
  import opened Syntax
  import opened ProgramState
  import opened Expressions

  /** What any top-level evaluation does to the state: loops only get
      broken, prints and ship effects only get appended, fuel never rises,
      fuel that was spent leaves a non-negative balance, and every ship
      effect was paid for with one action's price. */
  predicate Accounted(st: State, st': State)
  {
    Grows(st, st')
    && st'.timeLeft <= st.timeLeft
    && (st'.timeLeft == st.timeLeft || st'.timeLeft >= 0.0)
    && Cost * ((|st'.ship.effects| - |st.ship.effects|) as real) <= st.timeLeft - st'.timeLeft
  }

  /** How an evaluation that may contain the actions at `anchors` ends: a
      suspension clears may-execute and records one of those actions as the
      resume anchor, with less than one action's price left; anything else
      keeps the anchor and a set may-execute flag. */
  predicate Anchored(anchors: set<Location>, st: State, r: Res<()>, st': State)
  {
    if r == Raise(SuspendSignal) then
      !st'.mayExecute && st'.location.Some? && st'.location.value in anchors && st'.timeLeft < Cost
    else
      st'.location == st.location && (st.mayExecute ==> st'.mayExecute)
  }

  /** `ActionStatement.evaluate` followed by the action's `execute`: with
      at least one price of fuel, set may-execute, pay, and act; otherwise
      record the action's location as the anchor, clear may-execute and
      suspend, changing nothing else. */
  function EvalAction(kind: ActionKind, loc: Location, env: Env, st: State, steps: nat): (out: (Res<()>, State))
    ensures st.timeLeft < Cost ==> out == (Raise(SuspendSignal), st.(location := Some(loc), mayExecute := false))
    ensures st.timeLeft >= Cost ==> out.0 != Raise(SuspendSignal) && out.1.mayExecute
                                    && out.1.timeLeft == st.timeLeft - Cost
                                    && out.1.location == st.location
                                    && out.1.globals == st.globals && out.1.printOuts == st.printOuts
    ensures out.0.Raise? ==> out.1.ship == st.ship
    ensures out.0.Ok? ==> |out.1.ship.effects| <= |st.ship.effects| + 1
    ensures out.0.Ok? && kind.Turn? ==>
              0.0 <= out.1.ship.orientation < TwoPi
              && out.1.ship.effects == st.ship.effects + [Turned(out.1.ship.orientation - st.ship.orientation)]
    ensures out.0.Ok? && kind == Fire ==> out.1.ship == st.ship.(effects := st.ship.effects + [Fired])
    ensures out.0.Ok? && kind == ThrustOn ==> out.1.ship == st.ship.(effects := st.ship.effects + [ThrusterOn])
    ensures out.0.Ok? && kind == ThrustOff ==> out.1.ship == st.ship.(effects := st.ship.effects + [ThrusterOff])
    ensures kind == Skip && st.timeLeft >= Cost ==> out == (Ok(()), st.(mayExecute := true, timeLeft := st.timeLeft - Cost))
    ensures Accounted(st, out.1)
    ensures Anchored({loc}, st, out.0, out.1)
  {
    if st.timeLeft < Cost then (Raise(SuspendSignal), st.(location := Some(loc), mayExecute := false))
    else
      var st1 := st.(mayExecute := true, timeLeft := st.timeLeft - Cost);
      match kind
      case Turn(angle) =>
        // `(double)` of the angle, then `Ship.turn`, whose orientation
        // assertion failure is rethrown as an IllegalArgumentException.
        var (a, st2) := EvalExpr(angle, TopScope, env, st1, steps);
        if a.Raise? then (Raise(a.signal), st2)
        else
          var d := CastDouble(a.value);
          if d.Raise? then (Raise(d.signal), st2)
          else
            var o := st2.ship.orientation + d.value;
            if 0.0 <= o < TwoPi then (Ok(()), st2.(ship := ShipState(o, st2.ship.effects + [Turned(d.value)])))
            else (Raise(Thrown(IllegalArgument)), st2)
      case Fire => (Ok(()), st1.(ship := st1.ship.(effects := st1.ship.effects + [Fired])))
      case ThrustOn => (Ok(()), st1.(ship := st1.ship.(effects := st1.ship.effects + [ThrusterOn])))
      case ThrustOff => (Ok(()), st1.(ship := st1.ship.(effects := st1.ship.effects + [ThrusterOff])))
      case Skip => (Ok(()), st1)
  }

  /** `evaluate(program, null)` of a statement. */
  function EvalStmt(s: Stmt, env: Env, st: State, steps: nat): (out: (Res<()>, State))
    ensures Accounted(st, out.1)
    ensures Anchored(ActionLocations(s), st, out.0, out.1)
    decreases steps, StmtSize(s), 1
  {
    match s
    case Assign(x, e) =>
      // `isValidVariable`: not a function name, and a number; the value
      // stored is a second evaluation.
      if x in env.functions then (Raise(Thrown(IllegalArgument)), st)
      else
        var (a, st1) := EvalExpr(e, TopScope, env, st, steps);
        if a.Raise? then (Raise(a.signal), st1)
        else if !a.value.Num? then (Raise(Thrown(IllegalArgument)), st1)
        else
          var (b, st2) := EvalExpr(e, TopScope, env, st1, steps);
          if b.Raise? then (Raise(b.signal), st2)
          else (Ok(()), AddVariable(st2, x, b.value))
    case Sequence(ss) => EvalSeq(ss, env, st, steps)
    case IfElse(c, t, e) =>
      var (cv, st1) := EvalExpr(c, TopScope, env, st, steps);
      if cv.Raise? then (Raise(cv.signal), st1)
      else
        var b := CastBoolean(cv.value);
        if b.Raise? then (Raise(b.signal), st1)
        else if b.value then EvalStmt(t, env, st1, steps)
        else if e.Some? then EvalStmt(e.value, env, st1, steps)
        else (Ok(()), st1)
    case While(_, _, _) => EvalWhile(s, env, st, steps)
    case Break => (Raise(BreakSignal), st)
    case Return(_) => (Raise(Thrown(IllegalArgument)), st)
    case Print(e) =>
      if e.Parameter? then (Raise(Thrown(IllegalArgument)), st)
      else
        var (v, st1) := EvalExpr(e, TopScope, env, st, steps);
        if v.Raise? then (Raise(v.signal), st1) else (Ok(()), AddPrintOut(st1, v.value))
    case Action(kind, loc) => EvalAction(kind, loc, env, st, steps)
  }

  /** `SequenceStatement.evaluate`: the statements in order, each once,
      stopping at the first signal. */
  function EvalSeq(ss: seq<Stmt>, env: Env, st: State, steps: nat): (out: (Res<()>, State))
    ensures Accounted(st, out.1)
    ensures Anchored(ActionLocationsOf(ss), st, out.0, out.1)
    decreases steps, StmtsSize(ss), 2
  {
    if ss == [] then (Ok(()), st)
    else
      var (r, st1) := EvalStmt(ss[0], env, st, steps);
      if r.Raise? then (r, st1) else EvalSeq(ss[1..], env, st1, steps)
  }

  /** `WhileStatement.evaluate`: evaluate the condition, then check the
      `broken` flag; run the body; a break from the body sets the flag and
      is not passed on. */
  function EvalWhile(w: Stmt, env: Env, st: State, steps: nat): (out: (Res<()>, State))
    requires w.While?
    ensures Accounted(st, out.1)
    ensures Anchored(ActionLocations(w), st, out.0, out.1)
    ensures !HasCall(w.condition) ==> out.0 != Raise(BreakSignal)
    decreases steps, StmtSize(w), 0
  {
    var (cv, st1) := EvalExpr(w.condition, TopScope, env, st, steps);
    if cv.Raise? then (Raise(cv.signal), st1)
    else
      var b := CastBoolean(cv.value);
      if b.Raise? then (Raise(b.signal), st1)
      else if !b.value || w.id in st1.broken then (Ok(()), st1)
      else
        var (r, st2) := EvalStmt(w.body, env, st1, steps);
        if r.Raise? && r.signal != BreakSignal then (r, st2)
        else
          var st3 := if r.Raise? then st2.(broken := st2.broken + {w.id}) else st2;
          if steps == 0 then (Raise(Thrown(OutOfSteps)), st3)
          else EvalWhile(w, env, st3, steps - 1)
  }

  /** `skipEvaluationUntilLocation(program, null, loc)` of a statement: the
      walk that looks for the resume anchor `loc`. Assignments, prints,
      returns and breaks do nothing; an action runs only if it is the
      anchor. */
  function SkipStmt(s: Stmt, loc: Option<Location>, env: Env, st: State, steps: nat): (out: (Res<()>, State))
    ensures Accounted(st, out.1)
    ensures Anchored(ActionLocations(s), st, out.0, out.1)
    decreases steps, StmtSize(s), 1
  {
    match s
    case Sequence(ss) => SkipSeq(ss, loc, env, st, steps)
    case IfElse(c, t, e) =>
      var (cv, st1) := EvalExpr(c, TopScope, env, st, steps);
      if cv.Raise? then (Raise(cv.signal), st1)
      else
        var b := CastBoolean(cv.value);
        if b.Raise? then (Raise(b.signal), st1)
        else if b.value then SkipStmt(t, loc, env, st1, steps)
        else if e.Some? then SkipStmt(e.value, loc, env, st1, steps)
        else (Ok(()), st1)
    case While(_, _, _) => SkipWhile(s, loc, env, st, steps)
    case Action(kind, l) => if loc == Some(l) then EvalAction(kind, l, env, st, steps) else (Ok(()), st)
    case _ => (Ok(()), st)
  }

  /** `SequenceStatement.skipEvaluationUntilLocation`: each statement, at
      its turn, is evaluated normally if may-execute is set by then, and
      walked in skip mode otherwise. */
  function SkipSeq(ss: seq<Stmt>, loc: Option<Location>, env: Env, st: State, steps: nat): (out: (Res<()>, State))
    ensures Accounted(st, out.1)
    ensures Anchored(ActionLocationsOf(ss), st, out.0, out.1)
    decreases steps, StmtsSize(ss), 2
  {
    if ss == [] then (Ok(()), st)
    else
      var (r, st1) := if st.mayExecute then EvalStmt(ss[0], env, st, steps)
                      else SkipStmt(ss[0], loc, env, st, steps);
      if r.Raise? then (r, st1) else SkipSeq(ss[1..], loc, env, st1, steps)
  }

  /** `WhileStatement.skipEvaluationUntilLocation`: the loop of `evaluate`
      with the body walked in skip mode. */
  function SkipWhile(w: Stmt, loc: Option<Location>, env: Env, st: State, steps: nat): (out: (Res<()>, State))
    requires w.While?
    ensures Accounted(st, out.1)
    ensures Anchored(ActionLocations(w), st, out.0, out.1)
    decreases steps, StmtSize(w), 0
  {
    var (cv, st1) := EvalExpr(w.condition, TopScope, env, st, steps);
    if cv.Raise? then (Raise(cv.signal), st1)
    else
      var b := CastBoolean(cv.value);
      if b.Raise? then (Raise(b.signal), st1)
      else if !b.value || w.id in st1.broken then (Ok(()), st1)
      else
        var (r, st2) := SkipStmt(w.body, loc, env, st1, steps);
        if r.Raise? && r.signal != BreakSignal then (r, st2)
        else
          var st3 := if r.Raise? then st2.(broken := st2.broken + {w.id}) else st2;
          if steps == 0 then (Raise(Thrown(OutOfSteps)), st3)
          else SkipWhile(w, loc, env, st3, steps - 1)
  }

  /** What `Program.execute` hands back: the whole print log, null after a
      suspension, or an exception that escapes it (an uncaught break leaves
      as an IllegalAccessError). */
  datatype ExecResult = PrintOuts(log: seq<Value>) | Suspended | Escaped(error: Error)

  function Outcome(r: Res<()>, st: State): (x: ExecResult)
    ensures r.Ok? <==> x == PrintOuts(st.printOuts)
    ensures r == Raise(SuspendSignal) <==> x == Suspended
    ensures r == Raise(BreakSignal) ==> x == Escaped(IllegalAccess)
    ensures r.Raise? && r.signal.Thrown? ==> x == Escaped(r.signal.error)
  {
    match r
    case Ok(_) => PrintOuts(st.printOuts)
    case Raise(SuspendSignal) => Suspended
    case Raise(BreakSignal) => Escaped(IllegalAccess)
    case Raise(Thrown(e)) => Escaped(e)
  }

  /** `Program.execute(dt)`: add `dt` to the fuel (whatever its sign), then
      evaluate the main statement normally on the first call and walk it
      in skip mode towards the recorded anchor on every later call. The
      result is what `execute` hands back and the program's state after the
      call; `first_time` is cleared by `Program.Execute`. */
  function Executed(main: Stmt, env: Env, st: State, firstTime: bool, dt: real, steps: nat): (out: (ExecResult, State))
    ensures out.0.PrintOuts? ==> out.0.log == out.1.printOuts
    ensures Accounted(st.(timeLeft := st.timeLeft + dt), out.1)
    ensures out.0.PrintOuts? ==> st.printOuts <= out.0.log
    ensures out.0 == Suspended ==> out.1.location.Some? && out.1.location.value in ActionLocations(main)
  {
    var st1 := st.(timeLeft := st.timeLeft + dt);
    var (r, st2) := if firstTime then EvalStmt(main, env, st1, steps)
                    else SkipStmt(main, st.location, env, st1, steps);
    (Outcome(r, st2), st2)
  }
}
