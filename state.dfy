/** The mutable state of a running program, as one value: the fields of
    `Program` (globals, fuel, resume anchor, may-execute flag, print log),
    the local-variable map of every `MyFunction`, the `broken` flag of every
    `WhileStatement`, and the observable side of the program's ship. The
    fixed context an evaluation reads (function table, world oracle) is an
    `Env`. */
module ProgramState {
  import opened Values
  import opened Syntax
  import opened Queries

  /** What an action does to the ship, in order. */
  datatype ShipEffect = Turned(angle: real) | Fired | ThrusterOn | ThrusterOff

  /** The ship as the program sees and changes it: its orientation (read by
      `getdir`, changed by `turn`) and the effects performed on it. */
  datatype ShipState = ShipState(orientation: real, effects: seq<ShipEffect>)

  datatype State = State(
    globals: map<string, Value>,                  // Program.variables
    locals: map<string, map<string, Value>>,      // MyFunction.local_variables, per function name
    broken: set<nat>,                             // ids of the WhileStatements whose `broken` is set
    timeLeft: real,                               // Program.time_left (the fuel)
    location: Option<Location>,                   // Program.location (the resume anchor)
    mayExecute: bool,                             // Program.mayExecute
    printOuts: seq<Value>,                        // Program.print_outs
    ship: ShipState)

  /** The fixed context of an evaluation: the function bodies by name
      (`Program.functions`), what the ship observes of its world, and the
      square root (`Math.sqrt`), given as an oracle. */
  datatype Env = Env(functions: map<string, Stmt>, around: Surroundings, sqrt: real -> real)

  /** The actual arguments and the current function: `null` and `null` at
      top level, a literal list and the callee inside a function body. */
  datatype Scope = Scope(args: Option<seq<real>>, callee: Option<string>)

  const TopScope := Scope(None, None)

  /** The price of one action (`ActionStatement.decrement_time`). */
  const Cost: real := 0.2

  /** `2 * Math.PI`, the bound on valid orientations. */
  const TwoPi: real := 6.283185307179586

  /** The state of a freshly constructed program: fuel 0, no anchor,
      may-execute false, no globals, no prints, empty local maps. */
  function InitialState(ship: ShipState): (st: State)
    ensures st.timeLeft == 0.0 && st.location == None && !st.mayExecute
    ensures st.globals == map[] && st.printOuts == [] && st.broken == {}
    ensures forall f :: LocalsOf(st, f) == map[]
  {
    State(map[], map[], {}, 0.0, None, false, [], ship)
  }

  /** `getFunctionLocalVariables()` of the function named `f`; a function
      whose map was never replaced still has its initial empty map. */
  function LocalsOf(st: State, f: string): map<string, Value>
  {
    if f in st.locals then st.locals[f] else map[]
  }

  /** `setLocalVariables(m)`: `m` becomes the current local map of `f`. */
  function SetLocals(st: State, f: string, m: map<string, Value>): (st': State)
    ensures LocalsOf(st', f) == m
    ensures forall g :: g != f ==> LocalsOf(st', g) == LocalsOf(st, g)
    ensures st' == st.(locals := st'.locals)
  {
    st.(locals := st.locals[f := m])
  }

  /** `resetLocalVariables()`: `f` gets a fresh empty map. */
  function ResetLocals(st: State, f: string): (st': State)
    ensures LocalsOf(st', f) == map[]
    ensures forall g :: g != f ==> LocalsOf(st', g) == LocalsOf(st, g)
    ensures st' == st.(locals := st'.locals)
  {
    SetLocals(st, f, map[])
  }

  /** `addLocalVariable(x, v)`: binds `x` in the current map of `f`,
      overwriting an earlier binding, no check on name or value. */
  function AddLocal(st: State, f: string, x: string, v: Value): (st': State)
    ensures LocalsOf(st', f) == LocalsOf(st, f)[x := v]
    ensures forall y :: y != x && y in LocalsOf(st, f) ==> y in LocalsOf(st', f) && LocalsOf(st', f)[y] == LocalsOf(st, f)[y]
    ensures forall g :: g != f ==> LocalsOf(st', g) == LocalsOf(st, g)
    ensures st' == st.(locals := st'.locals)
  {
    SetLocals(st, f, LocalsOf(st, f)[x := v])
  }

  /** `addVariable(x, v)`: binds the global `x`, overwriting an earlier
      binding; every other global is unchanged. */
  function AddVariable(st: State, x: string, v: Value): (st': State)
    ensures x in st'.globals && st'.globals[x] == v
    ensures forall y :: y != x ==> (y in st'.globals <==> y in st.globals)
    ensures forall y :: y != x && y in st.globals ==> st'.globals[y] == st.globals[y]
    ensures st' == st.(globals := st'.globals)
  {
    st.(globals := st.globals[x := v])
  }

  /** `addPrintOut(v)`: appends `v` to the print log. */
  function AddPrintOut(st: State, v: Value): (st': State)
    ensures |st'.printOuts| == |st.printOuts| + 1
    ensures st'.printOuts[..|st.printOuts|] == st.printOuts
    ensures st'.printOuts[|st.printOuts|] == v
    ensures st' == st.(printOuts := st'.printOuts)
  {
    st.(printOuts := st.printOuts + [v])
  }

  /** What an expression evaluation may change: only function locals (by
      calls) and `broken` flags (by loops in function bodies), which only
      get set. */
  predicate LocalEffect(st: State, st': State)
  {
    st' == st.(locals := st'.locals, broken := st'.broken) && st.broken <= st'.broken
  }

  /** What a statement evaluation may change at most: `broken` flags only
      get set, prints only get appended, ship effects only get appended. */
  predicate Grows(st: State, st': State)
  {
    st.broken <= st'.broken && st.printOuts <= st'.printOuts && st.ship.effects <= st'.ship.effects
  }
}
